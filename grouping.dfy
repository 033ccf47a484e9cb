/** First-occurrence grouping, the behaviour of a JavaScript `Map` that is filled
    by creating an empty list the first time a key is seen and pushing each
    element onto its key's list, then read back in insertion
    order. `Bucket1` and `Bucket2` are declarative definitions (distinct keys in
    order of first appearance, each with the elements that carry it, in input
    order); `Add1` and `Add2` are the one-element steps the loops perform, and
    `Add1Correct`/`Add2Correct` prove that the steps build exactly the
    declarative grouping. */
module Grouping {

  /** The key of every element, in order (`s.map(key)`). */
  function Keys<T, K>(s: seq<T>, key: T -> K): (r: seq<K>)
    ensures |r| == |s|
    ensures forall i :: 0 <= i < |s| ==> r[i] == key(s[i])
  {
    if s == [] then [] else Keys(s[..|s| - 1], key) + [key(s[|s| - 1])]
  }

  predicate NoDup<K(==)>(ks: seq<K>) {
    forall i, j :: 0 <= i < j < |ks| ==> ks[i] != ks[j]
  }

  /** The keys in order of first occurrence, each once. */
  function Distinct<K(==)>(ks: seq<K>): (r: seq<K>)
    ensures NoDup(r)
  {
    if ks == [] then []
    else
      var d := Distinct(ks[..|ks| - 1]);
      if ks[|ks| - 1] in d then d else d + [ks[|ks| - 1]]
  }

  /** `Distinct` keeps exactly the keys that occur. */
  lemma {:induction false} DistinctMembers<K>(ks: seq<K>)
    ensures forall k :: k in Distinct(ks) <==> k in ks
  {
    if ks != [] {
      DistinctMembers(ks[..|ks| - 1]);
      assert ks == ks[..|ks| - 1] + [ks[|ks| - 1]];
    }
  }

  /** The elements whose key is `k`, in input order. */
  function Having<T, K(==)>(s: seq<T>, key: T -> K, k: K): (r: seq<T>)
    ensures |r| <= |s|
    ensures forall i :: 0 <= i < |r| ==> key(r[i]) == k
  {
    if s == [] then []
    else Having(s[..|s| - 1], key, k) + (if key(s[|s| - 1]) == k then [s[|s| - 1]] else [])
  }

  lemma {:induction false} HavingNonEmpty<T, K>(s: seq<T>, key: T -> K, k: K)
    ensures Having(s, key, k) != [] <==> k in Keys(s, key)
  {
    if s != [] {
      HavingNonEmpty(s[..|s| - 1], key, k);
      assert Keys(s, key) == Keys(s[..|s| - 1], key) + [key(s[|s| - 1])];
    }
  }

  /** `Having` only keeps elements of its input. */
  lemma {:induction false} HavingMembers<T, K>(s: seq<T>, key: T -> K, k: K)
    ensures forall i :: 0 <= i < |Having(s, key, k)| ==> Having(s, key, k)[i] in s
  {
    if s != [] {
      var p := s[..|s| - 1];
      HavingMembers(p, key, k);
      assert forall x :: x in p ==> x in s;
    }
  }

  lemma {:induction false} HavingAll<T, K>(s: seq<T>, key: T -> K, k: K)
    requires forall i :: 0 <= i < |s| ==> key(s[i]) == k
    ensures Having(s, key, k) == s
  {
    if s != [] {
      var p := s[..|s| - 1];
      assert forall i :: 0 <= i < |p| ==> key(p[i]) == k by {
        forall i | 0 <= i < |p| ensures key(p[i]) == k { assert p[i] == s[i]; }
      }
      HavingAll(p, key, k);
      assert p + [s[|s| - 1]] == s;
    }
  }

  /** `x` is kept by `Having` exactly when its key is `k`. */
  lemma {:induction false} InHaving<T, K>(s: seq<T>, key: T -> K, x: T)
    requires x in s
    ensures x in Having(s, key, key(x))
  {
    if s[|s| - 1] != x {
      assert x in s[..|s| - 1];
      InHaving(s[..|s| - 1], key, x);
    }
  }

  /** A non-empty sequence is its prefix followed by its last element. */
  lemma LastSplit<T>(s: seq<T>)
    requires s != []
    ensures s == s[..|s| - 1] + [s[|s| - 1]]
  {
  }

  /** The prefix of full length is the sequence itself. */
  lemma WholePrefix<T>(s: seq<T>, n: nat)
    requires n == |s|
    ensures s[..n] == s
  {
  }

  /** A prefix one longer is the prefix followed by the next element. */
  lemma PrefixSnoc<T>(s: seq<T>, i: nat)
    requires i < |s|
    ensures s[..i + 1] == s[..i] + [s[i]]
    ensures s[..i + 1][..i] == s[..i]
  {
  }

  lemma AppendPrefixSnoc<T>(d: seq<T>, s: seq<T>, i: nat)
    requires i < |s|
    ensures d + s[..i + 1] == (d + s[..i]) + [s[i]]
  {
    PrefixSnoc(s, i);
  }

  lemma AppendAssoc<T>(a: seq<T>, b: seq<T>, c: seq<T>)
    ensures (a + b) + c == a + (b + c)
  {
  }

  /** Pointwise equal to `b` followed by `y`. */
  lemma SnocExt<T>(a: seq<T>, b: seq<T>, y: T)
    requires |a| == |b| + 1 && a[|b|] == y
    requires forall j :: 0 <= j < |b| ==> a[j] == b[j]
    ensures a == b + [y]
  {
  }

  /** Pointwise equal to `b` with position `i` replaced by `y`. */
  lemma UpdateExt<T>(a: seq<T>, b: seq<T>, i: nat, y: T)
    requires |a| == |b| && i < |b| && a[i] == y
    requires forall j :: 0 <= j < |b| && j != i ==> a[j] == b[j]
    ensures a == b[i := y]
  {
  }

  /** A sequence around position `i`, and the same with position `i` replaced. */
  lemma SplitAt<T>(b: seq<T>, i: nat, y: T)
    requires i < |b|
    ensures b == b[..i] + [b[i]] + b[i + 1..]
    ensures b[i := y] == b[..i] + [y] + b[i + 1..]
  {
  }

  // ------------------------------------------------------------- one level

  /** The first index whose key is `k`, or -1 (`Map.has` / `Map.get`). */
  function FindKey<K(==), V>(b: seq<(K, V)>, k: K): (r: int)
    ensures -1 <= r < |b|
    ensures r >= 0 ==> b[r].0 == k && forall i :: 0 <= i < r ==> b[i].0 != k
    ensures r == -1 ==> forall i :: 0 <= i < |b| ==> b[i].0 != k
  {
    if b == [] then -1
    else if b[0].0 == k then 0
    else var r := FindKey(b[1..], k); if r == -1 then -1 else r + 1
  }

  /** A key appended after a list that lacks it is found at the end. */
  lemma FindKeyAppended<K, V>(b: seq<(K, V)>, k: K, v: V)
    requires FindKey(b, k) < 0
    ensures FindKey(b + [(k, v)], k) == |b|
  {
    var r := FindKey(b + [(k, v)], k);
    assert (b + [(k, v)])[|b|].0 == k;
  }

  /** Elements grouped by key: one bucket per distinct key, in first-occurrence order. */
  function Bucket1<T, K(==)>(s: seq<T>, key: T -> K): (b: seq<(K, seq<T>)>)
    ensures |b| == |Distinct(Keys(s, key))|
    ensures forall i :: 0 <= i < |b| ==>
      b[i].0 == Distinct(Keys(s, key))[i] && b[i].1 == Having(s, key, b[i].0)
  {
    var d := Distinct(Keys(s, key));
    seq(|d|, i requires 0 <= i < |d| => (d[i], Having(s, key, d[i])))
  }

  /** One loop step: create the bucket of `k` if missing, then append `x` to it. */
  function Add1<K(==), T>(b: seq<(K, seq<T>)>, k: K, x: T): seq<(K, seq<T>)> {
    var i := FindKey(b, k);
    if i < 0 then b + [(k, [x])] else b[i := (k, b[i].1 + [x])]
  }

  lemma {:induction false} KeysSnoc<T, K>(s: seq<T>, key: T -> K, x: T)
    ensures Keys(s + [x], key) == Keys(s, key) + [key(x)]
  {
    assert (s + [x])[..|s|] == s;
  }

  lemma {:induction false} HavingSnoc<T, K>(s: seq<T>, key: T -> K, x: T, k: K)
    ensures Having(s + [x], key, k) == Having(s, key, k) + (if key(x) == k then [x] else [])
  {
    assert (s + [x])[..|s|] == s;
  }

  lemma {:induction false} HavingAppend<T, K>(s: seq<T>, t: seq<T>, key: T -> K, k: K)
    ensures Having(s + t, key, k) == Having(s, key, k) + Having(t, key, k)
    decreases |t|
  {
    if t == [] {
      assert s + t == s;
    } else {
      var p, x := t[..|t| - 1], t[|t| - 1];
      assert s + t == (s + p) + [x];
      LastSplit(t);
      HavingSnoc(s + p, key, x, k);
      HavingSnoc(p, key, x, k);
      HavingAppend(s, p, key, k);
    }
  }

  lemma {:induction false} DistinctSnoc<K>(ks: seq<K>, k: K)
    ensures Distinct(ks + [k]) == if k in Distinct(ks) then Distinct(ks) else Distinct(ks) + [k]
  {
    assert (ks + [k])[..|ks|] == ks;
  }

  /** The distinct keys after appending one element. */
  lemma DistinctKeysSnoc<T, K>(s: seq<T>, key: T -> K, x: T)
    ensures Distinct(Keys(s + [x], key)) ==
      if key(x) in Distinct(Keys(s, key)) then Distinct(Keys(s, key)) else Distinct(Keys(s, key)) + [key(x)]
  {
    KeysSnoc(s, key, x);
    DistinctSnoc(Keys(s, key), key(x));
  }

  /** A bucket of another key is left as it was by appending `x`. */
  lemma Bucket1Kept<T, K>(s: seq<T>, key: T -> K, x: T, j: nat)
    requires j < |Bucket1(s, key)| && Bucket1(s, key)[j].0 != key(x)
    ensures j < |Bucket1(s + [x], key)| && Bucket1(s + [x], key)[j] == Bucket1(s, key)[j]
  {
    var d, d' := Distinct(Keys(s, key)), Distinct(Keys(s + [x], key));
    DistinctKeysSnoc(s, key, x);
    assert j < |d'| && d'[j] == d[j];
    HavingSnoc(s, key, x, d[j]);
    assert Having(s + [x], key, d[j]) == Having(s, key, d[j]);
  }

  /** A new key opens a bucket at the end. */
  lemma Add1New<T, K>(s: seq<T>, key: T -> K, x: T)
    requires FindKey(Bucket1(s, key), key(x)) < 0
    ensures Bucket1(s + [x], key) == Bucket1(s, key) + [(key(x), [x])]
  {
    var k := key(x);
    var b, b' := Bucket1(s, key), Bucket1(s + [x], key);
    var d := Distinct(Keys(s, key));
    assert k !in d by {
      forall j | 0 <= j < |d| ensures d[j] != k { assert b[j].0 == d[j]; }
    }
    DistinctKeysSnoc(s, key, x);
    assert Distinct(Keys(s + [x], key)) == d + [k];
    forall j | 0 <= j < |b| ensures b'[j] == b[j] {
      Bucket1Kept(s, key, x, j);
    }
    DistinctMembers(Keys(s, key));
    assert k !in Keys(s, key);
    HavingNonEmpty(s, key, k);
    HavingSnoc(s, key, x, k);
    assert Having(s + [x], key, k) == [x];
    SnocExt(b', b, (k, [x]));
  }

  /** A known key's bucket gets `x` appended. */
  lemma Add1Existing<T, K>(s: seq<T>, key: T -> K, x: T, i: nat)
    requires i < |Bucket1(s, key)| && Bucket1(s, key)[i].0 == key(x)
    ensures Bucket1(s + [x], key) == Bucket1(s, key)[i := (key(x), Bucket1(s, key)[i].1 + [x])]
  {
    var k := key(x);
    var b, b' := Bucket1(s, key), Bucket1(s + [x], key);
    var d := Distinct(Keys(s, key));
    assert d[i] == k;
    DistinctKeysSnoc(s, key, x);
    assert |b'| == |b|;
    forall j | 0 <= j < |b| && j != i ensures b'[j] == b[j] {
      assert d[j] != d[i];
      Bucket1Kept(s, key, x, j);
    }
    HavingSnoc(s, key, x, k);
    UpdateExt(b', b, i, (k, b[i].1 + [x]));
  }

  /** Appending one element and grouping is the same as grouping and then taking one `Add1` step. */
  lemma Add1Correct<T, K>(s: seq<T>, key: T -> K, x: T)
    ensures Bucket1(s + [x], key) == Add1(Bucket1(s, key), key(x), x)
  {
    var i := FindKey(Bucket1(s, key), key(x));
    if i < 0 {
      Add1New(s, key, x);
    } else {
      Add1Existing(s, key, x, i);
    }
  }

  /** The total size of all buckets. */
  function SumLens<K, T>(b: seq<(K, seq<T>)>): nat {
    if b == [] then 0 else SumLens(b[..|b| - 1]) + |b[|b| - 1].1|
  }

  lemma {:induction false} SumLensAppend<K, T>(b: seq<(K, seq<T>)>, c: seq<(K, seq<T>)>)
    ensures SumLens(b + c) == SumLens(b) + SumLens(c)
    decreases |c|
  {
    if c == [] {
      assert b + c == b;
    } else {
      assert (b + c)[..|b + c| - 1] == b + c[..|c| - 1];
      SumLensAppend(b, c[..|c| - 1]);
    }
  }

  lemma {:induction false} SumLensUpdate<K, T>(b: seq<(K, seq<T>)>, i: nat, e: (K, seq<T>))
    requires i < |b|
    ensures SumLens(b[i := e]) == SumLens(b) - |b[i].1| + |e.1|
  {
    SplitAt(b, i, e);
    SumLensAppend(b[..i] + [b[i]], b[i + 1..]);
    SumLensAppend(b[..i], [b[i]]);
    SumLensAppend(b[..i] + [e], b[i + 1..]);
    SumLensAppend(b[..i], [e]);
  }

  lemma {:induction false} SumLensAdd1<K, T>(b: seq<(K, seq<T>)>, k: K, x: T)
    ensures SumLens(Add1(b, k, x)) == SumLens(b) + 1
  {
    var i := FindKey(b, k);
    if i < 0 {
      SumLensAppend(b, [(k, [x])]);
    } else {
      SumLensUpdate(b, i, (k, b[i].1 + [x]));
    }
  }

  /** Grouping loses and duplicates nothing: the buckets together hold |s| elements. */
  lemma {:induction false} Bucket1Total<T, K>(s: seq<T>, key: T -> K)
    ensures SumLens(Bucket1(s, key)) == |s|
  {
    if s == [] {
    } else {
      var p, x := s[..|s| - 1], s[|s| - 1];
      LastSplit(s);
      Bucket1Total(p, key);
      Add1Correct(p, key, x);
      SumLensAdd1(Bucket1(p, key), key(x), x);
    }
  }

  /** Every element lies in exactly one bucket: the one of its own key. */
  lemma {:induction false} Bucket1Unique<T, K>(s: seq<T>, key: T -> K, x: T)
    requires x in s
    ensures exists i :: 0 <= i < |Bucket1(s, key)| && Bucket1(s, key)[i].0 == key(x)
    ensures forall i, j :: (0 <= i < |Bucket1(s, key)| && 0 <= j < |Bucket1(s, key)| &&
      Bucket1(s, key)[i].0 == key(x) && Bucket1(s, key)[j].0 == key(x)) ==> i == j
    ensures forall i :: 0 <= i < |Bucket1(s, key)| && Bucket1(s, key)[i].0 == key(x) ==>
      x in Bucket1(s, key)[i].1
  {
    var b := Bucket1(s, key);
    var d := Distinct(Keys(s, key));
    var n :| 0 <= n < |s| && s[n] == x;
    assert key(x) in Keys(s, key);
    DistinctMembers(Keys(s, key));
    assert key(x) in d;
    var i :| 0 <= i < |d| && d[i] == key(x);
    assert b[i].0 == key(x);
    InHaving(s, key, x);
  }

  // ------------------------------------------------------------- two levels

  /** Elements grouped by `k1`, and inside each group by `k2`. */
  function Bucket2<T, K1(==), K2(==)>(s: seq<T>, k1: T -> K1, k2: T -> K2): (b: seq<(K1, seq<(K2, seq<T>)>)>)
    ensures |b| == |Distinct(Keys(s, k1))|
    ensures forall i :: 0 <= i < |b| ==>
      b[i].0 == Distinct(Keys(s, k1))[i] && b[i].1 == Bucket1(Having(s, k1, b[i].0), k2)
  {
    var d := Distinct(Keys(s, k1));
    seq(|d|, i requires 0 <= i < |d| => (d[i], Bucket1(Having(s, k1, d[i]), k2)))
  }

  /** One step of the nested loop: find or create the outer bucket of `a`, then `Add1` inside it. */
  function Add2<K1(==), K2(==), T>(b: seq<(K1, seq<(K2, seq<T>)>)>, a: K1, c: K2, x: T): seq<(K1, seq<(K2, seq<T>)>)> {
    var i := FindKey(b, a);
    if i < 0 then b + [(a, [(c, [x])])] else b[i := (a, Add1(b[i].1, c, x))]
  }

  lemma {:induction false} Bucket1Single<T, K>(x: T, key: T -> K)
    ensures Bucket1([x], key) == [(key(x), [x])]
  {
    assert [] + [x] == [x];
    Add1Correct([], key, x);
  }

  /** Appending `x` leaves every outer bucket of another key as it was. */
  lemma {:induction false} Bucket2Other<T, K1, K2>(s: seq<T>, k1: T -> K1, k2: T -> K2, x: T, j: nat)
    requires j < |Bucket2(s, k1, k2)| && Bucket2(s, k1, k2)[j].0 != k1(x)
    ensures j < |Bucket2(s + [x], k1, k2)| && Bucket2(s + [x], k1, k2)[j] == Bucket2(s, k1, k2)[j]
  {
    var d := Distinct(Keys(s, k1));
    KeysSnoc(s, k1, x);
    DistinctSnoc(Keys(s, k1), k1(x));
    var d' := Distinct(Keys(s + [x], k1));
    assert d'[j] == d[j];
    HavingSnoc(s, k1, x, d[j]);
    assert Having(s + [x], k1, d[j]) == Having(s, k1, d[j]);
  }

  lemma {:induction false} Bucket2Fresh<T, K1, K2>(s: seq<T>, k1: T -> K1, k2: T -> K2, x: T)
    requires k1(x) !in Keys(s, k1)
    ensures |Bucket2(s + [x], k1, k2)| == |Bucket2(s, k1, k2)| + 1
    ensures Bucket2(s + [x], k1, k2)[|Bucket2(s, k1, k2)|] == (k1(x), [(k2(x), [x])])
  {
    var a := k1(x);
    KeysSnoc(s, k1, x);
    DistinctMembers(Keys(s, k1));
    DistinctSnoc(Keys(s, k1), a);
    HavingSnoc(s, k1, x, a);
    HavingNonEmpty(s, k1, a);
    assert Having(s + [x], k1, a) == [x];
    Bucket1Single(x, k2);
  }

  lemma {:induction false} Add2New<T, K1, K2>(s: seq<T>, k1: T -> K1, k2: T -> K2, x: T)
    requires FindKey(Bucket2(s, k1, k2), k1(x)) < 0
    ensures Bucket2(s + [x], k1, k2) == Bucket2(s, k1, k2) + [(k1(x), [(k2(x), [x])])]
  {
    var b := Bucket2(s, k1, k2);
    var b' := Bucket2(s + [x], k1, k2);
    var d := Distinct(Keys(s, k1));
    assert k1(x) !in d by {
      forall j | 0 <= j < |d| ensures d[j] != k1(x) { assert b[j].0 == d[j]; }
    }
    DistinctMembers(Keys(s, k1));
    Bucket2Fresh(s, k1, k2, x);
    forall j | 0 <= j < |b|
      ensures b'[j] == b[j]
    {
      Bucket2Other(s, k1, k2, x, j);
    }
  }

  lemma {:induction false} Add2Existing<T, K1, K2>(s: seq<T>, k1: T -> K1, k2: T -> K2, x: T, i: nat)
    requires i < |Bucket2(s, k1, k2)| && Bucket2(s, k1, k2)[i].0 == k1(x)
    ensures Bucket2(s + [x], k1, k2) == Bucket2(s, k1, k2)[i := (k1(x), Add1(Bucket2(s, k1, k2)[i].1, k2(x), x))]
  {
    var a := k1(x);
    var b := Bucket2(s, k1, k2);
    var b' := Bucket2(s + [x], k1, k2);
    var d := Distinct(Keys(s, k1));
    KeysSnoc(s, k1, x);
    DistinctSnoc(Keys(s, k1), a);
    assert a in d;
    assert |b'| == |b|;
    forall j | 0 <= j < |b| && j != i
      ensures b'[j] == b[j]
    {
      assert d[j] != d[i];
      Bucket2Other(s, k1, k2, x, j);
    }
    HavingSnoc(s, k1, x, a);
    Add1Correct(Having(s, k1, a), k2, x);
    assert b'[i] == (a, Add1(b[i].1, k2(x), x));
  }

  lemma {:induction false} Add2Correct<T, K1, K2>(s: seq<T>, k1: T -> K1, k2: T -> K2, x: T)
    ensures Bucket2(s + [x], k1, k2) == Add2(Bucket2(s, k1, k2), k1(x), k2(x), x)
  {
    var i := FindKey(Bucket2(s, k1, k2), k1(x));
    if i < 0 {
      Add2New(s, k1, k2, x);
    } else {
      Add2Existing(s, k1, k2, x, i);
    }
  }

  // ------------------------------------------------------------- facts used by the views

  /** The nested grouping loop's result: `Add2` applied element by element. */
  function Fold2<T, K1(==), K2(==)>(s: seq<T>, k1: T -> K1, k2: T -> K2): seq<(K1, seq<(K2, seq<T>)>)> {
    if s == [] then [] else
      var x := s[|s| - 1];
      Add2(Fold2(s[..|s| - 1], k1, k2), k1(x), k2(x), x)
  }

  lemma Fold2Snoc<T, K1, K2>(s: seq<T>, i: nat, k1: T -> K1, k2: T -> K2)
    requires i < |s|
    ensures Fold2(s[..i + 1], k1, k2) == Add2(Fold2(s[..i], k1, k2), k1(s[i]), k2(s[i]), s[i])
  {
    assert s[..i + 1][..i] == s[..i];
  }

  /** Element by element, the loop builds the first-occurrence grouping. */
  lemma {:induction false} Fold2IsBucket2<T, K1, K2>(s: seq<T>, k1: T -> K1, k2: T -> K2)
    ensures Fold2(s, k1, k2) == Bucket2(s, k1, k2)
  {
    if s != [] {
      var p, x := s[..|s| - 1], s[|s| - 1];
      LastSplit(s);
      Fold2IsBucket2(p, k1, k2);
      Add2Correct(p, k1, k2, x);
    }
  }

  /** `FindKey` only looks at keys, so two bucket lists with the same keys agree on it. */
  lemma {:induction false} FindKeySameKeys<K, V, W>(b: seq<(K, V)>, c: seq<(K, W)>, k: K)
    requires |b| == |c| && forall i :: 0 <= i < |b| ==> b[i].0 == c[i].0
    ensures FindKey(b, k) == FindKey(c, k)
  {
    if b != [] && b[0].0 != k {
      FindKeySameKeys(b[1..], c[1..], k);
    }
  }

  lemma DistinctInKeys<T, K>(s: seq<T>, key: T -> K, i: nat)
    requires i < |Distinct(Keys(s, key))|
    ensures Distinct(Keys(s, key))[i] in Keys(s, key)
  {
    var d := Distinct(Keys(s, key));
    DistinctMembers(Keys(s, key));
    assert d[i] in d;
  }

  /** No bucket is empty. */
  lemma Bucket1NonEmpty<T, K>(s: seq<T>, key: T -> K)
    ensures forall i :: 0 <= i < |Bucket1(s, key)| ==> Bucket1(s, key)[i].1 != []
  {
    var b := Bucket1(s, key);
    forall i | 0 <= i < |b| ensures b[i].1 != [] {
      DistinctInKeys(s, key, i);
      HavingNonEmpty(s, key, b[i].0);
    }
  }

  lemma Bucket2NonEmpty<T, K1, K2>(s: seq<T>, k1: T -> K1, k2: T -> K2)
    ensures forall i, j :: 0 <= i < |Bucket2(s, k1, k2)| && 0 <= j < |Bucket2(s, k1, k2)[i].1| ==>
      Bucket2(s, k1, k2)[i].1[j].1 != []
  {
    var b := Bucket2(s, k1, k2);
    forall i, j | 0 <= i < |b| && 0 <= j < |b[i].1| ensures b[i].1[j].1 != [] {
      Bucket1NonEmpty(Having(s, k1, b[i].0), k2);
    }
  }

  /** The sum of `f` over the elements. */
  function SumOf<T>(s: seq<T>, f: T -> real): real {
    if s == [] then 0.0 else SumOf(s[..|s| - 1], f) + f(s[|s| - 1])
  }

  /** The sum of `f` over all buckets. */
  function BucketSums<K, T>(b: seq<(K, seq<T>)>, f: T -> real): real {
    if b == [] then 0.0 else BucketSums(b[..|b| - 1], f) + SumOf(b[|b| - 1].1, f)
  }

  lemma {:induction false} SumOfSnoc<T>(s: seq<T>, x: T, f: T -> real)
    ensures SumOf(s + [x], f) == SumOf(s, f) + f(x)
  {
    assert (s + [x])[..|s|] == s;
  }

  lemma {:induction false} BucketSumsAppend<K, T>(b: seq<(K, seq<T>)>, c: seq<(K, seq<T>)>, f: T -> real)
    ensures BucketSums(b + c, f) == BucketSums(b, f) + BucketSums(c, f)
    decreases |c|
  {
    if c == [] {
      assert b + c == b;
    } else {
      assert (b + c)[..|b + c| - 1] == b + c[..|c| - 1];
      BucketSumsAppend(b, c[..|c| - 1], f);
    }
  }

  lemma {:induction false} BucketSumsAdd1<K, T>(b: seq<(K, seq<T>)>, k: K, x: T, f: T -> real)
    ensures BucketSums(Add1(b, k, x), f) == BucketSums(b, f) + f(x)
  {
    var i := FindKey(b, k);
    if i < 0 {
      BucketSumsAppend(b, [(k, [x])], f);
      assert [(k, [x])][..0] == [];
      assert [x] == [] + [x];
      SumOfSnoc([], x, f);
    } else {
      BucketSumsUpdate(b, i, (k, b[i].1 + [x]), f);
      SumOfSnoc(b[i].1, x, f);
    }
  }

  lemma BucketSumsSingle<K, T>(e: (K, seq<T>), f: T -> real)
    ensures BucketSums([e], f) == SumOf(e.1, f)
  {
    assert [e][..0] == [];
  }

  lemma BucketSumsUpdate<K, T>(b: seq<(K, seq<T>)>, i: nat, e: (K, seq<T>), f: T -> real)
    requires i < |b|
    ensures BucketSums(b[i := e], f) == BucketSums(b, f) - SumOf(b[i].1, f) + SumOf(e.1, f)
  {
    SplitAt(b, i, e);
    BucketSumsAppend(b[..i] + [b[i]], b[i + 1..], f);
    BucketSumsAppend(b[..i], [b[i]], f);
    BucketSumsAppend(b[..i] + [e], b[i + 1..], f);
    BucketSumsAppend(b[..i], [e], f);
    BucketSumsSingle(b[i], f);
    BucketSumsSingle(e, f);
  }

  /** Grouping keeps sums: summing `f` bucket by bucket gives the sum over the input. */
  lemma {:induction false} Bucket1Sum<T, K>(s: seq<T>, key: T -> K, f: T -> real)
    ensures BucketSums(Bucket1(s, key), f) == SumOf(s, f)
  {
    if s != [] {
      var p, x := s[..|s| - 1], s[|s| - 1];
      LastSplit(s);
      Bucket1Sum(p, key, f);
      Add1Correct(p, key, x);
      BucketSumsAdd1(Bucket1(p, key), key(x), x, f);
    }
  }

  /** The outer level of `Bucket2` is `Bucket1` by the outer key. */
  lemma Bucket2Outer<T, K1, K2>(s: seq<T>, k1: T -> K1, k2: T -> K2)
    ensures |Bucket2(s, k1, k2)| == |Bucket1(s, k1)|
    ensures forall i :: 0 <= i < |Bucket1(s, k1)| ==>
      Bucket2(s, k1, k2)[i].0 == Bucket1(s, k1)[i].0 &&
      Bucket2(s, k1, k2)[i].1 == Bucket1(Bucket1(s, k1)[i].1, k2)
  {
  }

  // ------------------------------------------------------------- distinct keys

  lemma {:induction false} KeysAppend<T, K>(s: seq<T>, t: seq<T>, key: T -> K)
    ensures Keys(s + t, key) == Keys(s, key) + Keys(t, key)
  {
    var l, r := Keys(s + t, key), Keys(s, key) + Keys(t, key);
    forall i | 0 <= i < |l| ensures l[i] == r[i] {
      if i < |s| {
        assert (s + t)[i] == s[i];
      } else {
        assert (s + t)[i] == t[i - |s|];
      }
    }
  }

  /** Two duplicate-free lists with no common element concatenate to one. */
  lemma NoDupAppend<K>(a: seq<K>, b: seq<K>)
    requires NoDup(a) && NoDup(b)
    requires forall i, j :: 0 <= i < |a| && 0 <= j < |b| ==> a[i] != b[j]
    ensures NoDup(a + b)
  {
    var c := a + b;
    forall i, j | 0 <= i < j < |c| ensures c[i] != c[j] {
      if j < |a| {
        assert c[i] == a[i] && c[j] == a[j];
      } else if i >= |a| {
        assert c[i] == b[i - |a|] && c[j] == b[j - |a|];
      } else {
        assert c[i] == a[i] && c[j] == b[j - |a|];
      }
    }
  }

  /** Without duplicates, `Distinct` changes nothing. */
  lemma {:induction false} DistinctOfNoDup<K>(ks: seq<K>)
    requires NoDup(ks)
    ensures Distinct(ks) == ks
  {
    if ks != [] {
      var p := ks[..|ks| - 1];
      assert NoDup(p) by {
        forall i, j | 0 <= i < j < |p| ensures p[i] != p[j] { assert p[i] == ks[i] && p[j] == ks[j]; }
      }
      DistinctOfNoDup(p);
      assert ks[|ks| - 1] !in p;
      assert p + [ks[|ks| - 1]] == ks;
    }
  }

  /** Without duplicate keys, every element is alone with its key. */
  lemma {:induction false} HavingOfNoDup<T, K>(s: seq<T>, key: T -> K, i: nat)
    requires NoDup(Keys(s, key)) && i < |s|
    ensures Having(s, key, key(s[i])) == [s[i]]
  {
    var p, x := s[..|s| - 1], s[|s| - 1];
    var k := key(s[i]);
    KeysSnoc(p, key, x);
    LastSplit(s);
    var kp := Keys(p, key);
    assert NoDup(kp) by {
      forall a, b | 0 <= a < b < |kp| ensures kp[a] != kp[b] {
        assert kp[a] == Keys(s, key)[a] && kp[b] == Keys(s, key)[b];
      }
    }
    if i == |s| - 1 {
      assert k !in kp by {
        forall a | 0 <= a < |kp| ensures kp[a] != k { assert Keys(s, key)[a] != Keys(s, key)[i]; }
      }
      HavingNonEmpty(p, key, k);
    } else {
      assert p[i] == s[i];
      HavingOfNoDup(p, key, i);
      assert Keys(s, key)[i] != Keys(s, key)[|s| - 1];
    }
  }
}
