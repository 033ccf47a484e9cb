// What the actor clusters of one topic hold, defined mention by mention,
// and the proof that the cluster step of the aggregator builds exactly that.

module ActorClusters {
  import opened Wrappers
  import opened Types
  import opened Grouping
  import opened EmotionTopicActor

  /** One group entry of a sentence that the cluster step does not skip: its
      label (never empty), its raw role, and the id and pathos of the sentence. */
  datatype Mention = Mention(name: string, role: Option<string>, sid: string, pathos: real)

  predicate Labelled(ms: seq<Mention>) {
    forall k :: 0 <= k < |ms| ==> ms[k].name != ""
  }

  /** The entries of one sentence's group list that carry a non-empty label, in order. */
  function RefMentions(refs: seq<Option<GroupRef>>, sid: string, pathos: real): (r: seq<Mention>)
    ensures Labelled(r)
  {
    if refs == [] then []
    else
      var g := refs[|refs| - 1];
      RefMentions(refs[..|refs| - 1], sid, pathos) +
        (if g.None? || !Truthy(g.value.name) then [] else [Mention(g.value.name.value, g.value.role, sid, pathos)])
  }

  /** The mentions of the sentences `h`, sentence by sentence. */
  function Mentions(h: seq<Sentence>): (r: seq<Mention>)
    ensures Labelled(r)
  {
    if h == [] then []
    else var x := h[|h| - 1]; Mentions(h[..|h| - 1]) + RefMentions(GroupRefs(x), x.id, PathosOf(x))
  }

  /** The role a cluster opened by `m` stores: its role, or "Akteur" when that is missing or empty. */
  function Stored(m: Mention): (r: string)
    ensures r != ""
  {
    OrElse(m.role, "Akteur")
  }

  // ------------------------------------------------------------------ the declarative clusters

  /** The first mention with label `l` whose cluster would store role `s`, or -1. */
  function FirstPair(ms: seq<Mention>, l: string, s: string): (r: int)
    ensures -1 <= r < |ms|
    ensures r >= 0 ==> ms[r].name == l && Stored(ms[r]) == s
    ensures r >= 0 ==> forall i :: 0 <= i < r ==> !(ms[i].name == l && Stored(ms[i]) == s)
    ensures r == -1 ==> forall i :: 0 <= i < |ms| ==> !(ms[i].name == l && Stored(ms[i]) == s)
  {
    if ms == [] then -1
    else if ms[0].name == l && Stored(ms[0]) == s then 0
    else var r := FirstPair(ms[1..], l, s); if r == -1 then -1 else r + 1
  }

  /** The mention whose cluster mention `j` joins: itself when its role is
      missing or empty, otherwise the first mention with the same label and
      the same stored role. */
  function Owner(ms: seq<Mention>, j: nat): (r: nat)
    requires j < |ms|
    ensures r <= j
    ensures ms[r].name == ms[j].name && Stored(ms[r]) == Stored(ms[j])
  {
    if !Truthy(ms[j].role) then j else FirstPair(ms, ms[j].name, Stored(ms[j]))
  }

  /** The mentions below `n` that open a cluster, in order. */
  function Openers(ms: seq<Mention>, n: nat): (r: seq<nat>)
    requires n <= |ms|
    ensures forall k :: 0 <= k < |r| ==> r[k] < n && Owner(ms, r[k]) == r[k]
    ensures forall o :: 0 <= o < n && Owner(ms, o) == o ==> o in r
    ensures forall a, b :: 0 <= a < b < |r| ==> r[a] < r[b]
  {
    if n == 0 then [] else Openers(ms, n - 1) + (if Owner(ms, n - 1) == n - 1 then [n - 1] else [])
  }

  /** The sentence ids of the mentions below `n` that join the cluster of `o`, in order. */
  function Members(ms: seq<Mention>, o: nat, n: nat): seq<string>
    requires n <= |ms|
  {
    if n == 0 then [] else Members(ms, o, n - 1) + (if Owner(ms, n - 1) == o then [ms[n - 1].sid] else [])
  }

  /** The summed pathos of the mentions below `n` that join the cluster of `o`. */
  function MemberPathos(ms: seq<Mention>, o: nat, n: nat): real
    requires n <= |ms|
  {
    if n == 0 then 0.0 else MemberPathos(ms, o, n - 1) + (if Owner(ms, n - 1) == o then ms[n - 1].pathos else 0.0)
  }

  /** The cluster opened by `o` once the mentions below `n` are seen (pathos still summed). */
  function Cluster(ms: seq<Mention>, o: nat, n: nat): GroupRoleAggregate
    requires o < |ms| && n <= |ms|
  {
    GroupRoleAggregate(ms[o].name, Stored(ms[o]), Members(ms, o, n), MemberPathos(ms, o, n))
  }

  function ClustersUpTo(ms: seq<Mention>, n: nat): (r: seq<GroupRoleAggregate>)
    requires n <= |ms|
    ensures |r| == |Openers(ms, n)|
    ensures forall k :: 0 <= k < |r| ==> r[k] == Cluster(ms, Openers(ms, n)[k], n)
  {
    var os := Openers(ms, n);
    seq(|os|, k requires 0 <= k < |os| => Cluster(ms, os[k], n))
  }

  // ------------------------------------------------------------------ the cluster step over mentions

  /** The cluster step for one mention. */
  function AddMention(gs: seq<GroupRoleAggregate>, m: Mention): seq<GroupRoleAggregate> {
    AddGroup(gs, Some(GroupRef(Some(m.name), m.role)), m.sid, m.pathos)
  }

  function AddMentions(gs: seq<GroupRoleAggregate>, ms: seq<Mention>): seq<GroupRoleAggregate> {
    if ms == [] then gs else AddMention(AddMentions(gs, ms[..|ms| - 1]), ms[|ms| - 1])
  }

  lemma {:induction false} AddMentionsAppend(gs: seq<GroupRoleAggregate>, a: seq<Mention>, b: seq<Mention>)
    ensures AddMentions(gs, a + b) == AddMentions(AddMentions(gs, a), b)
  {
    if b == [] {
      assert a + b == a;
    } else {
      var p := b[..|b| - 1];
      assert (a + b)[..|a + b| - 1] == a + p;
      assert (a + b)[|a + b| - 1] == b[|b| - 1];
      AddMentionsAppend(gs, a, p);
    }
  }

  /** The group step over one sentence's entries is the mention step over its mentions. */
  lemma {:induction false} AddGroupsAsMentions(gs: seq<GroupRoleAggregate>, refs: seq<Option<GroupRef>>, sid: string, pathos: real)
    ensures AddGroups(gs, refs, sid, pathos) == AddMentions(gs, RefMentions(refs, sid, pathos))
  {
    if refs != [] {
      var p, g := refs[..|refs| - 1], refs[|refs| - 1];
      AddGroupsAsMentions(gs, p, sid, pathos);
      var q := AddMentions(gs, RefMentions(p, sid, pathos));
      if g.None? || !Truthy(g.value.name) {
        assert RefMentions(refs, sid, pathos) == RefMentions(p, sid, pathos) + [];
        assert RefMentions(p, sid, pathos) + [] == RefMentions(p, sid, pathos);
        AddGroupSkips(AddGroups(gs, p, sid, pathos), g, sid, pathos);
      } else {
        var m := Mention(g.value.name.value, g.value.role, sid, pathos);
        assert RefMentions(refs, sid, pathos) == RefMentions(p, sid, pathos) + [m];
        AddMentionsAppend(gs, RefMentions(p, sid, pathos), [m]);
        assert [m][..0] == [];
        assert AddMentions(q, [m]) == AddMention(q, m);
        assert Some(GroupRef(Some(m.name), m.role)) == g;
      }
    }
  }

  /** A topic's clusters are the mention step over all its mentions. */
  lemma {:induction false} GroupsOfAsMentions(h: seq<Sentence>)
    ensures GroupsOf(h) == AddMentions([], Mentions(h))
  {
    if h != [] {
      var p, x := h[..|h| - 1], h[|h| - 1];
      GroupsOfAsMentions(p);
      AddGroupsAsMentions(GroupsOf(p), GroupRefs(x), x.id, PathosOf(x));
      AddMentionsAppend([], Mentions(p), RefMentions(GroupRefs(x), x.id, PathosOf(x)));
    }
  }

  // ------------------------------------------------------------------ the step builds the declarative clusters

  lemma {:induction false} MembersBeyond(ms: seq<Mention>, o: nat, n: nat)
    requires n <= |ms| && n <= o
    ensures Members(ms, o, n) == [] && MemberPathos(ms, o, n) == 0.0
  {
    if n > 0 {
      MembersBeyond(ms, o, n - 1);
    }
  }

  /** A mention that roots its own cluster is among that cluster's members. */
  lemma {:induction false} MembersHoldOpener(ms: seq<Mention>, o: nat, n: nat)
    requires o < n <= |ms| && Owner(ms, o) == o
    ensures Members(ms, o, n) != []
  {
    if n - 1 > o {
      MembersHoldOpener(ms, o, n - 1);
    }
  }

  /** A mention that opens a cluster matches no earlier cluster. */
  lemma {:induction false} OpenerAppends(ms: seq<Mention>, n: nat)
    requires n < |ms| && Owner(ms, n) == n
    ensures FindGroup(ClustersUpTo(ms, n), ms[n].name, ms[n].role) == -1
  {
    var g := ClustersUpTo(ms, n);
    var os := Openers(ms, n);
    var m := ms[n];
    forall k | 0 <= k < |g|
      ensures !(g[k].groupLabel == m.name && m.role == Some(g[k].role))
    {
      var o := os[k];
      assert g[k] == Cluster(ms, o, n);
      if Truthy(m.role) {
        assert FirstPair(ms, m.name, Stored(m)) == n;
        assert Stored(m) == m.role.value;
      }
    }
  }

  /** A mention that joins an earlier cluster finds the cluster of its owner. */
  lemma {:induction false} JoinerFinds(ms: seq<Mention>, n: nat, kf: nat)
    requires n < |ms| && kf < |Openers(ms, n)| && Openers(ms, n)[kf] == Owner(ms, n) < n
    ensures FindGroup(ClustersUpTo(ms, n), ms[n].name, ms[n].role) == kf
  {
    var g := ClustersUpTo(ms, n);
    var os := Openers(ms, n);
    var m := ms[n];
    var w := Owner(ms, n);
    assert Truthy(m.role) && w == FirstPair(ms, m.name, Stored(m)) && Stored(m) == m.role.value;
    assert g[kf] == Cluster(ms, w, n);
    forall k | 0 <= k < kf
      ensures !(g[k].groupLabel == m.name && m.role == Some(g[k].role))
    {
      assert g[k] == Cluster(ms, os[k], n);
      assert os[k] < w;
    }
  }

  /** One more mention grows the cluster it joins and leaves every other cluster as it was. */
  lemma ClusterGrows(ms: seq<Mention>, o: nat, n: nat)
    requires o < |ms| && n < |ms|
    ensures var g := Cluster(ms, o, n);
      Cluster(ms, o, n + 1) ==
        if Owner(ms, n) == o then g.(sentenceIds := g.sentenceIds + [ms[n].sid], avgPathos := g.avgPathos + ms[n].pathos)
        else g
  {
  }

  /** An opening mention adds its cluster after the others. */
  lemma {:induction false} OpenStepClusters(ms: seq<Mention>, n: nat)
    requires n < |ms| && Owner(ms, n) == n
    ensures ClustersUpTo(ms, n + 1) == ClustersUpTo(ms, n) + [Cluster(ms, n, n + 1)]
  {
    var g, g' := ClustersUpTo(ms, n), ClustersUpTo(ms, n + 1);
    var os, os' := Openers(ms, n), Openers(ms, n + 1);
    assert os' == os + [n];
    forall k | 0 <= k < |g| ensures g'[k] == g[k] {
      assert os'[k] == os[k] < n;
      ClusterGrows(ms, os[k], n);
    }
    SnocExt(g', g, Cluster(ms, n, n + 1));
  }

  lemma {:induction false} OpenStepAdds(ms: seq<Mention>, n: nat)
    requires Labelled(ms) && n < |ms| && Owner(ms, n) == n
    ensures AddMention(ClustersUpTo(ms, n), ms[n]) == ClustersUpTo(ms, n) + [Cluster(ms, n, n + 1)]
  {
    var m := ms[n];
    var g := ClustersUpTo(ms, n);
    var r := Some(GroupRef(Some(m.name), m.role));
    var c := GroupRoleAggregate(m.name, OrElse(m.role, "Akteur"), [m.sid], m.pathos);
    assert m.name != "" && Truthy(r.value.name) && r.value.name.value == m.name;
    OpenerAppends(ms, n);
    assert AddGroup(g, r, m.sid, m.pathos) == g + [c];
    MembersBeyond(ms, n, n);
    assert Members(ms, n, n + 1) == [] + [m.sid] == [m.sid];
    assert MemberPathos(ms, n, n + 1) == 0.0 + m.pathos == m.pathos;
    assert Cluster(ms, n, n + 1) == c;
  }

  /** A joining mention grows the cluster of its owner, at position `kf`. */
  lemma {:induction false} JoinStepClusters(ms: seq<Mention>, n: nat, kf: nat)
    requires n < |ms| && kf < |Openers(ms, n)| && Openers(ms, n)[kf] == Owner(ms, n) < n
    ensures ClustersUpTo(ms, n + 1) == ClustersUpTo(ms, n)[kf := Cluster(ms, Owner(ms, n), n + 1)]
  {
    var g, g' := ClustersUpTo(ms, n), ClustersUpTo(ms, n + 1);
    var os, os' := Openers(ms, n), Openers(ms, n + 1);
    assert os' == os + [];
    forall k | 0 <= k < |g| && k != kf ensures g'[k] == g[k] {
      assert os[k] != os[kf];
      ClusterGrows(ms, os[k], n);
    }
    UpdateExt(g', g, kf, Cluster(ms, Owner(ms, n), n + 1));
  }

  lemma {:induction false} JoinStepAdds(ms: seq<Mention>, n: nat, kf: nat)
    requires Labelled(ms) && n < |ms| && kf < |Openers(ms, n)| && Openers(ms, n)[kf] == Owner(ms, n) < n
    ensures AddMention(ClustersUpTo(ms, n), ms[n]) == ClustersUpTo(ms, n)[kf := Cluster(ms, Owner(ms, n), n + 1)]
  {
    var m := ms[n];
    assert m.name != "";
    JoinerFinds(ms, n, kf);
    ClusterGrows(ms, Owner(ms, n), n);
    assert ClustersUpTo(ms, n)[kf] == Cluster(ms, Owner(ms, n), n);
  }

  /** Taking one more mention into account is one step of the cluster loop. */
  lemma {:induction false} ClustersStep(ms: seq<Mention>, n: nat)
    requires Labelled(ms) && n < |ms|
    ensures ClustersUpTo(ms, n + 1) == AddMention(ClustersUpTo(ms, n), ms[n])
  {
    var w := Owner(ms, n);
    if w == n {
      OpenStepClusters(ms, n);
      OpenStepAdds(ms, n);
    } else {
      assert Owner(ms, w) == w;
      var os := Openers(ms, n);
      assert w in os;
      var kf :| 0 <= kf < |os| && os[kf] == w;
      JoinStepClusters(ms, n, kf);
      JoinStepAdds(ms, n, kf);
    }
  }

  lemma {:induction false} ClustersPrefix(ms: seq<Mention>, n: nat)
    requires Labelled(ms) && n <= |ms|
    ensures AddMentions([], ms[..n]) == ClustersUpTo(ms, n)
  {
    if n > 0 {
      ClustersPrefix(ms, n - 1);
      assert ms[..n][..n - 1] == ms[..n - 1];
      ClustersStep(ms, n - 1);
    }
  }

  /** The clusters the aggregator builds from the sentences `h` of one topic
      are the declarative clusters of their mentions. */
  lemma {:induction false} GroupsOfClusters(h: seq<Sentence>)
    ensures GroupsOf(h) == ClustersUpTo(Mentions(h), |Mentions(h)|)
  {
    var ms := Mentions(h);
    GroupsOfAsMentions(h);
    ClustersPrefix(ms, |ms|);
    assert ms[..|ms|] == ms;
  }

  /** Every mention joins exactly one cluster, that of its owner, which is
      among the clusters; a mention without a usable role always opens its own. */
  lemma {:induction false} EveryMentionClustered(ms: seq<Mention>, j: nat)
    requires j < |ms|
    ensures Owner(ms, j) in Openers(ms, |ms|)
    ensures !Truthy(ms[j].role) ==> Owner(ms, j) == j
  {
    var w := Owner(ms, j);
    if Truthy(ms[w].role) {
      assert Stored(ms[w]) == Stored(ms[j]) && Truthy(ms[j].role);
    }
    assert Owner(ms, w) == w;
  }

  /** The clusters of a topic, one per opening mention in mention order: the
      opener's label and stored role, the ids of the mentions that joined it
      (never none, in mention order), and as `avgPathos` their summed pathos
      divided by their number. */
  lemma {:induction false} TopicClusterContents(ss: seq<Option<Sentence>>, i: nat, j: nat)
    requires i < |Aggregates(Some(ss))| && j < |Aggregates(Some(ss))[i].topics|
    ensures var a := Aggregates(Some(ss))[i];
      var t := a.topics[j];
      var ms := Mentions(OfTopic(Kept(ss), a.emotion, t.id));
      var os := Openers(ms, |ms|);
      |t.groups| == |os| &&
      forall k :: 0 <= k < |os| ==>
        t.groups[k].groupLabel == ms[os[k]].name &&
        t.groups[k].role == Stored(ms[os[k]]) &&
        t.groups[k].sentenceIds == Members(ms, os[k], |ms|) &&
        Members(ms, os[k], |ms|) != [] &&
        t.groups[k].avgPathos == MemberPathos(ms, os[k], |ms|) / (|Members(ms, os[k], |ms|)| as real)
  {
    var a := Aggregates(Some(ss))[i];
    var b := Bucket2(Kept(ss), LabelKey, TopicId);
    AggregateAt(ss, i);
    var c := b[i].1;
    var tk := c[j].0;
    var h := c[j].1;
    var he := OfEmotion(Kept(ss), b[i].0);
    assert h == Having(he, TopicId, tk);
    assert a.topics[j] == MeanTopic(TopicOf(h));
    Bucket2NonEmpty(Kept(ss), LabelKey, TopicId);
    TopicIdOfBucket(he, tk);
    MeanTopicOf(h);
    assert h == OfTopic(Kept(ss), a.emotion, a.topics[j].id);
    GroupsOfClusters(h);
    var ms := Mentions(h);
    var os := Openers(ms, |ms|);
    var gs := ClustersUpTo(ms, |ms|);
    forall k | 0 <= k < |os|
      ensures Members(ms, os[k], |ms|) != [] && a.topics[j].groups[k] == MeanGroup(Cluster(ms, os[k], |ms|))
    {
      MembersHoldOpener(ms, os[k], |ms|);
      assert gs[k] == Cluster(ms, os[k], |ms|);
    }
  }
}
