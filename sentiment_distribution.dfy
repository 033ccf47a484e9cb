/** The figures of components/SentimentDistribution.tsx: sentences counted
    per emotion key, the emotional and neutral totals and their percentages,
    the emotions ordered by count for the bar and the list, their colours,
    and the badge of the emotionalisation level. Rounding for display and the
    markup are not modelled. */
module SentimentDistribution {
  import opened Wrappers
  import opened JsText
  import opened Types
  import opened Grouping
  import opened StableSort
  import CircumplexPlot

  /** Emotion keys with their number of sentences, in first-occurrence order. */
  type Counts = seq<(string, nat)>

  // ------------------------------------------------------------------ counting

  /** The per-key sizes of a grouping. */
  function CountsOf<T>(b: seq<(string, seq<T>)>): Counts {
    seq(|b|, i requires 0 <= i < |b| => (b[i].0, |b[i].1|))
  }

  /** `emotionCounts`: the same key as the circumplex plot (label lower-cased,
      then trimmed), counted in first-occurrence order. */
  function EmotionCounts(ss: seq<Sentence>): Counts {
    CountsOf(Bucket1(ss, CircumplexPlot.EmotionKey))
  }

  /** One step of the `reduce`: add one to the key's count, creating it at 1. */
  function Increment(acc: Counts, em: string): Counts {
    var i := FindKey(acc, em);
    if i < 0 then acc + [(em, 1)] else acc[i := (em, acc[i].1 + 1)]
  }

  /** The `reduce` over the sentences; None when a sentence has no label and the reduction throws. */
  method CountEmotions(sentences: seq<Sentence>) returns (r: Option<Counts>)
    ensures CircumplexPlot.AllLabelled(sentences) ==> r == Some(EmotionCounts(sentences))
    ensures !CircumplexPlot.AllLabelled(sentences) ==> r == None
  {
    var acc: Counts := [];
    var i := 0;
    while i < |sentences|
      invariant i <= |sentences|
      invariant CircumplexPlot.AllLabelled(sentences[..i])
      invariant acc == EmotionCounts(sentences[..i])
    {
      var s := sentences[i];
      if !Labelled(s) {
        return None;
      }
      CircumplexPlot.LabelledSnoc(sentences, i);
      PrefixSnoc(sentences, i);
      CountsStep(sentences[..i], CircumplexPlot.EmotionKey, s);
      acc := Increment(acc, CircumplexPlot.EmotionKey(s));
      i := i + 1;
    }
    WholePrefix(sentences, i);
    r := Some(acc);
  }

  /** The filter's test: the label lower-cased but NOT trimmed differs from
      "neutral" (only read for labelled sentences). */
  predicate IsEmotional(s: Sentence) {
    !Labelled(s) || ToLower(LabelOf(s)) != "neutral"
  }

  /** The number of sentences that pass the filter's test. */
  function EmotionalCount(ss: seq<Sentence>): nat {
    if ss == [] then 0 else EmotionalCount(ss[..|ss| - 1]) + (if IsEmotional(ss[|ss| - 1]) then 1 else 0)
  }

  /** `totalSentences - emotionalCount` */
  function NeutralCount(ss: seq<Sentence>): int {
    |ss| - EmotionalCount(ss)
  }

  /** `emotionalPercentage` and `neutralPercentage`, in exact arithmetic. */
  function Percent(part: int, total: nat): real
    requires total > 0
  {
    (part as real) / (total as real) * 100.0
  }

  /** The entry count, for the comparator `b[1] - a[1]`. */
  function EntryCount(e: (string, nat)): int {
    e.1
  }

  function EntryKey(e: (string, nat)): string {
    e.0
  }

  /** `sortedEmotions` */
  function SortedEmotions(c: Counts): Counts {
    SortByCountDesc(c, EntryCount)
  }

  /** The bar segment widths, added up. */
  function WidthSum(c: Counts, total: nat): real
    requires total > 0
  {
    if c == [] then 0.0 else WidthSum(c[..|c| - 1], total) + Percent(c[|c| - 1].1, total)
  }

  // ------------------------------------------------------------------ colours and badge

  const DEFAULT_COLOR := "#B8B6B6"

  const EMOTION_COLORS: map<string, string> := map[
    "wut" := "#C3443D",
    "angst" := "#4C94F6",
    "freude" := "#FFF44F",
    "ekel" := "#FF9F43",
    "trauer" := "#222222",
    "überraschung" := "#3BD39B",
    "neutral" := "#B8B6B6",
    "schuld" := "#020404",
    "scham" := "#535050",
    "empörung" := "#C3443D",
    "verzweiflung" := "#8A8787",
    "bewunderung" := "#B8B6B6",
    "default" := DEFAULT_COLOR]

  /** The colour of an emotion key, or the default colour. */
  function ColorOf(emotion: string): string {
    if emotion in EMOTION_COLORS then EMOTION_COLORS[emotion] else DEFAULT_COLOR
  }

  datatype BadgeStyle = High | Medium | Unknown

  const UNKNOWN_LEVEL := "unbekannt"

  /** The level badge: its style and its text. */
  function Badge(level: Option<string>): (BadgeStyle, string) {
    var style := if level == Some("hoch") then High else if level == Some("mittel") then Medium else Unknown;
    (style, OrElse(level, UNKNOWN_LEVEL))
  }

  // ------------------------------------------------------------------ the component

  datatype Figures = Figures(
    total: nat,
    counts: Counts,
    emotional: nat,
    neutral: int,
    sorted: Counts)

  /** What the component renders: nothing, the figures, or a throw on an unlabelled sentence. */
  datatype Rendering = Nothing | Crash | Shown(figures: Figures)

  function Render(ss: seq<Sentence>): Rendering {
    if |ss| == 0 then Nothing
    else if !CircumplexPlot.AllLabelled(ss) then Crash
    else
      var counts := EmotionCounts(ss);
      Shown(Figures(|ss|, counts, EmotionalCount(ss), NeutralCount(ss), SortedEmotions(counts)))
  }

  /** The component body up to the markup. */
  method RenderFigures(sentences: seq<Sentence>) returns (r: Rendering)
    ensures r == Render(sentences)
  {
    var totalSentences := |sentences|;
    if totalSentences == 0 {
      return Nothing;
    }
    var counts := CountEmotions(sentences);
    if counts.None? {
      return Crash;
    }
    var emotionalCount := EmotionalCount(sentences);
    var neutralCount := totalSentences - emotionalCount;
    r := Shown(Figures(totalSentences, counts.value, emotionalCount, neutralCount, SortedEmotions(counts.value)));
    RenderShown(sentences);
  }

  // ------------------------------------------------------------------ helper facts

  lemma RenderShown(ss: seq<Sentence>)
    requires |ss| > 0 && CircumplexPlot.AllLabelled(ss)
    ensures Render(ss) == Shown(Figures(|ss|, EmotionCounts(ss), EmotionalCount(ss), NeutralCount(ss), SortedEmotions(EmotionCounts(ss))))
  {
  }

  /** One step of the `reduce`, for any key. */
  lemma CountsStep<T>(p: seq<T>, key: T -> string, x: T)
    ensures CountsOf(Bucket1(p + [x], key)) == Increment(CountsOf(Bucket1(p, key)), key(x))
  {
    Add1Correct(p, key, x);
    IncrementOfAdd1(Bucket1(p, key), key(x), x);
  }

  lemma IncrementOfAdd1<T>(b: seq<(string, seq<T>)>, k: string, x: T)
    ensures CountsOf(Add1(b, k, x)) == Increment(CountsOf(b), k)
  {
    FindKeySameKeys(b, CountsOf(b), k);
    var i := FindKey(b, k);
    if i < 0 {
      assert CountsOf(b + [(k, [x])]) == CountsOf(b) + [(k, 1)];
    } else {
      assert CountsOf(b[i := (k, b[i].1 + [x])]) == CountsOf(b)[i := (k, CountsOf(b)[i].1 + 1)];
    }
  }

  lemma {:induction false} CountSumOfCounts<T>(b: seq<(string, seq<T>)>)
    ensures CountSum(CountsOf(b), EntryCount) == SumLens(b)
  {
    if b != [] {
      var p := b[..|b| - 1];
      assert CountsOf(b)[..|b| - 1] == CountsOf(p);
      CountSumOfCounts(p);
    }
  }

  lemma PercentAdd(a: int, b: int, total: nat)
    requires total > 0
    ensures Percent(a, total) + Percent(b, total) == Percent(a + b, total)
  {
    var t := total as real;
    assert (a as real) / t + (b as real) / t == ((a + b) as real) / t;
  }

  lemma PercentWhole(total: nat)
    requires total > 0
    ensures Percent(total, total) == 100.0
  {
    assert (total as real) / (total as real) == 1.0;
  }

  lemma {:induction false} WidthSumOfCounts(c: Counts, total: nat)
    requires total > 0
    ensures WidthSum(c, total) == Percent(CountSum(c, EntryCount), total)
  {
    if c != [] {
      var p := c[..|c| - 1];
      WidthSumOfCounts(p, total);
      PercentAdd(CountSum(p, EntryCount), c[|c| - 1].1, total);
    }
  }

  lemma PercentComplement(a: int, b: int, total: nat)
    requires total > 0 && a + b == total
    ensures Percent(a, total) + Percent(b, total) == 100.0
  {
    PercentAdd(a, b, total);
    PercentWhole(total);
  }

  lemma WidthSumWhole(c: Counts, total: nat)
    requires total > 0 && CountSum(c, EntryCount) == total
    ensures WidthSum(c, total) == 100.0
  {
    WidthSumOfCounts(c, total);
    PercentWhole(total);
  }

  /** A labelled sentence the filter keeps out is counted under "neutral". */
  lemma NeutralKey(x: Sentence)
    requires Labelled(x) && !IsEmotional(x)
    ensures CircumplexPlot.EmotionKey(x) == "neutral"
  {
    TrimStartOfUnspaced("neutral");
    TrimEndOfUnspaced("neutral");
  }

  lemma {:induction false} EmotionalAtMostTotal(ss: seq<Sentence>)
    ensures EmotionalCount(ss) <= |ss|
  {
    if ss != [] {
      EmotionalAtMostTotal(ss[..|ss| - 1]);
    }
  }

  lemma {:induction false} NeutralAtMostKeyed(ss: seq<Sentence>)
    ensures |ss| <= EmotionalCount(ss) + |Having(ss, CircumplexPlot.EmotionKey, "neutral")|
  {
    if ss != [] {
      var p, x := ss[..|ss| - 1], ss[|ss| - 1];
      LastSplit(ss);
      NeutralAtMostKeyed(p);
      HavingSnoc(p, CircumplexPlot.EmotionKey, x, "neutral");
      var hp := Having(p, CircumplexPlot.EmotionKey, "neutral");
      if !IsEmotional(x) {
        NeutralKey(x);
        assert Having(ss, CircumplexPlot.EmotionKey, "neutral") == hp + [x];
      }
    }
  }

  // ------------------------------------------------------------------ properties

  /** `emotionCounts` has each key once, exactly the keys of the sentences,
      and each value is the number of sentences of that key, at least one;
      the values add up to the number of sentences. */
  lemma EmotionCountsSpec(ss: seq<Sentence>)
    ensures var c := EmotionCounts(ss);
      NoDup(Keys(c, EntryKey)) &&
      (forall k :: k in Keys(c, EntryKey) <==> k in Keys(ss, CircumplexPlot.EmotionKey)) &&
      (forall i :: 0 <= i < |c| ==> c[i].1 == |Having(ss, CircumplexPlot.EmotionKey, c[i].0)| >= 1) &&
      CountSum(c, EntryCount) == |ss|
  {
    var b := Bucket1(ss, CircumplexPlot.EmotionKey);
    assert Keys(EmotionCounts(ss), EntryKey) == Distinct(Keys(ss, CircumplexPlot.EmotionKey));
    DistinctMembers(Keys(ss, CircumplexPlot.EmotionKey));
    Bucket1NonEmpty(ss, CircumplexPlot.EmotionKey);
    EmotionCountsTotal(ss);
  }

  lemma EmotionCountsTotal(ss: seq<Sentence>)
    ensures CountSum(EmotionCounts(ss), EntryCount) == |ss|
  {
    CountSumOfCounts(Bucket1(ss, CircumplexPlot.EmotionKey));
    Bucket1Total(ss, CircumplexPlot.EmotionKey);
  }

  /** Emotional and neutral counts are complementary and within [0, total];
      because the filter does not trim, the neutral count never exceeds the
      number of sentences counted under the key "neutral". */
  lemma EmotionalSpec(ss: seq<Sentence>)
    ensures 0 <= EmotionalCount(ss) <= |ss|
    ensures 0 <= NeutralCount(ss) <= |ss|
    ensures EmotionalCount(ss) + NeutralCount(ss) == |ss|
    ensures NeutralCount(ss) <= |Having(ss, CircumplexPlot.EmotionKey, "neutral")|
  {
    EmotionalAtMostTotal(ss);
    NeutralAtMostKeyed(ss);
  }

  /** A label " neutral" is counted under "neutral" but also as emotional. */
  lemma UntrimmedNeutral()
    ensures var s := Sentence("s1", "", Some(EmotionScore(Some(" neutral"), 0.0)), None, None, [], None);
      CircumplexPlot.EmotionKey(s) == "neutral" && IsEmotional(s) &&
      NeutralCount([s]) == 0 < |Having([s], CircumplexPlot.EmotionKey, "neutral")|
  {
    var s := Sentence("s1", "", Some(EmotionScore(Some(" neutral"), 0.0)), None, None, [], None);
    var raw := " neutral";
    assert ToLower(raw) == raw by {
      assert forall i :: 0 <= i < |raw| ==> LowerChar(raw[i]) == raw[i];
    }
    assert raw == " " + "neutral";
    TrimStartSkipsSpace(" ", "neutral");
    TrimEndOfUnspaced("neutral");
    assert CircumplexPlot.EmotionKey(s) == "neutral";
    assert raw != "neutral" by { assert raw[0] != "neutral"[0]; }
    assert [s][..0] == [];
    assert EmotionalCount([s]) == 1;
    assert Having([s], CircumplexPlot.EmotionKey, "neutral") == [s] by {
      HavingAll([s], CircumplexPlot.EmotionKey, "neutral");
    }
  }

  /** In exact arithmetic the two percentages add up to 100, and so do the bar widths. */
  lemma PercentSpec(ss: seq<Sentence>)
    requires |ss| > 0
    ensures Percent(EmotionalCount(ss), |ss|) + Percent(NeutralCount(ss), |ss|) == 100.0
    ensures WidthSum(SortedEmotions(EmotionCounts(ss)), |ss|) == 100.0
  {
    PercentComplement(EmotionalCount(ss), NeutralCount(ss), |ss|);
    var c := EmotionCounts(ss);
    EmotionCountsTotal(ss);
    CountSumSorted(c, EntryCount);
    WidthSumWhole(SortedEmotions(c), |ss|);
  }

  /** `sortedEmotions` is the entries of `emotionCounts` in non-increasing
      count order, each key once, and entries of equal count in insertion order. */
  lemma SortedEmotionsSpec(c: Counts)
    ensures NonIncreasing(SortedEmotions(c), EntryCount)
    ensures multiset(SortedEmotions(c)) == multiset(c)
    ensures forall n :: Having(SortedEmotions(c), EntryCount, n) == Having(c, EntryCount, n)
  {
    SortedByCount(c, EntryCount);
    forall n ensures Having(SortedEmotions(c), EntryCount, n) == Having(c, EntryCount, n) {
      SortStable(c, EntryCount, n);
    }
  }

  /** Sorting keeps the keys distinct. */
  lemma SortedKeysDistinct(c: Counts)
    requires NoDup(Keys(c, EntryKey))
    ensures NoDup(Keys(SortedEmotions(c), EntryKey))
  {
    var s := SortedEmotions(c);
    var ks := Keys(c, EntryKey);
    forall i, j | 0 <= i < j < |s| ensures s[i].0 != s[j].0 {
      DuplicateInPermutation(c, s, i, j);
      assert s[i] in multiset(c) && s[j] in multiset(c);
      var a :| 0 <= a < |c| && c[a] == s[i];
      var b :| 0 <= b < |c| && c[b] == s[j];
      assert a != b;
      assert ks[a] == c[a].0 && ks[b] == c[b].0;
    }
  }

  /** A list with distinct keys holds each entry at most once. */
  lemma {:induction false} AtMostOnce(c: Counts, x: (string, nat))
    requires NoDup(Keys(c, EntryKey))
    ensures multiset(c)[x] <= 1
  {
    if c != [] {
      var p := c[..|c| - 1];
      assert c == p + [c[|c| - 1]];
      assert Keys(p, EntryKey) == Keys(c, EntryKey)[..|c| - 1];
      AtMostOnce(p, x);
      forall a | 0 <= a < |p| ensures p[a] != c[|c| - 1] {
        assert Keys(c, EntryKey)[a] != Keys(c, EntryKey)[|c| - 1];
      }
    }
  }

  /** Two positions of a permutation of a list with distinct keys hold different entries. */
  lemma DuplicateInPermutation(c: Counts, s: Counts, i: nat, j: nat)
    requires multiset(s) == multiset(c) && i < j < |s|
    requires NoDup(Keys(c, EntryKey))
    ensures s[i] != s[j]
  {
    AtMostOnce(c, s[i]);
    assert s == s[..i] + [s[i]] + s[i + 1..j] + [s[j]] + s[j + 1..];
  }

  /** "hoch" and "mittel" have their own style, every other level the muted
      one; the text is the level, or "unbekannt" when it is absent or empty. */
  lemma BadgeSpec(level: Option<string>)
    ensures Badge(level).0 == High <==> level == Some("hoch")
    ensures Badge(level).0 == Medium <==> level == Some("mittel")
    ensures Badge(level).1 == (if Truthy(level) then level.value else UNKNOWN_LEVEL)
    ensures Badge(level).1 != ""
  {
  }

  /** No sentences render nothing; otherwise the figures are shown exactly
      when every sentence is labelled, and then their every part is the one
      the properties above describe. */
  lemma RenderSpec(ss: seq<Sentence>)
    ensures Render(ss) == Nothing <==> ss == []
    ensures Render(ss) == Crash <==> (ss != [] && exists i :: 0 <= i < |ss| && !Labelled(ss[i]))
    ensures Render(ss).Shown? ==> (
      var f := Render(ss).figures;
      f.total == |ss| > 0 && f.emotional + f.neutral == f.total &&
      CountSum(f.counts, EntryCount) == f.total && CountSum(f.sorted, EntryCount) == f.total &&
      NonIncreasing(f.sorted, EntryCount) &&
      NoDup(Keys(f.sorted, EntryKey)))
  {
    if Render(ss).Shown? {
      var c := EmotionCounts(ss);
      EmotionCountsSpec(ss);
      EmotionalSpec(ss);
      CountSumSorted(c, EntryCount);
      SortedByCount(c, EntryCount);
      SortedKeysDistinct(c);
    }
  }
}
