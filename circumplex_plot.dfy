/** The data part of components/CircumplexPlot.tsx: sentences grouped into
    one sphere per emotion and, inside it, one sector per topic; one node per
    sentence; spheres ordered by their number of nodes; and the node click
    that toggles the selected sentence. Angles, radii and coordinates are
    floating-point layout and are not modelled. */
module CircumplexPlot {
  import opened Wrappers
  import opened JsText
  import opened Types
  import opened Grouping
  import opened StableSort

  /** Sentences of one emotion, by topic, in first-occurrence order. */
  type TopicMap = seq<(string, seq<Sentence>)>

  /** Topic maps by emotion, in first-occurrence order. */
  type EmotionMap = seq<(string, TopicMap)>

  datatype TopicSector = TopicSector(name: string, count: nat)

  datatype SentenceNode = SentenceNode(id: string, data: Sentence, color: string)

  datatype Sphere = Sphere(emotion: string, topics: seq<TopicSector>, nodes: seq<SentenceNode>, color: string)

  // ------------------------------------------------------------------ keys

  /** Every sentence has the emotion label its type promises; the grouping
      reads the label unguarded and throws on a sentence without one. */
  predicate AllLabelled(ss: seq<Sentence>) {
    forall i :: 0 <= i < |ss| ==> Labelled(ss[i])
  }

  /** The emotion key: the label lower-cased, then trimmed (only read for labelled sentences). */
  function EmotionKey(s: Sentence): string {
    if Labelled(s) then Trim(ToLower(LabelOf(s))) else ""
  }

  const GENERAL_TOPIC := "Allgemein"

  /** The topic key: the first frame's name, or the general topic when there
      is no frame or its name is falsy, trimmed. */
  function TopicKey(s: Sentence): string {
    Trim(if |s.frames| > 0 then OrElse(s.frames[0].name, GENERAL_TOPIC) else GENERAL_TOPIC)
  }

  /** The key of a sphere's entry in the grouping. */
  function SphereKey(e: (string, TopicMap)): string {
    e.0
  }

  /** The key of a sector's entry in a topic map. */
  function SectorKey(t: (string, seq<Sentence>)): string {
    t.0
  }

  /** The grouping built by the first loop. */
  function Grouped(ss: seq<Sentence>): EmotionMap {
    Bucket2(ss, EmotionKey, TopicKey)
  }

  // ------------------------------------------------------------------ colours

  const DEFAULT_HEX := "#8A8787"

  const EMOTION_HEX: map<string, string> := map[
    "wut" := "#C3443D",
    "angst" := "#4C94F6",
    "freude" := "#FFF44F",
    "ekel" := "#FF9F43",
    "trauer" := "#222222",
    "überraschung" := "#3BD39B",
    "schuld" := "#020404",
    "scham" := "#535050",
    "neutral" := "#71717A",
    "default" := DEFAULT_HEX]

  /** The style's colour for a known emotion key, else the default colour. */
  function ColorOf(emotion: string): string {
    if emotion in EMOTION_HEX then EMOTION_HEX[emotion] else DEFAULT_HEX
  }

  // ------------------------------------------------------------------ spheres

  /** All sentences of a topic map, topic by topic. */
  function Flat(tm: TopicMap): seq<Sentence> {
    if tm == [] then [] else Flat(tm[..|tm| - 1]) + tm[|tm| - 1].1
  }

  /** One node per sentence, in order, all of colour `color`. */
  function Nodes(items: seq<Sentence>, color: string): seq<SentenceNode> {
    seq(|items|, i requires 0 <= i < |items| => SentenceNode(items[i].id, items[i], color))
  }

  /** One sector per topic, counting its sentences. */
  function TopicsOf(tm: TopicMap): seq<TopicSector> {
    if tm == [] then [] else TopicsOf(tm[..|tm| - 1]) + [TopicSector(tm[|tm| - 1].0, |tm[|tm| - 1].1|)]
  }

  function SphereOf(emotion: string, tm: TopicMap): Sphere {
    var color := ColorOf(emotion);
    Sphere(emotion, TopicsOf(tm), Nodes(Flat(tm), color), color)
  }

  function RawSpheres(g: EmotionMap): seq<Sphere> {
    seq(|g|, i requires 0 <= i < |g| => SphereOf(g[i].0, g[i].1))
  }

  /** The sort key: spheres are ordered by falling node count. */
  function NodeCount(sp: Sphere): int {
    |sp.nodes|
  }

  /** The value of the `emotionSpheres` memo, or None when the grouping throws. */
  function Spheres(ss: seq<Sentence>): Option<seq<Sphere>> {
    if AllLabelled(ss) then Some(SortByCountDesc(RawSpheres(Grouped(ss)), NodeCount)) else None
  }

  // ------------------------------------------------------------------ the loops

  /** The `forEach` that fills the nested maps, throwing (None) at the first
      sentence without a label. */
  method GroupSentences(sentences: seq<Sentence>) returns (r: Option<EmotionMap>)
    ensures AllLabelled(sentences) ==> r == Some(Grouped(sentences))
    ensures !AllLabelled(sentences) ==> r == None
  {
    var g: EmotionMap := [];
    var i := 0;
    while i < |sentences|
      invariant i <= |sentences|
      invariant AllLabelled(sentences[..i])
      invariant g == Fold2(sentences[..i], EmotionKey, TopicKey)
    {
      var s := sentences[i];
      if !Labelled(s) {
        return None;
      }
      LabelledSnoc(sentences, i);
      Fold2Snoc(sentences, i, EmotionKey, TopicKey);
      g := Add2(g, EmotionKey(s), TopicKey(s), s);
      i := i + 1;
    }
    WholePrefix(sentences, i);
    Fold2IsBucket2(sentences, EmotionKey, TopicKey);
    r := Some(g);
  }

  /** The body of the `map` over the raw spheres: sectors and nodes, topic by topic. */
  method BuildSphere(emotion: string, tm: TopicMap) returns (sp: Sphere)
    ensures sp == SphereOf(emotion, tm)
  {
    var color := ColorOf(emotion);
    var topics: seq<TopicSector> := [];
    var nodes: seq<SentenceNode> := [];
    var t := 0;
    while t < |tm|
      invariant t <= |tm|
      invariant topics == TopicsOf(tm[..t])
      invariant nodes == Nodes(Flat(tm[..t]), color)
    {
      var val := tm[t].1;
      topics := topics + [TopicSector(tm[t].0, |val|)];
      var i := 0;
      while i < |val|
        invariant i <= |val|
        invariant nodes == Nodes(Flat(tm[..t]) + val[..i], color)
      {
        assert Flat(tm[..t]) + val[..i + 1] == (Flat(tm[..t]) + val[..i]) + [val[i]];
        NodesSnoc(Flat(tm[..t]) + val[..i], val[i], color);
        nodes := nodes + [SentenceNode(val[i].id, val[i], color)];
        i := i + 1;
      }
      WholePrefix(val, i);
      assert tm[..t + 1][..t] == tm[..t];
      t := t + 1;
    }
    WholePrefix(tm, t);
    sp := Sphere(emotion, topics, nodes, color);
  }

  /** The whole memo: group, build each sphere, sort by node count. */
  method EmotionSpheres(sentences: seq<Sentence>) returns (r: Option<seq<Sphere>>)
    ensures r == Spheres(sentences)
  {
    var grouped := GroupSentences(sentences);
    if grouped.None? {
      return None;
    }
    var g := grouped.value;
    ghost var all := RawSpheres(g);
    var raw: seq<Sphere> := [];
    var e := 0;
    while e < |g|
      invariant e <= |g| == |all|
      invariant raw == all[..e]
    {
      var sp := BuildSphere(g[e].0, g[e].1);
      assert all[e] == SphereOf(g[e].0, g[e].1);
      PrefixSnoc(all, e);
      raw := raw + [sp];
      e := e + 1;
    }
    WholePrefix(all, e);
    r := Some(SortByCountDesc(raw, NodeCount));
  }

  // ------------------------------------------------------------------ click

  /** A node click: the selected sentence is deselected, any other is selected. */
  function OnNodeClick(selected: Option<Sentence>, d: Sentence): Option<Sentence> {
    if selected.Some? && selected.value.id == d.id then None else Some(d)
  }

  lemma ClickSpec(selected: Option<Sentence>, d: Sentence)
    ensures OnNodeClick(selected, d) == None <==> (selected.Some? && selected.value.id == d.id)
    ensures OnNodeClick(selected, d) != None ==> OnNodeClick(selected, d) == Some(d)
    ensures OnNodeClick(OnNodeClick(selected, d), d) == (if OnNodeClick(selected, d) == None then Some(d) else None)
  {
  }

  // ------------------------------------------------------------------ helper facts

  lemma LabelledSnoc(ss: seq<Sentence>, i: nat)
    requires i < |ss| && AllLabelled(ss[..i]) && Labelled(ss[i])
    ensures AllLabelled(ss[..i + 1])
  {
    PrefixSnoc(ss, i);
  }

  lemma NodesSnoc(xs: seq<Sentence>, x: Sentence, color: string)
    ensures Nodes(xs + [x], color) == Nodes(xs, color) + [SentenceNode(x.id, x, color)]
  {
    var l, r := Nodes(xs + [x], color), Nodes(xs, color) + [SentenceNode(x.id, x, color)];
    forall k | 0 <= k < |l| ensures l[k] == r[k] {
      if k < |xs| { assert (xs + [x])[k] == xs[k]; }
    }
  }

  lemma {:induction false} FlatLen(tm: TopicMap)
    ensures |Flat(tm)| == SumLens(tm)
  {
    if tm != [] { FlatLen(tm[..|tm| - 1]); }
  }

  lemma {:induction false} FlatAppend(a: TopicMap, b: TopicMap)
    ensures Flat(a + b) == Flat(a) + Flat(b)
    decreases |b|
  {
    if b == [] {
      assert a + b == a;
    } else {
      assert (a + b)[..|a + b| - 1] == a + b[..|b| - 1];
      FlatAppend(a, b[..|b| - 1]);
    }
  }

  lemma FlatSingle(e: (string, seq<Sentence>))
    ensures Flat([e]) == e.1
  {
    assert [e][..0] == [];
  }

  lemma FlatAdd1(b: TopicMap, k: string, x: Sentence)
    ensures multiset(Flat(Add1(b, k, x))) == multiset(Flat(b)) + multiset{x}
  {
    var i := FindKey(b, k);
    if i < 0 {
      FlatAppend(b, [(k, [x])]);
      FlatSingle((k, [x]));
    } else {
      var e := (k, b[i].1 + [x]);
      SplitAt(b, i, e);
      FlatAppend(b[..i] + [b[i]], b[i + 1..]);
      FlatAppend(b[..i], [b[i]]);
      FlatAppend(b[..i] + [e], b[i + 1..]);
      FlatAppend(b[..i], [e]);
      FlatSingle(b[i]);
      FlatSingle(e);
    }
  }

  /** Grouping by topic and flattening again gives back the same sentences. */
  lemma {:induction false} FlatBucket1(s: seq<Sentence>)
    ensures multiset(Flat(Bucket1(s, TopicKey))) == multiset(s)
  {
    if s != [] {
      var p, x := s[..|s| - 1], s[|s| - 1];
      LastSplit(s);
      FlatBucket1(p);
      Add1Correct(p, TopicKey, x);
      FlatAdd1(Bucket1(p, TopicKey), TopicKey(x), x);
    }
  }

  lemma {:induction false} TopicsOfSpec(tm: TopicMap)
    ensures |TopicsOf(tm)| == |tm|
    ensures forall k :: 0 <= k < |tm| ==> TopicsOf(tm)[k] == TopicSector(tm[k].0, |tm[k].1|)
  {
    if tm != [] {
      TopicsOfSpec(tm[..|tm| - 1]);
    }
  }

  /** The sector counts add up to the sphere's node count. */
  function SectorSum(ts: seq<TopicSector>): nat {
    if ts == [] then 0 else SectorSum(ts[..|ts| - 1]) + ts[|ts| - 1].count
  }

  lemma {:induction false} SectorSumOfTopics(tm: TopicMap)
    ensures SectorSum(TopicsOf(tm)) == SumLens(tm)
  {
    if tm != [] {
      SectorSumOfTopics(tm[..|tm| - 1]);
      assert TopicsOf(tm)[..|TopicsOf(tm)| - 1] == TopicsOf(tm[..|tm| - 1]);
    }
  }

  // ------------------------------------------------------------------ properties

  /** Each sector counts its own list; the sphere has one node per sentence of
      its topic map, topic by topic, each carrying that sentence's id and the
      sphere's colour; the raw count (the sum of the list lengths) equals both
      the node count and the sum of the sector counts. */
  lemma SphereSpec(emotion: string, tm: TopicMap)
    ensures var sp := SphereOf(emotion, tm);
      sp.emotion == emotion && sp.color == ColorOf(emotion) &&
      |sp.topics| == |tm| &&
      (forall k :: 0 <= k < |tm| ==> sp.topics[k] == TopicSector(tm[k].0, |tm[k].1|)) &&
      |sp.nodes| == SumLens(tm) == SectorSum(sp.topics) &&
      |sp.nodes| == |Flat(tm)| &&
      (forall k :: 0 <= k < |sp.nodes| ==>
        sp.nodes[k].data == Flat(tm)[k] && sp.nodes[k].id == Flat(tm)[k].id && sp.nodes[k].color == sp.color)
  {
    TopicsOfSpec(tm);
    FlatLen(tm);
    SectorSumOfTopics(tm);
  }

  /** Every sentence lands in exactly one list: the list of sphere `i`, sector
      `j` holds, in input order, exactly the sentences whose emotion key and
      topic key are that sphere's and that sector's; spheres have distinct
      keys, sectors inside a sphere have distinct keys, and no list is empty. */
  lemma GroupedSpec(ss: seq<Sentence>)
    ensures var g := Grouped(ss);
      NoDup(Keys(g, SphereKey)) &&
      (forall i :: 0 <= i < |g| ==> NoDup(Keys(g[i].1, SectorKey))) &&
      (forall i, j :: 0 <= i < |g| && 0 <= j < |g[i].1| ==>
        g[i].1[j].1 == Having(Having(ss, EmotionKey, g[i].0), TopicKey, g[i].1[j].0) &&
        g[i].1[j].1 != [])
  {
    var g := Grouped(ss);
    GroupedSphereKeys(ss);
    forall i | 0 <= i < |g| ensures NoDup(Keys(g[i].1, SectorKey)) {
      GroupedSectorKeys(ss, i);
    }
    GroupedLists(ss);
  }

  lemma GroupedSphereKeys(ss: seq<Sentence>)
    ensures NoDup(Keys(Grouped(ss), SphereKey))
  {
    var g := Grouped(ss);
    assert Keys(g, SphereKey) == Distinct(Keys(ss, EmotionKey));
  }

  lemma GroupedSectorKeys(ss: seq<Sentence>, i: nat)
    requires i < |Grouped(ss)|
    ensures NoDup(Keys(Grouped(ss)[i].1, SectorKey))
  {
    var g := Grouped(ss);
    var b := Bucket1(Having(ss, EmotionKey, g[i].0), TopicKey);
    assert g[i].1 == b;
    assert Keys(b, SectorKey) == Distinct(Keys(Having(ss, EmotionKey, g[i].0), TopicKey));
  }

  lemma GroupedLists(ss: seq<Sentence>)
    ensures var g := Grouped(ss);
      forall i, j :: 0 <= i < |g| && 0 <= j < |g[i].1| ==>
        g[i].1[j].1 == Having(Having(ss, EmotionKey, g[i].0), TopicKey, g[i].1[j].0) &&
        g[i].1[j].1 != []
  {
    Bucket2NonEmpty(ss, EmotionKey, TopicKey);
  }

  /** The nodes of sphere `i` are exactly the sentences of its emotion. */
  lemma SphereContents(ss: seq<Sentence>, i: nat)
    requires i < |Grouped(ss)|
    ensures var g := Grouped(ss);
      multiset(Flat(g[i].1)) == multiset(Having(ss, EmotionKey, g[i].0)) &&
      |RawSpheres(g)[i].nodes| == |Having(ss, EmotionKey, g[i].0)|
  {
    var g := Grouped(ss);
    FlatBucket1(Having(ss, EmotionKey, g[i].0));
    FlatLen(g[i].1);
    Bucket1Total(Having(ss, EmotionKey, g[i].0), TopicKey);
  }

  lemma {:induction false} RawTotal(g: EmotionMap, b: seq<(string, seq<Sentence>)>, n: nat)
    requires n <= |g| == |b|
    requires forall i :: 0 <= i < |g| ==> SumLens(g[i].1) == |b[i].1|
    ensures CountSum(RawSpheres(g)[..n], NodeCount) == SumLens(b[..n])
  {
    if n > 0 {
      RawTotal(g, b, n - 1);
      assert RawSpheres(g)[..n][..n - 1] == RawSpheres(g)[..n - 1];
      assert b[..n][..n - 1] == b[..n - 1];
      FlatLen(g[n - 1].1);
    }
  }

  /** No sentence is lost or duplicated: the spheres hold |sentences| nodes. */
  lemma RawSpheresTotal(ss: seq<Sentence>)
    ensures CountSum(RawSpheres(Grouped(ss)), NodeCount) == |ss|
  {
    var g, b := Grouped(ss), Bucket1(ss, EmotionKey);
    Bucket2Outer(ss, EmotionKey, TopicKey);
    forall i | 0 <= i < |g| ensures SumLens(g[i].1) == |b[i].1| {
      Bucket1Total(b[i].1, TopicKey);
    }
    RawTotal(g, b, |g|);
    assert RawSpheres(g)[..|g|] == RawSpheres(g);
    assert b[..|g|] == b;
    Bucket1Total(ss, EmotionKey);
  }

  /** The memo's value: None exactly when some sentence has no label;
      otherwise |sentences| nodes in all, spheres in non-increasing order of
      node count, the same spheres as the grouping built, and spheres of equal
      node count in first-occurrence order. */
  lemma SpheresSpec(ss: seq<Sentence>)
    ensures Spheres(ss).None? <==> exists i :: 0 <= i < |ss| && !Labelled(ss[i])
    ensures Spheres(ss).Some? ==> (
      var sps, raw := Spheres(ss).value, RawSpheres(Grouped(ss));
      CountSum(sps, NodeCount) == |ss| &&
      NonIncreasing(sps, NodeCount) &&
      multiset(sps) == multiset(raw) &&
      forall k :: Having(sps, NodeCount, k) == Having(raw, NodeCount, k))
  {
    if AllLabelled(ss) {
      var raw := RawSpheres(Grouped(ss));
      RawSpheresTotal(ss);
      CountSumSorted(raw, NodeCount);
      SortedByCount(raw, NodeCount);
      forall k ensures Having(SortByCountDesc(raw, NodeCount), NodeCount, k) == Having(raw, NodeCount, k) {
        SortStable(raw, NodeCount, k);
      }
    }
  }

  /** No sentences, no spheres. */
  lemma EmptySpheres()
    ensures Spheres([]) == Some([])
  {
  }
}
