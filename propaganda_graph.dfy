/** The node/edge projector of components/PropagandaGraph.tsx. From the
    emotion → topic → actor aggregates it builds, topic by topic, one Topic
    node, a wheel of seven emotion spokes tied to it, and one node per
    sentence id that resolves in the analysis, attached to the spoke of its
    emotion; the response's own graph contributes its non-Sentence,
    non-Topic nodes, copied unchanged. `GraphOf` is the declarative result,
    `BuildGraph` the loop procedure proved to compute it. */
module PropagandaGraph {
  import opened Wrappers
  import opened JsText
  import opened Types
  import opened Grouping
  import opened EmotionTopicActor

  /** The spokes of every wheel, in wheel order. */
  const WHEEL_EMOTIONS: seq<string> := ["ANGST", "WUT", "TRAUER", "FREUDE", "EKEL", "HOFFNUNG", "NEUTRAL"]

  datatype Graph = Graph(nodes: seq<GraphNode>, edges: seq<GraphEdge>)

  // ------------------------------------------------------------------ topicsMap

  /** Storing topic `t` under its id in the topic map: a new id is appended, a known id keeps its
      place and gets the new value. */
  function SetById(m: seq<(string, TopicAggregate)>, t: TopicAggregate): seq<(string, TopicAggregate)> {
    var i := FindKey(m, t.id);
    if i < 0 then m + [(t.id, t)] else m[i := (t.id, t)]
  }

  function SetAll(ts: seq<TopicAggregate>): seq<(string, TopicAggregate)> {
    if ts == [] then [] else SetById(SetAll(ts[..|ts| - 1]), ts[|ts| - 1])
  }

  lemma SetAllSnoc(ts: seq<TopicAggregate>, t: TopicAggregate)
    ensures SetAll(ts + [t]) == SetById(SetAll(ts), t)
  {
    assert (ts + [t])[..|ts|] == ts;
  }

  /** The map the nested `forEach` over emotions and their topics leaves behind. */
  function TopicsMap(eta: seq<EmotionAggregate>): seq<(string, TopicAggregate)> {
    SetAll(AllTopics(eta))
  }

  /** The last element of every bucket. */
  function Lasts(b: seq<(string, seq<TopicAggregate>)>): (r: seq<(string, TopicAggregate)>)
    requires forall i :: 0 <= i < |b| ==> b[i].1 != []
    ensures |r| == |b| && forall i :: 0 <= i < |b| ==> r[i] == (b[i].0, b[i].1[|b[i].1| - 1])
  {
    seq(|b|, i requires 0 <= i < |b| => (b[i].0, b[i].1[|b[i].1| - 1]))
  }

  lemma {:induction false} LastsAdd1(b: seq<(string, seq<TopicAggregate>)>, x: TopicAggregate)
    requires forall i :: 0 <= i < |b| ==> b[i].1 != []
    ensures forall i :: 0 <= i < |Add1(b, x.id, x)| ==> Add1(b, x.id, x)[i].1 != []
    ensures Lasts(Add1(b, x.id, x)) == SetById(Lasts(b), x)
  {
    var l := Lasts(b);
    FindKeySameKeys(b, l, x.id);
    var i := FindKey(b, x.id);
    var c := Add1(b, x.id, x);
    if i < 0 {
      assert c == b + [(x.id, [x])];
      var lhs, rhs := Lasts(c), l + [(x.id, x)];
      forall k | 0 <= k < |lhs| ensures lhs[k] == rhs[k] {
        if k < |b| {
          assert c[k] == b[k];
        }
      }
    } else {
      assert c == b[i := (x.id, b[i].1 + [x])];
      var lhs, rhs := Lasts(c), l[i := (x.id, x)];
      forall k | 0 <= k < |lhs| ensures lhs[k] == rhs[k] {
        if k != i {
          assert c[k] == b[k];
        }
      }
    }
  }

  /** Filling the map keeps, per distinct id, the last topic carrying it. */
  lemma {:induction false} SetAllIsLasts(ts: seq<TopicAggregate>)
    ensures forall i :: 0 <= i < |Bucket1(ts, IdOf)| ==> Bucket1(ts, IdOf)[i].1 != []
    ensures SetAll(ts) == Lasts(Bucket1(ts, IdOf))
  {
    Bucket1NonEmpty(ts, IdOf);
    if ts == [] {
      assert Bucket1(ts, IdOf) == [];
    } else {
      var p, x := ts[..|ts| - 1], ts[|ts| - 1];
      LastSplit(ts);
      SetAllIsLasts(p);
      Add1Correct(p, IdOf, x);
      LastsAdd1(Bucket1(p, IdOf), x);
    }
  }

  /** `topicsMap` has one entry per distinct topic id, in order of first
      occurrence over all emotions, holding the last topic with that id. */
  lemma TopicsMapSpec(eta: seq<EmotionAggregate>)
    ensures var ts := AllTopics(eta);
      var tm := TopicsMap(eta);
      |tm| == |Distinct(Keys(ts, IdOf))| &&
      forall i :: 0 <= i < |tm| ==>
        var h := Having(ts, IdOf, tm[i].0);
        tm[i].0 == Distinct(Keys(ts, IdOf))[i] && h != [] && tm[i].1 == h[|h| - 1]
  {
    SetAllIsLasts(AllTopics(eta));
  }

  /** On the aggregator's own output no topic is overwritten: the map lists
      every topic of every emotion once, in order. */
  lemma TopicsMapOfAggregates(ss: seq<Option<Sentence>>)
    ensures var ts := AllTopics(Aggregates(Some(ss)));
      var tm := TopicsMap(Aggregates(Some(ss)));
      |tm| == |ts| && forall i :: 0 <= i < |ts| ==> tm[i] == (ts[i].id, ts[i])
  {
    var ts := AllTopics(Aggregates(Some(ss)));
    var tm := TopicsMap(Aggregates(Some(ss)));
    TopicIdsUnique(ss);
    DistinctOfNoDup(Keys(ts, IdOf));
    TopicsMapSpec(Aggregates(Some(ss)));
    forall i | 0 <= i < |ts| ensures tm[i] == (ts[i].id, ts[i]) {
      HavingOfNoDup(ts, IdOf, i);
    }
  }

  // ------------------------------------------------------------------ node and edge records

  function WheelId(tid: string, em: string): string {
    "wn_" + tid + "_" + em
  }

  function SentenceNodeId(tid: string, sid: string): string {
    "sn_" + tid + "_" + sid
  }

  /** The central, virtual node of a topic. */
  function TopicNode(t: TopicAggregate): GraphNode {
    GraphNode(t.id, t.topicLabel, "Topic", Some(t.emotion), Some(t.id), None, None, Some(true),
      TopicProperties(|t.sentenceIds|))
  }

  /** The spoke of emotion `em` on the wheel of topic `t`; its caption is the first letter. */
  function WheelNode(t: TopicAggregate, em: string): GraphNode {
    GraphNode(WheelId(t.id, em), JsSubstring(em, 0, 1), "WheelNode", Some(em), None, Some(t.id), None, Some(true),
      WheelProperties(em, t.topicLabel))
  }

  function WheelEdge(t: TopicAggregate, em: string): GraphEdge {
    GraphEdge("link_" + WheelId(t.id, em), t.id, WheelId(t.id, em), "WHEEL_CORE")
  }

  /** The node of sentence `s` inside topic `t`, labelled by the sentence's own emotion. */
  function SentenceNode(t: TopicAggregate, s: Sentence): GraphNode {
    GraphNode(SentenceNodeId(t.id, s.id), "", "Sentence", Some(LabelKey(s)), None, Some(t.id), Some(s.id), Some(false),
      SentenceProperties(s.text))
  }

  /** The edge from the spoke of the sentence's emotion to the sentence node. */
  function AttachEdge(t: TopicAggregate, s: Sentence): GraphEdge {
    var w := WheelId(t.id, LabelKey(s));
    GraphEdge("link_s_" + s.id + "_" + w, w, SentenceNodeId(t.id, s.id), "SENTENCE_ATTACH")
  }

  /** The position of the first sentence of the analysis with id `sid`, or -1. */
  function FindSentence(ss: seq<Sentence>, sid: string): (r: int)
    ensures -1 <= r < |ss|
    ensures r >= 0 ==> ss[r].id == sid && forall i :: 0 <= i < r ==> ss[i].id != sid
    ensures r == -1 ==> forall i :: 0 <= i < |ss| ==> ss[i].id != sid
  {
    if ss == [] then -1
    else if ss[0].id == sid then 0
    else var r := FindSentence(ss[1..], sid); if r == -1 then -1 else r + 1
  }

  /** The id resolves to a sentence without an emotion record: reading its
      label throws a TypeError and the whole projection fails. */
  predicate Crashes(ss: seq<Sentence>, sid: string) {
    var i := FindSentence(ss, sid);
    i >= 0 && ss[i].emotion.None?
  }

  // ------------------------------------------------------------------ one topic

  function WheelNodes(t: TopicAggregate): (r: seq<GraphNode>)
    ensures |r| == |WHEEL_EMOTIONS| && forall k :: 0 <= k < |r| ==> r[k] == WheelNode(t, WHEEL_EMOTIONS[k])
  {
    seq(|WHEEL_EMOTIONS|, k requires 0 <= k < |WHEEL_EMOTIONS| => WheelNode(t, WHEEL_EMOTIONS[k]))
  }

  function WheelEdges(t: TopicAggregate): (r: seq<GraphEdge>)
    ensures |r| == |WHEEL_EMOTIONS| && forall k :: 0 <= k < |r| ==> r[k] == WheelEdge(t, WHEEL_EMOTIONS[k])
  {
    seq(|WHEEL_EMOTIONS|, k requires 0 <= k < |WHEEL_EMOTIONS| => WheelEdge(t, WHEEL_EMOTIONS[k]))
  }

  /** What one sentence id contributes: a node if it resolves, nothing otherwise. */
  function SidNodes(t: TopicAggregate, sid: string, ss: seq<Sentence>): seq<GraphNode> {
    var i := FindSentence(ss, sid);
    if i < 0 then [] else [SentenceNode(t, ss[i])]
  }

  function SidEdges(t: TopicAggregate, sid: string, ss: seq<Sentence>): seq<GraphEdge> {
    var i := FindSentence(ss, sid);
    if i < 0 then [] else [AttachEdge(t, ss[i])]
  }

  function SentenceNodes(t: TopicAggregate, sids: seq<string>, ss: seq<Sentence>): seq<GraphNode> {
    if sids == [] then [] else SentenceNodes(t, sids[..|sids| - 1], ss) + SidNodes(t, sids[|sids| - 1], ss)
  }

  function AttachEdges(t: TopicAggregate, sids: seq<string>, ss: seq<Sentence>): seq<GraphEdge> {
    if sids == [] then [] else AttachEdges(t, sids[..|sids| - 1], ss) + SidEdges(t, sids[|sids| - 1], ss)
  }

  predicate SidsCrash(sids: seq<string>, ss: seq<Sentence>) {
    exists j :: 0 <= j < |sids| && Crashes(ss, sids[j])
  }

  /** The nodes pushed for one topic: its node, its wheel, its sentences. */
  function TopicNodes(t: TopicAggregate, ss: seq<Sentence>): seq<GraphNode> {
    [TopicNode(t)] + WheelNodes(t) + SentenceNodes(t, t.sentenceIds, ss)
  }

  function TopicEdges(t: TopicAggregate, ss: seq<Sentence>): seq<GraphEdge> {
    WheelEdges(t) + AttachEdges(t, t.sentenceIds, ss)
  }

  // ------------------------------------------------------------------ the whole graph

  function DerivedNodes(tm: seq<(string, TopicAggregate)>, ss: seq<Sentence>): seq<GraphNode> {
    if tm == [] then [] else DerivedNodes(tm[..|tm| - 1], ss) + TopicNodes(tm[|tm| - 1].1, ss)
  }

  function DerivedEdges(tm: seq<(string, TopicAggregate)>, ss: seq<Sentence>): seq<GraphEdge> {
    if tm == [] then [] else DerivedEdges(tm[..|tm| - 1], ss) + TopicEdges(tm[|tm| - 1].1, ss)
  }

  predicate AnyCrash(tm: seq<(string, TopicAggregate)>, ss: seq<Sentence>) {
    exists k :: 0 <= k < |tm| && SidsCrash(tm[k].1.sentenceIds, ss)
  }

  /** `{ ...n }` of a node of the response's graph. */
  function SeedCopy(n: SeedNode): GraphNode {
    GraphNode(n.id, n.caption, n.ntype, None, None, None, None, None, SeedProperties(n.properties))
  }

  predicate Replaced(n: SeedNode) {
    n.ntype == "Sentence" || n.ntype == "Topic"
  }

  /** The seed nodes that are neither Sentence nor Topic, copied, in order. */
  function SeedCopies(ns: seq<SeedNode>): seq<GraphNode> {
    if ns == [] then []
    else SeedCopies(ns[..|ns| - 1]) + (if Replaced(ns[|ns| - 1]) then [] else [SeedCopy(ns[|ns| - 1])])
  }

  /** The `graphData` memo: an empty graph without seed nodes, a failure when
      a resolved sentence has no emotion, else the derived nodes followed by
      the copied seeds, and the derived edges. */
  function GraphOf(data: Analysis, eta: seq<EmotionAggregate>): Option<Graph> {
    if data.graph.None? || data.graph.value.nodes.None? then Some(Graph([], []))
    else
      var tm := TopicsMap(eta);
      if AnyCrash(tm, data.sentences) then None
      else Some(Graph(DerivedNodes(tm, data.sentences) + SeedCopies(data.graph.value.nodes.value),
                      DerivedEdges(tm, data.sentences)))
  }

  // ------------------------------------------------------------------ the procedure

  /** The nested loop over the emotions and their topics filling `topicsMap`. */
  method CollectTopics(eta: seq<EmotionAggregate>) returns (tm: seq<(string, TopicAggregate)>)
    ensures tm == TopicsMap(eta)
  {
    tm := [];
    var e := 0;
    while e < |eta|
      invariant 0 <= e <= |eta|
      invariant tm == SetAll(AllTopics(eta[..e]))
    {
      var ts := eta[e].topics;
      var done := AllTopics(eta[..e]);
      var j := 0;
      assert done + ts[..0] == done;
      while j < |ts|
        invariant 0 <= j <= |ts|
        invariant tm == SetAll(done + ts[..j])
      {
        AppendPrefixSnoc(done, ts, j);
        SetAllSnoc(done + ts[..j], ts[j]);
        tm := SetById(tm, ts[j]);
        j := j + 1;
      }
      WholePrefix(ts, j);
      PrefixSnoc(eta, e);
      e := e + 1;
    }
    WholePrefix(eta, e);
  }

  /** The body of the loop over `topicsMap` for one topic: its node, the
      wheel, then one node and one edge per sentence id that resolves.
      `ok` is false when a resolved sentence has no emotion record. */
  method ProjectTopic(t: TopicAggregate, ss: seq<Sentence>) returns (ok: bool, tn: seq<GraphNode>, te: seq<GraphEdge>)
    ensures ok == !SidsCrash(t.sentenceIds, ss)
    ensures ok ==> tn == TopicNodes(t, ss) && te == TopicEdges(t, ss)
  {
    var wn, we := PushWheel(t);
    ok, tn, te := PushSentences(t, ss, wn, we);
  }

  /** The topic node followed by the spokes of the wheel, and their edges. */
  method PushWheel(t: TopicAggregate) returns (tn: seq<GraphNode>, te: seq<GraphEdge>)
    ensures tn == [TopicNode(t)] + WheelNodes(t) && te == WheelEdges(t)
  {
    tn := [TopicNode(t)];
    te := [];
    var w := 0;
    while w < |WHEEL_EMOTIONS|
      invariant 0 <= w <= |WHEEL_EMOTIONS|
      invariant tn == [TopicNode(t)] + WheelNodes(t)[..w]
      invariant te == WheelEdges(t)[..w]
    {
      PrefixSnoc(WheelNodes(t), w);
      PrefixSnoc(WheelEdges(t), w);
      tn := tn + [WheelNode(t, WHEEL_EMOTIONS[w])];
      te := te + [WheelEdge(t, WHEEL_EMOTIONS[w])];
      w := w + 1;
    }
    WholePrefix(WheelNodes(t), w);
    WholePrefix(WheelEdges(t), w);
  }

  /** The loop over the topic's sentence ids, appending to `tn0` and `te0`. */
  method PushSentences(t: TopicAggregate, ss: seq<Sentence>, tn0: seq<GraphNode>, te0: seq<GraphEdge>)
    returns (ok: bool, tn: seq<GraphNode>, te: seq<GraphEdge>)
    ensures ok == !SidsCrash(t.sentenceIds, ss)
    ensures ok ==> tn == tn0 + SentenceNodes(t, t.sentenceIds, ss) && te == te0 + AttachEdges(t, t.sentenceIds, ss)
  {
    tn, te := tn0, te0;
    var sids := t.sentenceIds;
    var j := 0;
    while j < |sids|
      invariant 0 <= j <= |sids|
      invariant tn == tn0 + SentenceNodes(t, sids[..j], ss)
      invariant te == te0 + AttachEdges(t, sids[..j], ss)
      invariant forall k :: 0 <= k < j ==> !Crashes(ss, sids[k])
    {
      SentenceNodesSnoc(t, sids, j, ss);
      AppendAssoc(tn0, SentenceNodes(t, sids[..j], ss), SidNodes(t, sids[j], ss));
      AppendAssoc(te0, AttachEdges(t, sids[..j], ss), SidEdges(t, sids[j], ss));
      var crash;
      crash, tn, te := PushSentence(t, ss, sids[j], tn, te);
      if crash {
        assert SidsCrash(sids, ss);
        ok := false;
        return;
      }
      j := j + 1;
    }
    WholePrefix(sids, j);
    assert !SidsCrash(sids, ss);
    ok := true;
  }

  /** One iteration: look the id up, throw on a found sentence without an
      emotion, push its node and edge when it is found. */
  method PushSentence(t: TopicAggregate, ss: seq<Sentence>, sid: string, tn0: seq<GraphNode>, te0: seq<GraphEdge>)
    returns (crash: bool, tn: seq<GraphNode>, te: seq<GraphEdge>)
    ensures crash == Crashes(ss, sid)
    ensures !crash ==> tn == tn0 + SidNodes(t, sid, ss) && te == te0 + SidEdges(t, sid, ss)
  {
    tn, te := tn0, te0;
    var i := FindSentence(ss, sid);
    if i >= 0 {
      if ss[i].emotion.None? {
        return true, tn, te;
      }
      tn := tn + [SentenceNode(t, ss[i])];
      te := te + [AttachEdge(t, ss[i])];
    }
    crash := false;
  }

  lemma SentenceNodesSnoc(t: TopicAggregate, sids: seq<string>, j: nat, ss: seq<Sentence>)
    requires j < |sids|
    ensures SentenceNodes(t, sids[..j + 1], ss) == SentenceNodes(t, sids[..j], ss) + SidNodes(t, sids[j], ss)
    ensures AttachEdges(t, sids[..j + 1], ss) == AttachEdges(t, sids[..j], ss) + SidEdges(t, sids[j], ss)
  {
    PrefixSnoc(sids, j);
  }

  /** The memoised projection: the topic loop, with the TypeError of a
      sentence without emotion as `None`, then the copied seed nodes. */
  method BuildGraph(data: Analysis, eta: seq<EmotionAggregate>) returns (r: Option<Graph>)
    ensures r == GraphOf(data, eta)
  {
    if data.graph.None? || data.graph.value.nodes.None? {
      return Some(Graph([], []));
    }
    var tm := CollectTopics(eta);
    var ok, nodes, edges := ProjectTopics(tm, data.sentences);
    if !ok {
      return None;
    }
    nodes := CopySeeds(nodes, data.graph.value.nodes.value);
    r := Some(Graph(nodes, edges));
  }

  /** The loop over `topicsMap`; `ok` is false when some topic fails. */
  method ProjectTopics(tm: seq<(string, TopicAggregate)>, ss: seq<Sentence>) returns (ok: bool, nodes: seq<GraphNode>, edges: seq<GraphEdge>)
    ensures ok == !AnyCrash(tm, ss)
    ensures ok ==> nodes == DerivedNodes(tm, ss) && edges == DerivedEdges(tm, ss)
  {
    nodes, edges := [], [];
    var k := 0;
    while k < |tm|
      invariant 0 <= k <= |tm|
      invariant nodes == DerivedNodes(tm[..k], ss) && edges == DerivedEdges(tm[..k], ss)
      invariant forall q :: 0 <= q < k ==> !SidsCrash(tm[q].1.sentenceIds, ss)
    {
      DerivedSnoc(tm, k, ss);
      var tok, tn, te := ProjectTopic(tm[k].1, ss);
      if !tok {
        assert SidsCrash(tm[k].1.sentenceIds, ss);
        return false, nodes, edges;
      }
      nodes := nodes + tn;
      edges := edges + te;
      k := k + 1;
    }
    WholePrefix(tm, k);
    ok := true;
  }

  lemma DerivedSnoc(tm: seq<(string, TopicAggregate)>, k: nat, ss: seq<Sentence>)
    requires k < |tm|
    ensures DerivedNodes(tm[..k + 1], ss) == DerivedNodes(tm[..k], ss) + TopicNodes(tm[k].1, ss)
    ensures DerivedEdges(tm[..k + 1], ss) == DerivedEdges(tm[..k], ss) + TopicEdges(tm[k].1, ss)
  {
    assert tm[..k + 1][..k] == tm[..k];
  }

  /** The loop over the response's nodes, appending the copies it keeps. */
  method CopySeeds(nodes0: seq<GraphNode>, ns: seq<SeedNode>) returns (nodes: seq<GraphNode>)
    ensures nodes == nodes0 + SeedCopies(ns)
  {
    nodes := nodes0;
    var j := 0;
    while j < |ns|
      invariant 0 <= j <= |ns|
      invariant nodes == nodes0 + SeedCopies(ns[..j])
    {
      PrefixSnoc(ns, j);
      if !Replaced(ns[j]) {
        nodes := nodes + [SeedCopy(ns[j])];
      }
      j := j + 1;
    }
    WholePrefix(ns, j);
  }

  // ------------------------------------------------------------------ properties

  /** The sentence ids that resolve to a sentence of the analysis, in order. */
  function Resolving(sids: seq<string>, ss: seq<Sentence>): (r: seq<string>)
    ensures |r| <= |sids|
    ensures forall k :: 0 <= k < |r| ==> r[k] in sids && FindSentence(ss, r[k]) >= 0
  {
    if sids == [] then []
    else
      var p, x := sids[..|sids| - 1], sids[|sids| - 1];
      Resolving(p, ss) + (if FindSentence(ss, x) >= 0 then [x] else [])
  }

  /** When every id resolves, none is dropped. */
  lemma {:induction false} ResolvingAll(sids: seq<string>, ss: seq<Sentence>)
    requires forall m :: 0 <= m < |sids| ==> FindSentence(ss, sids[m]) >= 0
    ensures Resolving(sids, ss) == sids
  {
    if sids != [] {
      var p := sids[..|sids| - 1];
      assert forall m :: 0 <= m < |p| ==> p[m] == sids[m];
      ResolvingAll(p, ss);
    }
  }

  /** A topic gets one Sentence node per resolving sentence id, in the order
      of the ids: the `i`-th node has the `i`-th resolving id, the id
      "sn_<topic>_<sentence>", and the emotion key of the sentence that id
      finds. The attach edges pair up with them one to one: the `i`-th edge
      ends at the `i`-th sentence node and starts at the spoke named by that
      emotion. */
  lemma {:induction false} SentencesAttached(t: TopicAggregate, sids: seq<string>, ss: seq<Sentence>)
    ensures |AttachEdges(t, sids, ss)| == |SentenceNodes(t, sids, ss)| == |Resolving(sids, ss)|
    ensures forall i :: 0 <= i < |SentenceNodes(t, sids, ss)| ==>
      var n := SentenceNodes(t, sids, ss)[i];
      var e := AttachEdges(t, sids, ss)[i];
      var sid := Resolving(sids, ss)[i];
      var f := FindSentence(ss, sid);
      f >= 0 && n.ntype == "Sentence" && n.parentTopicId == Some(t.id) &&
      n.sentenceId == Some(sid) && n.id == SentenceNodeId(t.id, sid) &&
      n.emotionLabel == Some(LabelKey(ss[f])) &&
      e.etype == "SENTENCE_ATTACH" && e.target == n.id && e.source == WheelId(t.id, LabelKey(ss[f]))
  {
    if sids != [] {
      var p, x := sids[..|sids| - 1], sids[|sids| - 1];
      SentencesAttached(t, p, ss);
      var sn, ae, rs := SentenceNodes(t, sids, ss), AttachEdges(t, sids, ss), Resolving(sids, ss);
      var pn, pe, ps := SentenceNodes(t, p, ss), AttachEdges(t, p, ss), Resolving(p, ss);
      assert sn == pn + SidNodes(t, x, ss);
      assert ae == pe + SidEdges(t, x, ss);
      assert rs == ps + (if FindSentence(ss, x) >= 0 then [x] else []);
      forall i | 0 <= i < |sn|
        ensures var f := FindSentence(ss, rs[i]);
          f >= 0 && sn[i].ntype == "Sentence" && sn[i].parentTopicId == Some(t.id) &&
          sn[i].sentenceId == Some(rs[i]) && sn[i].id == SentenceNodeId(t.id, rs[i]) &&
          sn[i].emotionLabel == Some(LabelKey(ss[f])) &&
          ae[i].etype == "SENTENCE_ATTACH" && ae[i].target == sn[i].id && ae[i].source == WheelId(t.id, LabelKey(ss[f]))
      {
        if i < |pn| {
          assert sn[i] == pn[i] && ae[i] == pe[i] && rs[i] == ps[i];
        } else {
          var f := FindSentence(ss, x);
          assert rs[i] == x && ss[f].id == x;
          assert sn[i] == SentenceNode(t, ss[f]) && ae[i] == AttachEdge(t, ss[f]);
        }
      }
    }
  }

  lemma WheelIdInjective(tid: string, a: string, b: string)
    requires WheelId(tid, a) == WheelId(tid, b)
    ensures a == b
  {
    var p := "wn_" + tid + "_";
    assert WheelId(tid, a) == p + a && WheelId(tid, b) == p + b;
    assert a == (p + a)[|p|..];
    assert b == (p + b)[|p|..];
  }

  /** The spoke an attach edge starts from is a node of the topic's wheel
      exactly when the sentence's emotion is one of the seven wheel emotions. */
  lemma OnWheel(t: TopicAggregate, em: string)
    ensures (exists k :: 0 <= k < |WheelNodes(t)| && WheelNodes(t)[k].id == WheelId(t.id, em)) <==> em in WHEEL_EMOTIONS
  {
    if em in WHEEL_EMOTIONS {
      var k :| 0 <= k < |WHEEL_EMOTIONS| && WHEEL_EMOTIONS[k] == em;
      assert WheelNodes(t)[k].id == WheelId(t.id, em);
    }
    if exists k :: 0 <= k < |WheelNodes(t)| && WheelNodes(t)[k].id == WheelId(t.id, em) {
      var k :| 0 <= k < |WheelNodes(t)| && WheelNodes(t)[k].id == WheelId(t.id, em);
      WheelIdInjective(t.id, WHEEL_EMOTIONS[k], em);
    }
  }

  /** Every wheel has seven spokes, each tied to the topic node by a core edge. */
  lemma WheelShape(t: TopicAggregate)
    ensures |WheelNodes(t)| == |WheelEdges(t)| == 7
    ensures forall k :: 0 <= k < 7 ==>
      WheelNodes(t)[k].ntype == "WheelNode" && WheelNodes(t)[k].parentTopicId == Some(t.id) &&
      WheelEdges(t)[k].source == TopicNode(t).id && WheelEdges(t)[k].target == WheelNodes(t)[k].id &&
      WheelEdges(t)[k].etype == "WHEEL_CORE" && |WheelNodes(t)[k].caption| == 1
  {
  }

  function NType(n: GraphNode): string {
    n.ntype
  }

  function TopicNodeList(tm: seq<(string, TopicAggregate)>): (r: seq<GraphNode>)
    ensures |r| == |tm| && forall k :: 0 <= k < |tm| ==> r[k] == TopicNode(tm[k].1)
  {
    seq(|tm|, k requires 0 <= k < |tm| => TopicNode(tm[k].1))
  }

  lemma HavingNone(s: seq<GraphNode>, ty: string)
    requires forall i :: 0 <= i < |s| ==> s[i].ntype != ty
    ensures Having(s, NType, ty) == []
  {
  }

  lemma {:induction false} SentenceNodesTyped(t: TopicAggregate, sids: seq<string>, ss: seq<Sentence>)
    ensures forall i :: 0 <= i < |SentenceNodes(t, sids, ss)| ==> SentenceNodes(t, sids, ss)[i].ntype == "Sentence"
  {
    if sids != [] {
      SentenceNodesTyped(t, sids[..|sids| - 1], ss);
    }
  }

  lemma TopicNodesTopics(t: TopicAggregate, ss: seq<Sentence>)
    ensures Having(TopicNodes(t, ss), NType, "Topic") == [TopicNode(t)]
  {
    SentenceNodesTyped(t, t.sentenceIds, ss);
    HavingNone(WheelNodes(t), "Topic");
    HavingNone(SentenceNodes(t, t.sentenceIds, ss), "Topic");
    HavingSnoc([], NType, TopicNode(t), "Topic");
    assert [] + [TopicNode(t)] == [TopicNode(t)];
    HavingAppend([TopicNode(t)], WheelNodes(t), NType, "Topic");
    HavingAppend([TopicNode(t)] + WheelNodes(t), SentenceNodes(t, t.sentenceIds, ss), NType, "Topic");
  }

  lemma {:induction false} DerivedTopics(tm: seq<(string, TopicAggregate)>, ss: seq<Sentence>)
    ensures Having(DerivedNodes(tm, ss), NType, "Topic") == TopicNodeList(tm)
  {
    if tm != [] {
      var p := tm[..|tm| - 1];
      DerivedTopics(p, ss);
      TopicNodesTopics(tm[|tm| - 1].1, ss);
      HavingAppend(DerivedNodes(p, ss), TopicNodes(tm[|tm| - 1].1, ss), NType, "Topic");
      TopicNodeListSnoc(tm);
    }
  }

  lemma TopicNodeListSnoc(tm: seq<(string, TopicAggregate)>)
    requires tm != []
    ensures TopicNodeList(tm) == TopicNodeList(tm[..|tm| - 1]) + [TopicNode(tm[|tm| - 1].1)]
  {
    var p := tm[..|tm| - 1];
    SnocExt(TopicNodeList(tm), TopicNodeList(p), TopicNode(tm[|tm| - 1].1));
  }

  /** The seed nodes kept are exactly the copies of the seed nodes that are
      neither Sentence nor Topic nodes. */
  lemma {:induction false} SeedCopiesSpec(ns: seq<SeedNode>)
    ensures forall x :: x in SeedCopies(ns) <==> exists j :: 0 <= j < |ns| && !Replaced(ns[j]) && x == SeedCopy(ns[j])
    ensures forall i :: 0 <= i < |SeedCopies(ns)| ==> SeedCopies(ns)[i].ntype != "Topic" && SeedCopies(ns)[i].ntype != "Sentence"
  {
    if ns != [] {
      var p := ns[..|ns| - 1];
      SeedCopiesSpec(p);
      forall x | x in SeedCopies(ns) ensures exists j :: 0 <= j < |ns| && !Replaced(ns[j]) && x == SeedCopy(ns[j]) {
        if x in SeedCopies(p) {
          var j :| 0 <= j < |p| && !Replaced(p[j]) && x == SeedCopy(p[j]);
          assert ns[j] == p[j];
        } else {
          assert x == SeedCopy(ns[|ns| - 1]);
        }
      }
      forall x | exists j :: 0 <= j < |ns| && !Replaced(ns[j]) && x == SeedCopy(ns[j]) ensures x in SeedCopies(ns) {
        var j :| 0 <= j < |ns| && !Replaced(ns[j]) && x == SeedCopy(ns[j]);
        if j < |p| {
          assert p[j] == ns[j];
        }
      }
    }
  }

  /** The graph's Topic nodes are exactly one per `topicsMap` entry, in map
      order: the response's own Topic nodes are never shown. */
  lemma TopicNodesOfGraph(data: Analysis, eta: seq<EmotionAggregate>)
    requires GraphOf(data, eta).Some? && data.graph.Some? && data.graph.value.nodes.Some?
    ensures Having(GraphOf(data, eta).value.nodes, NType, "Topic") == TopicNodeList(TopicsMap(eta))
  {
    var tm := TopicsMap(eta);
    var ns := data.graph.value.nodes.value;
    DerivedTopics(tm, data.sentences);
    SeedCopiesSpec(ns);
    HavingNone(SeedCopies(ns), "Topic");
    HavingAppend(DerivedNodes(tm, data.sentences), SeedCopies(ns), NType, "Topic");
  }

  // ------------------------------------------------------------------ on the aggregator's output

  /** No two sentences of the analysis share an id. */
  predicate UniqueIds(d: seq<Sentence>) {
    forall a, b :: 0 <= a < |d| && 0 <= b < |d| && d[a].id == d[b].id ==> a == b
  }

  /** The analysis's sentences as the aggregator receives them. */
  function Wrap(d: seq<Sentence>): (r: seq<Option<Sentence>>)
    ensures |r| == |d| && forall i :: 0 <= i < |d| ==> r[i] == Some(d[i])
  {
    seq(|d|, i requires 0 <= i < |d| => Some(d[i]))
  }

  lemma {:induction false} AllTopicsAt(es: seq<EmotionAggregate>, k: nat) returns (i: nat, j: nat)
    requires k < |AllTopics(es)|
    ensures i < |es| && j < |es[i].topics| && AllTopics(es)[k] == es[i].topics[j]
  {
    var p := es[..|es| - 1];
    if k < |AllTopics(p)| {
      i, j := AllTopicsAt(p, k);
      assert es[i] == p[i];
    } else {
      i, j := |es| - 1, k - |AllTopics(p)|;
    }
  }

  /** With unique sentence ids, every id a topic holds resolves to the very
      sentence the aggregator put there: one with an emotion record, whose
      key is the topic's emotion. */
  lemma TopicSentenceResolves(d: seq<Sentence>, k: nat, m: nat)
    requires UniqueIds(d)
    requires k < |AllTopics(Aggregates(Some(Wrap(d))))| && m < |AllTopics(Aggregates(Some(Wrap(d))))[k].sentenceIds|
    ensures var t := AllTopics(Aggregates(Some(Wrap(d))))[k];
      var f := FindSentence(d, t.sentenceIds[m]);
      f >= 0 && d[f].emotion.Some? && LabelKey(d[f]) == t.emotion
  {
    var ss := Wrap(d);
    var es := Aggregates(Some(ss));
    var i, j := AllTopicsAt(es, k);
    var x := TopicMember(ss, i, j, m);
    KeptMembers(ss);
    FindUnique(d, x);
  }

  lemma FindUnique(d: seq<Sentence>, x: Sentence)
    requires UniqueIds(d) && Some(x) in Wrap(d)
    ensures FindSentence(d, x.id) >= 0 && d[FindSentence(d, x.id)] == x
  {
    var o :| 0 <= o < |d| && Wrap(d)[o] == Some(x);
    assert FindSentence(d, x.id) == o;
  }

  /** Fed the aggregates of its own sentences (with unique ids), the
      projection never fails, every sentence id of every topic becomes a
      Sentence node, in order, and each such node carries its topic's
      emotion, so it hangs on the spoke of that emotion. */
  lemma AggregatedGraph(data: Analysis)
    requires UniqueIds(data.sentences)
    ensures var tm := TopicsMap(Aggregates(Some(Wrap(data.sentences))));
      GraphOf(data, Aggregates(Some(Wrap(data.sentences)))).Some? &&
      forall k :: 0 <= k < |tm| ==>
        var t := tm[k].1;
        Resolving(t.sentenceIds, data.sentences) == t.sentenceIds &&
        forall i :: 0 <= i < |SentenceNodes(t, t.sentenceIds, data.sentences)| ==>
          SentenceNodes(t, t.sentenceIds, data.sentences)[i].emotionLabel == Some(t.emotion)
  {
    var d := data.sentences;
    var eta := Aggregates(Some(Wrap(d)));
    var ts := AllTopics(eta);
    var tm := TopicsMap(eta);
    TopicsMapOfAggregates(Wrap(d));
    forall k | 0 <= k < |tm|
      ensures !SidsCrash(tm[k].1.sentenceIds, d)
      ensures Resolving(tm[k].1.sentenceIds, d) == tm[k].1.sentenceIds
      ensures forall i :: 0 <= i < |SentenceNodes(tm[k].1, tm[k].1.sentenceIds, d)| ==>
          SentenceNodes(tm[k].1, tm[k].1.sentenceIds, d)[i].emotionLabel == Some(tm[k].1.emotion)
    {
      var t := tm[k].1;
      assert t == ts[k];
      forall m | 0 <= m < |t.sentenceIds|
        ensures FindSentence(d, t.sentenceIds[m]) >= 0 && d[FindSentence(d, t.sentenceIds[m])].emotion.Some?
        ensures LabelKey(d[FindSentence(d, t.sentenceIds[m])]) == t.emotion
      {
        TopicSentenceResolves(d, k, m);
      }
      ResolvingAll(t.sentenceIds, d);
      SentencesAttached(t, t.sentenceIds, d);
    }
    assert !AnyCrash(tm, d);
  }
}
