/** The interactive side of components/PropagandaGraph.tsx: which nodes the
    view-mode effect pins (`fx`/`fy`), which ids the highlight effect keeps
    visible, and what a click on a node asks the parent to do. Coordinates
    are abstracted to a ring slot, the origin, or a spoke index around a hub;
    the node records' pins are an array parallel to the node list. */
module PropagandaGraphView {
  import opened Wrappers
  import opened Types
  import opened Grouping
  import opened EmotionTopicActor
  import opened PropagandaGraph

  datatype GraphViewMode = OverviewMode | EmotionMode | TopicMode | SentenceMode | ActorMode

  /** The centre a spoke is placed around: slot `slot` of the outer ring of
      `count` topics, or the origin (with the wheel radius scaled by 1.8). */
  datatype Hub = RingHub(slot: nat, count: nat) | CentreHub

  /** A node's pin: none, a slot on the outer ring, the origin, or spoke
      `index` around a hub (`index` is -1 for a label off the wheel, as
      `indexOf` reports it). */
  datatype Anchor = Free | Ring(slot: nat, count: nat) | Origin | Spoke(hub: Hub, index: int)

  /** The position of a node's emotion label on the wheel, or -1. */
  function WheelIndex(em: Option<string>): (r: int)
    ensures -1 <= r < |WHEEL_EMOTIONS|
    ensures r >= 0 ==> em == Some(WHEEL_EMOTIONS[r]) && forall k :: 0 <= k < r ==> WHEEL_EMOTIONS[k] != em.value
    ensures r == -1 ==> em.None? || forall k :: 0 <= k < |WHEEL_EMOTIONS| ==> WHEEL_EMOTIONS[k] != em.value
  {
    if em.None? then -1 else IndexIn(WHEEL_EMOTIONS, em.value)
  }

  function IndexIn(s: seq<string>, x: string): (r: int)
    ensures -1 <= r < |s|
    ensures r >= 0 ==> s[r] == x && forall k :: 0 <= k < r ==> s[k] != x
    ensures r == -1 ==> forall k :: 0 <= k < |s| ==> s[k] != x
  {
    if s == [] then -1
    else if s[0] == x then 0
    else var r := IndexIn(s[1..], x); if r == -1 then -1 else r + 1
  }

  // ------------------------------------------------------------------ topic positions

  /** The indices of the Topic nodes, in order (the `filter` on type Topic). */
  function TopicPositions(nodes: seq<GraphNode>): (r: seq<nat>)
    ensures forall k :: 0 <= k < |r| ==> r[k] < |nodes| && nodes[r[k]].ntype == "Topic"
    ensures forall k, q :: 0 <= k < q < |r| ==> r[k] < r[q]
  {
    if nodes == [] then []
    else TopicPositions(nodes[..|nodes| - 1]) + (if nodes[|nodes| - 1].ntype == "Topic" then [|nodes| - 1] else [])
  }

  /** The ring slot of node `p`: the number of Topic nodes before it. */
  function Rank(nodes: seq<GraphNode>, p: nat): nat
    requires p <= |nodes|
  {
    |TopicPositions(nodes[..p])|
  }

  lemma {:induction false} PositionsPrefix(nodes: seq<GraphNode>, m: nat)
    requires m <= |nodes|
    ensures |TopicPositions(nodes[..m])| <= |TopicPositions(nodes)|
    ensures TopicPositions(nodes)[..|TopicPositions(nodes[..m])|] == TopicPositions(nodes[..m])
    decreases |nodes| - m
  {
    if m == |nodes| {
      WholePrefix(nodes, m);
    } else {
      PositionsPrefix(nodes, m + 1);
      assert nodes[..m + 1][..m] == nodes[..m];
    }
  }

  /** A Topic node sits at its own rank among the positions. */
  lemma PositionAtRank(nodes: seq<GraphNode>, p: nat)
    requires p < |nodes| && nodes[p].ntype == "Topic"
    ensures Rank(nodes, p) < |TopicPositions(nodes)| && TopicPositions(nodes)[Rank(nodes, p)] == p
  {
    PositionsPrefix(nodes, p + 1);
    assert nodes[..p + 1][..p] == nodes[..p];
    assert TopicPositions(nodes[..p + 1]) == TopicPositions(nodes[..p]) + [p];
  }

  lemma RankOfPosition(nodes: seq<GraphNode>, k: nat)
    requires k < |TopicPositions(nodes)|
    ensures Rank(nodes, TopicPositions(nodes)[k]) == k
  {
    PositionAtRank(nodes, TopicPositions(nodes)[k]);
  }

  /** The last of the first `i` Topic nodes whose id is `parent`, as a rank, or -1. */
  function LastHub(nodes: seq<GraphNode>, parent: Option<string>, i: nat): (r: int)
    requires i <= |TopicPositions(nodes)|
    ensures -1 <= r < i
    ensures r >= 0 ==> Some(nodes[TopicPositions(nodes)[r]].id) == parent
    ensures forall q :: r < q < i ==> Some(nodes[TopicPositions(nodes)[q]].id) != parent
  {
    if i == 0 then -1
    else if Some(nodes[TopicPositions(nodes)[i - 1]].id) == parent then i - 1
    else LastHub(nodes, parent, i - 1)
  }

  // ------------------------------------------------------------------ the anchor effect

  /** The pin of node `p` once the overview loop has placed the first `i`
      topics: those topics sit on their ring slots, the wheel nodes of the
      last placed topic they belong to sit on its spokes, the rest is as before. */
  function PlacedAt(nodes: seq<GraphNode>, prev: seq<Anchor>, i: nat, p: nat): Anchor
    requires |prev| == |nodes| && p < |nodes| && i <= |TopicPositions(nodes)|
  {
    var count := |TopicPositions(nodes)|;
    if nodes[p].ntype == "Topic" then
      (if Rank(nodes, p) < i then Ring(Rank(nodes, p), count) else prev[p])
    else if nodes[p].ntype == "WheelNode" then
      var h := LastHub(nodes, nodes[p].parentTopicId, i);
      if h < 0 then prev[p] else Spoke(RingHub(h, count), WheelIndex(nodes[p].emotionLabel))
    else prev[p]
  }

  /** The overview: every Topic node on its ring slot, every WheelNode whose
      parent is a Topic node on that topic's spoke for its emotion, any other
      WheelNode untouched, every other node unpinned. */
  function OverviewAt(nodes: seq<GraphNode>, prev: seq<Anchor>, p: nat): Anchor
    requires |prev| == |nodes| && p < |nodes|
  {
    if nodes[p].ntype == "Topic" || nodes[p].ntype == "WheelNode" then PlacedAt(nodes, prev, |TopicPositions(nodes)|, p)
    else Free
  }

  /** The first node with id `id`, as an index, or -1. */
  function FindNode(nodes: seq<GraphNode>, id: string): (r: int)
    ensures -1 <= r < |nodes|
    ensures r >= 0 ==> nodes[r].id == id && forall q :: 0 <= q < r ==> nodes[q].id != id
    ensures r == -1 ==> forall q :: 0 <= q < |nodes| ==> nodes[q].id != id
  {
    if nodes == [] then -1
    else if nodes[0].id == id then 0
    else var r := FindNode(nodes[1..], id); if r == -1 then -1 else r + 1
  }

  /** Topic mode with a selection: nothing pinned except, when a node has the
      selected id, that node at the origin and the selected topic's wheel
      nodes on spokes around it. */
  function FocusAt(nodes: seq<GraphNode>, sel: string, p: nat): Anchor
    requires p < |nodes|
  {
    var t := FindNode(nodes, sel);
    if t >= 0 && nodes[p].ntype == "WheelNode" && nodes[p].parentTopicId == Some(sel) then
      Spoke(CentreHub, WheelIndex(nodes[p].emotionLabel))
    else if p == t then Origin
    else Free
  }

  function AnchorSpec(nodes: seq<GraphNode>, prev: seq<Anchor>, mode: GraphViewMode, sel: Option<string>): (r: seq<Anchor>)
    requires |prev| == |nodes|
    ensures |r| == |nodes|
    ensures forall p :: 0 <= p < |nodes| ==>
      r[p] == if mode == OverviewMode then OverviewAt(nodes, prev, p)
              else if mode == TopicMode && Truthy(sel) then FocusAt(nodes, sel.value, p)
              else Free
  {
    seq(|nodes|, p requires 0 <= p < |nodes| =>
      if mode == OverviewMode then OverviewAt(nodes, prev, p)
      else if mode == TopicMode && Truthy(sel) then FocusAt(nodes, sel.value, p)
      else Free)
  }

  /** The anchor effect, writing the pins of the node records in place.
      `ready` says that the svg and container elements are mounted and that
      the render effect has already stored the zoom behaviour; without all
      three the effect returns before writing any pin. */
  method ApplyViewMode(nodes: seq<GraphNode>, anchors: array<Anchor>, ready: bool, mode: GraphViewMode, sel: Option<string>)
    requires anchors.Length == |nodes|
    modifies anchors
    ensures ready ==> anchors[..] == AnchorSpec(nodes, old(anchors[..]), mode, sel)
    ensures !ready ==> anchors[..] == old(anchors[..])
  {
    if !ready {
      return;
    }
    if mode == OverviewMode {
      PinOverview(nodes, anchors);
    } else if mode == TopicMode && Truthy(sel) {
      ClearAll(anchors);
      PinFocus(nodes, anchors, sel.value);
    } else {
      ClearAll(anchors);
    }
  }

  method ClearAll(anchors: array<Anchor>)
    modifies anchors
    ensures forall p :: 0 <= p < anchors.Length ==> anchors[p] == Free
  {
    var p := 0;
    while p < anchors.Length
      invariant 0 <= p <= anchors.Length
      invariant forall q :: 0 <= q < p ==> anchors[q] == Free
    {
      anchors[p] := Free;
      p := p + 1;
    }
  }

  method PinFocus(nodes: seq<GraphNode>, anchors: array<Anchor>, sel: string)
    requires anchors.Length == |nodes|
    requires forall p :: 0 <= p < anchors.Length ==> anchors[p] == Free
    modifies anchors
    ensures forall p :: 0 <= p < |nodes| ==> anchors[p] == FocusAt(nodes, sel, p)
  {
    var t := FindNode(nodes, sel);
    ghost var want := seq(|nodes|, q requires 0 <= q < |nodes| => FocusAt(nodes, sel, q));
    if t >= 0 {
      anchors[t] := Origin;
      var p := 0;
      while p < |nodes|
        invariant 0 <= p <= |nodes|
        invariant forall q :: 0 <= q < |nodes| ==> anchors[q] == if q < p then want[q] else if q == t then Origin else Free
      {
        if nodes[p].ntype == "WheelNode" && nodes[p].parentTopicId == Some(sel) {
          anchors[p] := Spoke(CentreHub, WheelIndex(nodes[p].emotionLabel));
        }
        assert anchors[p] == want[p];
        p := p + 1;
      }
    }
    assert forall q :: 0 <= q < |nodes| ==> anchors[q] == want[q];
  }

  /** How placing topic `i` changes the pins: that topic gets its slot, the
      wheel nodes naming it as parent get its spokes, nothing else moves. */
  lemma PlacedStep(nodes: seq<GraphNode>, prev: seq<Anchor>, i: nat, p: nat)
    requires |prev| == |nodes| && p < |nodes| && i < |TopicPositions(nodes)|
    ensures var pos := TopicPositions(nodes);
      PlacedAt(nodes, prev, i + 1, p) ==
        if nodes[p].ntype == "Topic" && p == pos[i] then Ring(i, |pos|)
        else if nodes[p].ntype == "WheelNode" && nodes[p].parentTopicId == Some(nodes[pos[i]].id) then
          Spoke(RingHub(i, |pos|), WheelIndex(nodes[p].emotionLabel))
        else PlacedAt(nodes, prev, i, p)
  {
    var pos := TopicPositions(nodes);
    if nodes[p].ntype == "Topic" {
      PositionAtRank(nodes, p);
      RankOfPosition(nodes, i);
    }
  }

  /** One iteration of the overview loop: pin topic `i` and its wheel. */
  method PlaceTopic(nodes: seq<GraphNode>, anchors: array<Anchor>, ghost prev: seq<Anchor>, i: nat, n: nat, count: nat)
    requires anchors.Length == |nodes| && |prev| == |nodes|
    requires i < |TopicPositions(nodes)| && n == TopicPositions(nodes)[i] && count == |TopicPositions(nodes)|
    requires forall p :: 0 <= p < |nodes| ==> anchors[p] == PlacedAt(nodes, prev, i, p)
    modifies anchors
    ensures forall p :: 0 <= p < |nodes| ==> anchors[p] == PlacedAt(nodes, prev, i + 1, p)
  {
    ghost var cur := seq(|nodes|, p requires 0 <= p < |nodes| => PlacedAt(nodes, prev, i, p));
    ghost var want := seq(|nodes|, p requires 0 <= p < |nodes| => PlacedAt(nodes, prev, i + 1, p));
    forall p | 0 <= p < |nodes|
      ensures want[p] ==
        if nodes[p].ntype == "Topic" && p == n then Ring(i, count)
        else if nodes[p].ntype == "WheelNode" && nodes[p].parentTopicId == Some(nodes[n].id) then
          Spoke(RingHub(i, count), WheelIndex(nodes[p].emotionLabel))
        else cur[p]
    {
      PlacedStep(nodes, prev, i, p);
    }
    anchors[n] := Ring(i, count);
    PinSpokes(nodes, anchors, cur, want, nodes[n].id, RingHub(i, count));
  }

  /** The inner loop of one overview iteration: every WheelNode whose parent
      is `topicId` goes on its spoke around `hub`. */
  method PinSpokes(nodes: seq<GraphNode>, anchors: array<Anchor>, ghost cur: seq<Anchor>, ghost want: seq<Anchor>,
                   topicId: string, hub: Hub)
    requires anchors.Length == |nodes| == |cur| == |want|
    requires forall p :: 0 <= p < |nodes| ==> anchors[p] == if nodes[p].ntype == "WheelNode" then cur[p] else want[p]
    requires forall p :: 0 <= p < |nodes| && nodes[p].ntype == "WheelNode" ==>
      want[p] == if nodes[p].parentTopicId == Some(topicId) then Spoke(hub, WheelIndex(nodes[p].emotionLabel)) else cur[p]
    modifies anchors
    ensures forall p :: 0 <= p < |nodes| ==> anchors[p] == want[p]
  {
    var j := 0;
    while j < |nodes|
      invariant 0 <= j <= |nodes|
      invariant forall p :: 0 <= p < |nodes| ==>
        anchors[p] == if nodes[p].ntype == "WheelNode" && p >= j then cur[p] else want[p]
    {
      if nodes[j].ntype == "WheelNode" && nodes[j].parentTopicId == Some(topicId) {
        anchors[j] := Spoke(hub, WheelIndex(nodes[j].emotionLabel));
      }
      j := j + 1;
    }
  }

  method PinOverview(nodes: seq<GraphNode>, anchors: array<Anchor>)
    requires anchors.Length == |nodes|
    modifies anchors
    ensures forall p :: 0 <= p < |nodes| ==> anchors[p] == OverviewAt(nodes, old(anchors[..]), p)
  {
    ghost var prev := anchors[..];
    var topicNodes := TopicPositions(nodes);
    var count := |topicNodes|;
    var i := 0;
    while i < count
      invariant 0 <= i <= count
      invariant forall p :: 0 <= p < |nodes| ==> anchors[p] == PlacedAt(nodes, prev, i, p)
    {
      PlaceTopic(nodes, anchors, prev, i, topicNodes[i], count);
      i := i + 1;
    }
    UnpinOthers(nodes, anchors, prev);
  }

  /** The overview's last loop: every node that is neither a Topic nor a
      WheelNode loses its pin. */
  method UnpinOthers(nodes: seq<GraphNode>, anchors: array<Anchor>, ghost prev: seq<Anchor>)
    requires anchors.Length == |nodes| == |prev|
    requires forall p :: 0 <= p < |nodes| ==> anchors[p] == PlacedAt(nodes, prev, |TopicPositions(nodes)|, p)
    modifies anchors
    ensures forall p :: 0 <= p < |nodes| ==> anchors[p] == OverviewAt(nodes, prev, p)
  {
    ghost var placed := anchors[..];
    ghost var want := seq(|nodes|, q requires 0 <= q < |nodes| => OverviewAt(nodes, prev, q));
    var p := 0;
    while p < |nodes|
      invariant 0 <= p <= |nodes|
      invariant forall q :: 0 <= q < |nodes| ==> anchors[q] == if q < p then want[q] else placed[q]
    {
      if !(nodes[p].ntype == "Topic" || nodes[p].ntype == "WheelNode") {
        anchors[p] := Free;
      }
      p := p + 1;
    }
    assert forall q :: 0 <= q < |nodes| ==> anchors[q] == want[q];
  }

  // ------------------------------------------------------------------ what the pins mean

  /** In the overview, every Topic node is pinned to its own ring slot (no
      two share one, and the slots are `0 .. count-1`), every WheelNode whose
      parent is among the Topic nodes is pinned on the spoke of its emotion
      around the last such Topic node, and every node that is neither a Topic
      nor a WheelNode is unpinned. */
  lemma OverviewPins(nodes: seq<GraphNode>, prev: seq<Anchor>, p: nat)
    requires |prev| == |nodes| && p < |nodes|
    ensures var pos := TopicPositions(nodes);
      var a := OverviewAt(nodes, prev, p);
      (nodes[p].ntype == "Topic" ==> a == Ring(Rank(nodes, p), |pos|) && Rank(nodes, p) < |pos| && pos[Rank(nodes, p)] == p) &&
      (nodes[p].ntype == "WheelNode" && (exists q :: 0 <= q < |nodes| && nodes[q].ntype == "Topic" && nodes[p].parentTopicId == Some(nodes[q].id)) ==>
        a.Spoke? && a.hub.RingHub? && a.hub.count == |pos| && a.hub.slot < |pos| &&
        nodes[p].parentTopicId == Some(nodes[pos[a.hub.slot]].id) && a.index == WheelIndex(nodes[p].emotionLabel)) &&
      (nodes[p].ntype != "Topic" && nodes[p].ntype != "WheelNode" ==> a == Free)
  {
    var pos := TopicPositions(nodes);
    if nodes[p].ntype == "Topic" {
      PositionAtRank(nodes, p);
    }
    if nodes[p].ntype == "WheelNode" && exists q :: 0 <= q < |nodes| && nodes[q].ntype == "Topic" && nodes[p].parentTopicId == Some(nodes[q].id) {
      var q :| 0 <= q < |nodes| && nodes[q].ntype == "Topic" && nodes[p].parentTopicId == Some(nodes[q].id);
      PositionAtRank(nodes, q);
      var h := LastHub(nodes, nodes[p].parentTopicId, |pos|);
      assert h >= Rank(nodes, q);
    }
  }

  /** On the first display of a graph the zoom behaviour is not stored yet,
      since the render effect that stores it runs after the anchor effect, so
      the early exit leaves every pin free; yet the overview puts each Topic
      node on its ring slot. */
  lemma FirstDisplayUnpinned(nodes: seq<GraphNode>, p: nat)
    requires p < |nodes| && nodes[p].ntype == "Topic"
    ensures var prev := seq(|nodes|, q => Free);
      prev[p] == Free && AnchorSpec(nodes, prev, OverviewMode, None)[p] == Ring(Rank(nodes, p), |TopicPositions(nodes)|)
  {
    OverviewPins(nodes, seq(|nodes|, q => Free), p);
  }

  lemma RingSlotsDistinct(nodes: seq<GraphNode>, p: nat, q: nat)
    requires p < |nodes| && q < |nodes| && p != q && nodes[p].ntype == "Topic" && nodes[q].ntype == "Topic"
    ensures Rank(nodes, p) != Rank(nodes, q)
  {
    PositionAtRank(nodes, p);
    PositionAtRank(nodes, q);
  }

  /** Every wheel emotion sits at its own index on the wheel. */
  lemma WheelIndexOfWheel(k: nat)
    requires k < |WHEEL_EMOTIONS|
    ensures WheelIndex(Some(WHEEL_EMOTIONS[k])) == k
  {
  }

  /** In topic mode with a selection, the only pinned nodes are the first
      node carrying the selected id, at the origin, and the WheelNodes of the
      selected topic, on their spokes around the centre; if no node carries
      the id nothing is pinned. */
  lemma FocusPins(nodes: seq<GraphNode>, sel: string, p: nat)
    requires p < |nodes|
    ensures FocusAt(nodes, sel, p) != Free ==> exists t :: 0 <= t < |nodes| && nodes[t].id == sel
    ensures FocusAt(nodes, sel, p).Origin? ==> nodes[p].id == sel && forall q :: 0 <= q < p ==> nodes[q].id != sel
    ensures FocusAt(nodes, sel, p).Spoke? <==>
      (exists t :: 0 <= t < |nodes| && nodes[t].id == sel) && nodes[p].ntype == "WheelNode" && nodes[p].parentTopicId == Some(sel)
    ensures FocusAt(nodes, sel, p).Spoke? ==> FocusAt(nodes, sel, p) == Spoke(CentreHub, WheelIndex(nodes[p].emotionLabel))
    ensures FocusAt(nodes, sel, p).Ring? == false
  {
    var t := FindNode(nodes, sel);
    if FocusAt(nodes, sel, p) != Free {
      assert nodes[t].id == sel;
    }
  }

  // ------------------------------------------------------------------ visibility

  /** The node types the overview highlights. */
  predicate Highlighted(n: GraphNode) {
    n.ntype == "Topic" || n.ntype == "WheelNode" || n.ntype == "Sentence"
  }

  function HighlightedIds(nodes: seq<GraphNode>): set<string> {
    if nodes == [] then {}
    else HighlightedIds(nodes[..|nodes| - 1]) + (if Highlighted(nodes[|nodes| - 1]) then {nodes[|nodes| - 1].id} else {})
  }

  function ChildIds(nodes: seq<GraphNode>, sel: string): set<string> {
    if nodes == [] then {}
    else ChildIds(nodes[..|nodes| - 1], sel) + (if nodes[|nodes| - 1].parentTopicId == Some(sel) then {nodes[|nodes| - 1].id} else {})
  }

  predicate Touches(e: GraphEdge, sel: string) {
    e.source == sel || e.target == sel
  }

  /** Both endpoints of every edge touching `sel`. */
  function EndpointIds(edges: seq<GraphEdge>, sel: string): set<string> {
    if edges == [] then {}
    else
      var last := edges[|edges| - 1];
      EndpointIds(edges[..|edges| - 1], sel) + (if Touches(last, sel) then {last.source, last.target} else {})
  }

  /** The `visibleIds` of the highlight effect. */
  function VisibleSpec(nodes: seq<GraphNode>, edges: seq<GraphEdge>, mode: GraphViewMode, sel: Option<string>): set<string> {
    if mode == OverviewMode then HighlightedIds(nodes)
    else if mode == TopicMode && Truthy(sel) then {sel.value} + ChildIds(nodes, sel.value) + EndpointIds(edges, sel.value)
    else {}
  }

  /** A node is drawn at full opacity when nothing is highlighted or it is. */
  predicate NodeShown(vis: set<string>, n: GraphNode) {
    vis == {} || n.id in vis
  }

  /** An edge is drawn at full opacity only when both its endpoints are highlighted. */
  predicate EdgeShown(vis: set<string>, e: GraphEdge) {
    e.source in vis && e.target in vis
  }

  /** The highlight effect, adding ids to a set node by node and edge by edge. */
  method VisibleIds(nodes: seq<GraphNode>, edges: seq<GraphEdge>, mode: GraphViewMode, sel: Option<string>) returns (vis: set<string>)
    ensures vis == VisibleSpec(nodes, edges, mode, sel)
  {
    vis := {};
    if mode == OverviewMode {
      var j := 0;
      while j < |nodes|
        invariant 0 <= j <= |nodes|
        invariant vis == HighlightedIds(nodes[..j])
      {
        assert nodes[..j + 1][..j] == nodes[..j];
        if Highlighted(nodes[j]) {
          vis := vis + {nodes[j].id};
        }
        j := j + 1;
      }
      WholePrefix(nodes, j);
    } else if mode == TopicMode && Truthy(sel) {
      var s := sel.value;
      vis := vis + {s};
      var j := 0;
      while j < |nodes|
        invariant 0 <= j <= |nodes|
        invariant vis == {s} + ChildIds(nodes[..j], s)
      {
        assert nodes[..j + 1][..j] == nodes[..j];
        if nodes[j].parentTopicId == Some(s) {
          vis := vis + {nodes[j].id};
        }
        j := j + 1;
      }
      WholePrefix(nodes, j);
      var k := 0;
      while k < |edges|
        invariant 0 <= k <= |edges|
        invariant vis == {s} + ChildIds(nodes, s) + EndpointIds(edges[..k], s)
      {
        assert edges[..k + 1][..k] == edges[..k];
        if edges[k].source == s || edges[k].target == s {
          vis := vis + {edges[k].source};
          vis := vis + {edges[k].target};
        }
        k := k + 1;
      }
      WholePrefix(edges, k);
    }
  }

  lemma {:induction false} HighlightedMembers(nodes: seq<GraphNode>)
    ensures forall x :: x in HighlightedIds(nodes) <==> exists p :: 0 <= p < |nodes| && Highlighted(nodes[p]) && nodes[p].id == x
  {
    if nodes != [] {
      var m := nodes[..|nodes| - 1];
      HighlightedMembers(m);
      assert forall p :: 0 <= p < |m| ==> m[p] == nodes[p];
    }
  }

  lemma {:induction false} ChildMembers(nodes: seq<GraphNode>, sel: string)
    ensures forall x :: x in ChildIds(nodes, sel) <==> exists p :: 0 <= p < |nodes| && nodes[p].parentTopicId == Some(sel) && nodes[p].id == x
  {
    if nodes != [] {
      var m := nodes[..|nodes| - 1];
      ChildMembers(m, sel);
      assert forall p :: 0 <= p < |m| ==> m[p] == nodes[p];
    }
  }

  lemma {:induction false} EndpointMembers(edges: seq<GraphEdge>, sel: string)
    ensures forall x :: x in EndpointIds(edges, sel) <==>
      exists k :: 0 <= k < |edges| && Touches(edges[k], sel) && (edges[k].source == x || edges[k].target == x)
  {
    if edges != [] {
      var m := edges[..|edges| - 1];
      EndpointMembers(m, sel);
      assert forall k :: 0 <= k < |m| ==> m[k] == edges[k];
    }
  }

  /** The overview highlights exactly the Topic, WheelNode and Sentence ids;
      an edge is then drawn iff both its endpoints are such ids. */
  lemma OverviewVisible(nodes: seq<GraphNode>, edges: seq<GraphEdge>, e: GraphEdge)
    ensures forall x :: x in VisibleSpec(nodes, edges, OverviewMode, None) <==>
      exists p :: 0 <= p < |nodes| && Highlighted(nodes[p]) && nodes[p].id == x
    ensures EdgeShown(VisibleSpec(nodes, edges, OverviewMode, None), e) <==>
      (exists p :: 0 <= p < |nodes| && Highlighted(nodes[p]) && nodes[p].id == e.source) &&
      (exists p :: 0 <= p < |nodes| && Highlighted(nodes[p]) && nodes[p].id == e.target)
  {
    HighlightedMembers(nodes);
  }

  /** In topic mode with a selection the highlighted ids are the selected id,
      the ids of the nodes whose parent topic it is, and both endpoints of
      every edge touching it; so the selected node and every such edge is drawn. */
  lemma FocusVisible(nodes: seq<GraphNode>, edges: seq<GraphEdge>, sel: string)
    requires sel != ""
    ensures forall x :: x in VisibleSpec(nodes, edges, TopicMode, Some(sel)) <==>
      x == sel ||
      (exists p :: 0 <= p < |nodes| && nodes[p].parentTopicId == Some(sel) && nodes[p].id == x) ||
      (exists k :: 0 <= k < |edges| && Touches(edges[k], sel) && (edges[k].source == x || edges[k].target == x))
    ensures forall k :: 0 <= k < |edges| && Touches(edges[k], sel) ==> EdgeShown(VisibleSpec(nodes, edges, TopicMode, Some(sel)), edges[k])
    ensures forall p :: 0 <= p < |nodes| && (nodes[p].id == sel || nodes[p].parentTopicId == Some(sel)) ==>
      NodeShown(VisibleSpec(nodes, edges, TopicMode, Some(sel)), nodes[p])
  {
    ChildMembers(nodes, sel);
    EndpointMembers(edges, sel);
  }

  /** In every other mode nothing is highlighted: all nodes are drawn and no edge is. */
  lemma OtherModesVisible(nodes: seq<GraphNode>, edges: seq<GraphEdge>, mode: GraphViewMode, sel: Option<string>, n: GraphNode, e: GraphEdge)
    requires mode != OverviewMode && !(mode == TopicMode && Truthy(sel))
    ensures VisibleSpec(nodes, edges, mode, sel) == {}
    ensures NodeShown(VisibleSpec(nodes, edges, mode, sel), n)
    ensures !EdgeShown(VisibleSpec(nodes, edges, mode, sel), e)
  {
  }

  // ------------------------------------------------------------------ clicks

  /** What a node click asks of the parent view. */
  datatype Request = SelectEmotion(emotion: Option<string>) | SelectTopic(topic: Option<string>)
    | SelectSentence(sentence: Option<string>) | FocusActor(node: string) | NoRequest

  /** `x || null` on an optional string. */
  function OrNull(o: Option<string>): (r: Option<string>)
    ensures Truthy(o) ==> r == o
    ensures !Truthy(o) ==> r == None
  {
    if Truthy(o) then o else None
  }

  predicate ActorType(ty: string) {
    ty == "Group" || ty == "Outlet" || ty == "Filter"
  }

  function Click(n: GraphNode): Request {
    if n.ntype == "WheelNode" then SelectEmotion(OrNull(n.emotionLabel))
    else if n.ntype == "Topic" then SelectTopic(OrNull(n.topicId))
    else if n.ntype == "Sentence" then SelectSentence(OrNull(n.sentenceId))
    else if ActorType(n.ntype) then FocusActor(n.id)
    else NoRequest
  }

  /** The request a click makes is fixed by the node's type alone, and
      carries the node's own emotion, topic id, sentence id or id. */
  lemma ClickDispatch(n: GraphNode)
    ensures Click(n).SelectEmotion? <==> n.ntype == "WheelNode"
    ensures Click(n).SelectTopic? <==> n.ntype == "Topic"
    ensures Click(n).SelectSentence? <==> n.ntype == "Sentence"
    ensures Click(n).FocusActor? <==> ActorType(n.ntype)
    ensures Click(n) == NoRequest <==> !Highlighted(n) && !ActorType(n.ntype)
    ensures Click(n).SelectEmotion? ==> Click(n).emotion == OrNull(n.emotionLabel)
    ensures Click(n).SelectTopic? ==> Click(n).topic == OrNull(n.topicId)
    ensures Click(n).SelectSentence? ==> Click(n).sentence == OrNull(n.sentenceId)
    ensures Click(n).FocusActor? ==> Click(n).node == n.id
  {
  }

  /** Clicking a topic's own node selects that topic; clicking one of its
      spokes selects the spoke's emotion. */
  lemma ClickBuiltTopic(t: TopicAggregate, k: nat)
    requires t.id != "" && k < |WHEEL_EMOTIONS|
    ensures Click(TopicNode(t)) == SelectTopic(Some(t.id))
    ensures Click(WheelNode(t, WHEEL_EMOTIONS[k])) == SelectEmotion(Some(WHEEL_EMOTIONS[k]))
  {
  }
}
