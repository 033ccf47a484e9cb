/** The selection controller of components/UnifiedAnalysisView.tsx. Four
    pieces of view state (mode, emotion, topic, focused node) live in the
    view; the selected sentence lives in the parent, which the view updates
    through its callback. Each handler is a short sequence of state writes;
    `View` performs them in place, the reducers state the resulting state. */
module UnifiedAnalysisView {
  import opened Wrappers
  import opened JsText
  import opened Types
  import opened PropagandaGraph
  import opened PropagandaGraphView

  datatype ViewState = ViewState(
    mode: GraphViewMode,
    emotion: Option<string>,
    topic: Option<string>,
    focus: Option<string>,
    sentence: Option<string>)

  /** Overview, nothing selected; the parent also starts with no sentence. */
  const Initial := ViewState(OverviewMode, None, None, None, None)

  // ------------------------------------------------------------------ reducers

  function OnSelectSentence(st: ViewState, id: Option<string>): ViewState {
    if Truthy(id) then ViewState(SentenceMode, None, None, None, id)
    else st.(sentence := id, mode := if st.mode == SentenceMode then OverviewMode else st.mode)
  }

  function OnFocusActor(st: ViewState, id: Option<string>): ViewState {
    if Truthy(id) then ViewState(ActorMode, None, None, id, None)
    else st.(focus := id, mode := if st.mode == ActorMode then OverviewMode else st.mode)
  }

  function OnSelectEmotion(st: ViewState, e: Option<string>): ViewState {
    if Truthy(e) then ViewState(EmotionMode, e, None, None, None)
    else st.(emotion := e, mode := OverviewMode)
  }

  function OnSelectTopic(st: ViewState, t: Option<string>): ViewState {
    if Truthy(t) then st.(topic := t, mode := TopicMode, sentence := None, focus := None)
    else st.(topic := t, mode := if Truthy(st.emotion) then EmotionMode else OverviewMode)
  }

  function Reset(st: ViewState): ViewState {
    ViewState(OverviewMode, None, None, None, None)
  }

  /** The handler the graph calls for a click request. */
  function Dispatch(st: ViewState, r: Request): ViewState {
    match r
    case SelectEmotion(e) => OnSelectEmotion(st, e)
    case SelectTopic(t) => OnSelectTopic(st, t)
    case SelectSentence(s) => OnSelectSentence(st, s)
    case FocusActor(id) => OnFocusActor(st, Some(id))
    case NoRequest => st
  }

  datatype Event = SentenceEvent(id: Option<string>) | ActorEvent(id: Option<string>)
    | EmotionEvent(e: Option<string>) | TopicEvent(t: Option<string>) | ResetEvent

  function Step(st: ViewState, ev: Event): ViewState {
    match ev
    case SentenceEvent(id) => OnSelectSentence(st, id)
    case ActorEvent(id) => OnFocusActor(st, id)
    case EmotionEvent(e) => OnSelectEmotion(st, e)
    case TopicEvent(t) => OnSelectTopic(st, t)
    case ResetEvent => Reset(st)
  }

  function Run(st: ViewState, evs: seq<Event>): ViewState {
    if evs == [] then st else Step(Run(st, evs[..|evs| - 1]), evs[|evs| - 1])
  }

  // ------------------------------------------------------------------ the handlers in place

  class View {
    var viewMode: GraphViewMode
    var selectedEmotion: Option<string>
    var selectedTopicId: Option<string>
    var focusedNodeId: Option<string>
    /** The parent's selected sentence, written through `onSelectSentenceId`. */
    var selectedSentenceId: Option<string>

    function State(): ViewState
      reads this
    {
      ViewState(viewMode, selectedEmotion, selectedTopicId, focusedNodeId, selectedSentenceId)
    }

    constructor ()
      ensures State() == Initial
    {
      viewMode := OverviewMode;
      selectedEmotion := None;
      selectedTopicId := None;
      focusedNodeId := None;
      selectedSentenceId := None;
    }

    method HandleSelectSentence(id: Option<string>)
      modifies this
      ensures State() == OnSelectSentence(old(State()), id)
    {
      selectedSentenceId := id;
      if Truthy(id) {
        viewMode := SentenceMode;
        focusedNodeId := None;
        selectedEmotion := None;
        selectedTopicId := None;
      } else if viewMode == SentenceMode {
        viewMode := OverviewMode;
      }
    }

    method HandleFocusActorNode(id: Option<string>)
      modifies this
      ensures State() == OnFocusActor(old(State()), id)
    {
      focusedNodeId := id;
      if Truthy(id) {
        viewMode := ActorMode;
        selectedSentenceId := None;
        selectedEmotion := None;
        selectedTopicId := None;
      } else if viewMode == ActorMode {
        viewMode := OverviewMode;
      }
    }

    method HandleSelectEmotion(e: Option<string>)
      modifies this
      ensures State() == OnSelectEmotion(old(State()), e)
    {
      selectedEmotion := e;
      if Truthy(e) {
        viewMode := EmotionMode;
        selectedTopicId := None;
        selectedSentenceId := None;
        focusedNodeId := None;
      } else {
        viewMode := OverviewMode;
      }
    }

    method HandleSelectTopic(t: Option<string>)
      modifies this
      ensures State() == OnSelectTopic(old(State()), t)
    {
      selectedTopicId := t;
      if Truthy(t) {
        viewMode := TopicMode;
        selectedSentenceId := None;
        focusedNodeId := None;
      } else if Truthy(selectedEmotion) {
        viewMode := EmotionMode;
      } else {
        viewMode := OverviewMode;
      }
    }

    method HandleResetOverview()
      modifies this
      ensures State() == Reset(old(State()))
    {
      viewMode := OverviewMode;
      selectedSentenceId := None;
      focusedNodeId := None;
      selectedEmotion := None;
      selectedTopicId := None;
    }

    /** A click on graph node `n`, routed to the handler its type selects. */
    method HandleClick(n: GraphNode)
      modifies this
      ensures State() == Dispatch(old(State()), Click(n))
    {
      var r := Click(n);
      match r
      case SelectEmotion(e) => HandleSelectEmotion(e);
      case SelectTopic(t) => HandleSelectTopic(t);
      case SelectSentence(s) => HandleSelectSentence(s);
      case FocusActor(id) => HandleFocusActorNode(Some(id));
      case NoRequest =>
    }
  }

  // ------------------------------------------------------------------ properties

  /** Selecting a sentence enters sentence mode and clears the other three
      selections; deselecting leaves sentence mode for the overview and
      touches nothing else. */
  lemma SelectSentenceSpec(st: ViewState, id: Option<string>)
    ensures var r := OnSelectSentence(st, id);
      r.sentence == id &&
      (Truthy(id) ==> r.mode == SentenceMode && r.focus == None && r.emotion == None && r.topic == None) &&
      (!Truthy(id) ==> (r.mode == (if st.mode == SentenceMode then OverviewMode else st.mode) &&
        r.focus == st.focus && r.emotion == st.emotion && r.topic == st.topic))
  {
  }

  /** Focusing an actor enters actor mode and clears sentence, emotion and
      topic; unfocusing leaves actor mode only. */
  lemma FocusActorSpec(st: ViewState, id: Option<string>)
    ensures var r := OnFocusActor(st, id);
      r.focus == id &&
      (Truthy(id) ==> r.mode == ActorMode && r.sentence == None && r.emotion == None && r.topic == None) &&
      (!Truthy(id) ==> (r.mode == (if st.mode == ActorMode then OverviewMode else st.mode) &&
        r.sentence == st.sentence && r.emotion == st.emotion && r.topic == st.topic))
  {
  }

  /** Selecting an emotion clears topic, sentence and focus; deselecting
      always returns to the overview, leaving the topic selection as it was. */
  lemma SelectEmotionSpec(st: ViewState, e: Option<string>)
    ensures var r := OnSelectEmotion(st, e);
      r.emotion == e &&
      (Truthy(e) ==> r.mode == EmotionMode && r.topic == None && r.sentence == None && r.focus == None) &&
      (!Truthy(e) ==> r.mode == OverviewMode && r.topic == st.topic && r.sentence == st.sentence && r.focus == st.focus)
  {
  }

  /** Selecting a topic keeps the emotion; deselecting falls back to the
      emotion view when an emotion is selected, else to the overview. */
  lemma SelectTopicSpec(st: ViewState, t: Option<string>)
    ensures var r := OnSelectTopic(st, t);
      r.topic == t && r.emotion == st.emotion &&
      (Truthy(t) ==> r.mode == TopicMode && r.sentence == None && r.focus == None) &&
      (!Truthy(t) ==> (r.mode == (if Truthy(st.emotion) then EmotionMode else OverviewMode) &&
        r.sentence == st.sentence && r.focus == st.focus))
  {
  }

  /** Reset forgets everything: whatever the state, it yields the initial one. */
  lemma ResetSpec(st: ViewState)
    ensures Reset(st) == Initial
    ensures Reset(Reset(st)) == Reset(st)
  {
  }

  /** Every mode other than the overview has its selection. */
  predicate Consistent(st: ViewState) {
    (st.mode == EmotionMode ==> Truthy(st.emotion)) &&
    (st.mode == TopicMode ==> Truthy(st.topic)) &&
    (st.mode == SentenceMode ==> Truthy(st.sentence)) &&
    (st.mode == ActorMode ==> Truthy(st.focus))
  }

  lemma StepConsistent(st: ViewState, ev: Event)
    requires Consistent(st)
    ensures Consistent(Step(st, ev))
  {
  }

  /** From the initial state, any sequence of handler calls keeps every
      non-overview mode backed by its selection. */
  lemma {:induction false} RunConsistent(evs: seq<Event>)
    ensures Consistent(Run(Initial, evs))
  {
    if evs != [] {
      RunConsistent(evs[..|evs| - 1]);
      StepConsistent(Run(Initial, evs[..|evs| - 1]), evs[|evs| - 1]);
    }
  }

  /** Clicking the same node twice has the effect of clicking it once: a
      repeated click never steps back a level. */
  lemma ClickIdempotent(st: ViewState, n: GraphNode)
    ensures Dispatch(Dispatch(st, Click(n)), Click(n)) == Dispatch(st, Click(n))
  {
  }

  /** A click keeps the state consistent. */
  lemma ClickConsistent(st: ViewState, n: GraphNode)
    requires Consistent(st)
    ensures Consistent(Dispatch(st, Click(n)))
  {
  }

  // ------------------------------------------------------------------ the click listener as bound

  /** A graph click as the listener actually runs it. The listener is bound
      when the graph data changes, so the handlers it calls read the mode and
      the emotion of the state `cap` captured at that render, while their
      writes go to the current state `st`. */
  function StaleDispatch(st: ViewState, cap: ViewState, r: Request): ViewState {
    match r
    case SelectEmotion(e) => OnSelectEmotion(st, e)
    case SelectTopic(t) =>
      if Truthy(t) then OnSelectTopic(st, t)
      else st.(topic := t, mode := if Truthy(cap.emotion) then EmotionMode else OverviewMode)
    case SelectSentence(id) =>
      if Truthy(id) then OnSelectSentence(st, id)
      else st.(sentence := id, mode := if cap.mode == SentenceMode then OverviewMode else st.mode)
    case FocusActor(id) =>
      if Truthy(Some(id)) then OnFocusActor(st, Some(id))
      else st.(focus := Some(id), mode := if cap.mode == ActorMode then OverviewMode else st.mode)
    case NoRequest => st
  }

  /** While the mode and the emotion are those captured, the bound listener
      does what the current handlers do. */
  lemma StaleDispatchAgrees(st: ViewState, cap: ViewState, r: Request)
    requires cap.mode == st.mode && cap.emotion == st.emotion
    ensures StaleDispatch(st, cap, r) == Dispatch(st, r)
  {
  }

  /** The listener bound at data load, with the view since moved to sentence
      mode, keeps sentence mode with no sentence on a click on a Sentence node
      whose sentence id is empty. */
  lemma StaleClickBreaks()
    ensures var st := ViewState(SentenceMode, None, None, None, Some("s1"));
      var n := GraphNode("sn_t_", "", "Sentence", Some("WUT"), None, Some("t"), Some(""), Some(false), SentenceProperties(""));
      Consistent(st) && Consistent(Initial) &&
      StaleDispatch(st, Initial, Click(n)) == ViewState(SentenceMode, None, None, None, None) &&
      !Consistent(StaleDispatch(st, Initial, Click(n))) && Consistent(Dispatch(st, Click(n)))
  {
  }

  // ------------------------------------------------------------------ colours

  const GREY := "rgba(113, 113, 122, 1)"

  const EMOTION_COLORS: map<string, string> := map[
    "ANGST" := "rgba(76, 148, 246, 1)",
    "WUT" := "rgba(195, 68, 61, 1)",
    "FREUDE" := "rgba(255, 244, 79, 1)",
    "EKEL" := "rgba(255, 159, 67, 1)",
    "TRAUER" := "rgba(34, 34, 34, 1)",
    "NEUTRAL" := GREY,
    "HOFFNUNG" := "rgba(59, 211, 155, 1)"]

  /** The colour of an emotion label, looked up upper-cased; grey for a
      missing, empty or unknown label. */
  function EmotionColor(lbl: Option<string>): string {
    if !Truthy(lbl) then GREY
    else var upper := ToUpper(lbl.value);
      if upper in EMOTION_COLORS then EMOTION_COLORS[upper] else GREY
  }

  /** The colour table has exactly the seven wheel emotions as keys. */
  lemma ColorKeys()
    ensures forall k :: k in EMOTION_COLORS <==> k in WHEEL_EMOTIONS
  {
  }

  lemma {:induction false} ToUpperIdempotent(s: string)
    ensures ToUpper(ToUpper(s)) == ToUpper(s)
  {
    var a := ToUpper(s);
    var b := ToUpper(a);
    assert |b| == |s|;
    forall i | 0 <= i < |s| ensures b[i] == a[i] {
    }
  }

  lemma GreyKeys(u: string)
    ensures (if u in EMOTION_COLORS then EMOTION_COLORS[u] else GREY) == GREY <==>
      u !in ["ANGST", "WUT", "FREUDE", "EKEL", "TRAUER", "HOFFNUNG"]
  {
  }

  /** A label is grey exactly when it is missing, empty, NEUTRAL or not a
      wheel emotion in any letter case; the colour ignores letter case. */
  lemma EmotionColorProperties(lbl: string)
    ensures EmotionColor(Some(lbl)) == GREY <==>
      ToUpper(lbl) !in ["ANGST", "WUT", "FREUDE", "EKEL", "TRAUER", "HOFFNUNG"]
    ensures EmotionColor(Some(ToUpper(lbl))) == EmotionColor(Some(lbl))
    ensures EmotionColor(None) == GREY
  {
    var u := ToUpper(lbl);
    ToUpperIdempotent(lbl);
    GreyKeys(u);
    if lbl == "" {
      assert u == "";
    } else {
      assert |u| == |lbl|;
      assert EmotionColor(Some(lbl)) == (if u in EMOTION_COLORS then EMOTION_COLORS[u] else GREY);
    }
  }
}
