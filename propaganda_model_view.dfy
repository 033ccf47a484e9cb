/** The selection controller of components/PropagandaModelView.tsx. It keeps
    the same four pieces of view state as the unified view but owns no
    sentence selection: sentence choices (and the reset) are only forwarded
    to the parent through `onSelectNode`, modelled as the list of ids the
    parent has been sent. */
module PropagandaModelView {
  import opened Wrappers
  import opened Types
  import opened PropagandaGraph
  import opened PropagandaGraphView

  datatype ModelState = ModelState(
    mode: GraphViewMode,
    focus: Option<string>,
    emotion: Option<string>,
    topic: Option<string>,
    notified: seq<Option<string>>)

  /** Overview, nothing selected, nothing forwarded yet. */
  const Initial := ModelState(OverviewMode, None, None, None, [])

  // ------------------------------------------------------------------ reducers

  function OnSelectSentence(st: ModelState, id: Option<string>): ModelState {
    var sent := st.(notified := st.notified + [id]);
    if Truthy(id) then sent.(mode := SentenceMode, emotion := None, topic := None)
    else sent.(mode := if st.mode == SentenceMode then OverviewMode else st.mode)
  }

  function OnFocusActor(st: ModelState, id: Option<string>): ModelState {
    if Truthy(id) then st.(focus := id, mode := ActorMode, emotion := None, topic := None)
    else st.(focus := id, mode := if st.mode == ActorMode then OverviewMode else st.mode)
  }

  function OnSelectEmotion(st: ModelState, e: Option<string>): ModelState {
    if Truthy(e) then st.(emotion := e, mode := EmotionMode, topic := None)
    else st.(emotion := e, mode := OverviewMode)
  }

  function OnSelectTopic(st: ModelState, t: Option<string>): ModelState {
    if Truthy(t) then st.(topic := t, mode := TopicMode)
    else st.(topic := t, mode := if Truthy(st.emotion) then EmotionMode else OverviewMode)
  }

  function OnReset(st: ModelState): ModelState {
    ModelState(OverviewMode, None, None, None, st.notified + [None])
  }

  function Dispatch(st: ModelState, r: Request): ModelState {
    match r
    case SelectEmotion(e) => OnSelectEmotion(st, e)
    case SelectTopic(t) => OnSelectTopic(st, t)
    case SelectSentence(s) => OnSelectSentence(st, s)
    case FocusActor(id) => OnFocusActor(st, Some(id))
    case NoRequest => st
  }

  datatype Event = SentenceEvent(id: Option<string>) | ActorEvent(id: Option<string>)
    | EmotionEvent(e: Option<string>) | TopicEvent(t: Option<string>) | ResetEvent

  function Step(st: ModelState, ev: Event): ModelState {
    match ev
    case SentenceEvent(id) => OnSelectSentence(st, id)
    case ActorEvent(id) => OnFocusActor(st, id)
    case EmotionEvent(e) => OnSelectEmotion(st, e)
    case TopicEvent(t) => OnSelectTopic(st, t)
    case ResetEvent => OnReset(st)
  }

  function Run(st: ModelState, evs: seq<Event>): ModelState {
    if evs == [] then st else Step(Run(st, evs[..|evs| - 1]), evs[|evs| - 1])
  }

  // ------------------------------------------------------------------ the handlers in place

  class ModelView {
    var viewMode: GraphViewMode
    var focusedNodeId: Option<string>
    var selectedEmotion: Option<string>
    var selectedTopicId: Option<string>
    /** Every id handed to `onSelectNode`, in order. */
    var sentToParent: seq<Option<string>>

    function State(): ModelState
      reads this
    {
      ModelState(viewMode, focusedNodeId, selectedEmotion, selectedTopicId, sentToParent)
    }

    constructor ()
      ensures State() == Initial
    {
      viewMode := OverviewMode;
      focusedNodeId := None;
      selectedEmotion := None;
      selectedTopicId := None;
      sentToParent := [];
    }

    method HandleSelectSentence(id: Option<string>)
      modifies this
      ensures State() == OnSelectSentence(old(State()), id)
    {
      sentToParent := sentToParent + [id];
      if Truthy(id) {
        viewMode := SentenceMode;
        selectedEmotion := None;
        selectedTopicId := None;
      } else if viewMode == SentenceMode {
        viewMode := OverviewMode;
      }
    }

    method HandleFocusActorNode(id: Option<string>)
      modifies this
      ensures State() == OnFocusActor(old(State()), id)
    {
      focusedNodeId := id;
      if Truthy(id) {
        viewMode := ActorMode;
        selectedEmotion := None;
        selectedTopicId := None;
      } else if viewMode == ActorMode {
        viewMode := OverviewMode;
      }
    }

    method HandleSelectEmotion(e: Option<string>)
      modifies this
      ensures State() == OnSelectEmotion(old(State()), e)
    {
      selectedEmotion := e;
      if Truthy(e) {
        viewMode := EmotionMode;
        selectedTopicId := None;
      } else {
        viewMode := OverviewMode;
      }
    }

    method HandleSelectTopic(t: Option<string>)
      modifies this
      ensures State() == OnSelectTopic(old(State()), t)
    {
      selectedTopicId := t;
      if Truthy(t) {
        viewMode := TopicMode;
      } else if Truthy(selectedEmotion) {
        viewMode := EmotionMode;
      } else {
        viewMode := OverviewMode;
      }
    }

    method HandleResetOverview()
      modifies this
      ensures State() == OnReset(old(State()))
    {
      viewMode := OverviewMode;
      focusedNodeId := None;
      selectedEmotion := None;
      selectedTopicId := None;
      sentToParent := sentToParent + [None];
    }

    method HandleClick(n: GraphNode)
      modifies this
      ensures State() == Dispatch(old(State()), Click(n))
    {
      var r := Click(n);
      match r
      case SelectEmotion(e) => HandleSelectEmotion(e);
      case SelectTopic(t) => HandleSelectTopic(t);
      case SelectSentence(s) => HandleSelectSentence(s);
      case FocusActor(id) => HandleFocusActorNode(Some(id));
      case NoRequest =>
    }
  }

  // ------------------------------------------------------------------ properties

  /** A sentence choice is always forwarded. Selecting enters sentence mode
      and clears emotion and topic, but keeps the focused actor; deselecting
      leaves sentence mode only. */
  lemma SelectSentenceSpec(st: ModelState, id: Option<string>)
    ensures var r := OnSelectSentence(st, id);
      r.notified == st.notified + [id] && r.focus == st.focus &&
      (Truthy(id) ==> r.mode == SentenceMode && r.emotion == None && r.topic == None) &&
      (!Truthy(id) ==> (r.mode == (if st.mode == SentenceMode then OverviewMode else st.mode) &&
        r.emotion == st.emotion && r.topic == st.topic))
  {
  }

  /** Focusing an actor enters actor mode and clears emotion and topic, and
      forwards nothing; unfocusing leaves actor mode only. */
  lemma FocusActorSpec(st: ModelState, id: Option<string>)
    ensures var r := OnFocusActor(st, id);
      r.focus == id && r.notified == st.notified &&
      (Truthy(id) ==> r.mode == ActorMode && r.emotion == None && r.topic == None) &&
      (!Truthy(id) ==> (r.mode == (if st.mode == ActorMode then OverviewMode else st.mode) &&
        r.emotion == st.emotion && r.topic == st.topic))
  {
  }

  /** Selecting an emotion clears only the topic; deselecting goes to the overview. */
  lemma SelectEmotionSpec(st: ModelState, e: Option<string>)
    ensures var r := OnSelectEmotion(st, e);
      r.emotion == e && r.focus == st.focus && r.notified == st.notified &&
      (Truthy(e) ==> r.mode == EmotionMode && r.topic == None) &&
      (!Truthy(e) ==> r.mode == OverviewMode && r.topic == st.topic)
  {
  }

  /** Selecting a topic changes nothing but topic and mode; deselecting falls
      back to the emotion view when an emotion is selected. */
  lemma SelectTopicSpec(st: ModelState, t: Option<string>)
    ensures var r := OnSelectTopic(st, t);
      r.topic == t && r.emotion == st.emotion && r.focus == st.focus && r.notified == st.notified &&
      r.mode == (if Truthy(t) then TopicMode else if Truthy(st.emotion) then EmotionMode else OverviewMode)
  {
  }

  /** Reset clears the view state and forwards a deselection. */
  lemma ResetSpec(st: ModelState)
    ensures OnReset(st).(notified := []) == Initial
    ensures OnReset(st).notified == st.notified + [None]
    ensures OnReset(OnReset(st)).(notified := []) == OnReset(st).(notified := [])
  {
  }

  /** Every mode other than the overview has its selection; in sentence mode
      the last id forwarded to the parent is a real one. */
  predicate Consistent(st: ModelState) {
    (st.mode == EmotionMode ==> Truthy(st.emotion)) &&
    (st.mode == TopicMode ==> Truthy(st.topic)) &&
    (st.mode == ActorMode ==> Truthy(st.focus)) &&
    (st.mode == SentenceMode ==> st.notified != [] && Truthy(st.notified[|st.notified| - 1]))
  }

  lemma StepConsistent(st: ModelState, ev: Event)
    requires Consistent(st)
    ensures Consistent(Step(st, ev))
  {
  }

  lemma {:induction false} RunConsistent(evs: seq<Event>)
    ensures Consistent(Run(Initial, evs))
  {
    if evs != [] {
      RunConsistent(evs[..|evs| - 1]);
      StepConsistent(Run(Initial, evs[..|evs| - 1]), evs[|evs| - 1]);
    }
  }

  /** A click keeps the state consistent, and repeating it changes the view
      state no further (only the forwarded list grows for sentence clicks). */
  lemma ClickProperties(st: ModelState, n: GraphNode)
    requires Consistent(st)
    ensures Consistent(Dispatch(st, Click(n)))
    ensures Dispatch(Dispatch(st, Click(n)), Click(n)).(notified := []) == Dispatch(st, Click(n)).(notified := [])
  {
  }

  /** A graph click as the listener actually runs it: bound when the graph
      data changes, its handlers read the mode and the emotion of the state
      `cap` captured then, while their writes go to the current state `st`. */
  function StaleDispatch(st: ModelState, cap: ModelState, r: Request): ModelState {
    match r
    case SelectEmotion(e) => OnSelectEmotion(st, e)
    case SelectTopic(t) =>
      if Truthy(t) then OnSelectTopic(st, t)
      else st.(topic := t, mode := if Truthy(cap.emotion) then EmotionMode else OverviewMode)
    case SelectSentence(id) =>
      if Truthy(id) then OnSelectSentence(st, id)
      else st.(notified := st.notified + [id], mode := if cap.mode == SentenceMode then OverviewMode else st.mode)
    case FocusActor(id) =>
      if Truthy(Some(id)) then OnFocusActor(st, Some(id))
      else st.(focus := Some(id), mode := if cap.mode == ActorMode then OverviewMode else st.mode)
    case NoRequest => st
  }

  /** While the mode and the emotion are those captured, the bound listener
      does what the current handlers do. */
  lemma StaleDispatchAgrees(st: ModelState, cap: ModelState, r: Request)
    requires cap.mode == st.mode && cap.emotion == st.emotion
    ensures StaleDispatch(st, cap, r) == Dispatch(st, r)
  {
  }

  /** The listener bound at data load, with the view since moved to sentence
      mode, forwards null and stays in sentence mode on a click on a Sentence
      node whose sentence id is empty. */
  lemma StaleClickBreaks()
    ensures var st := ModelState(SentenceMode, None, None, None, [Some("s1")]);
      var n := GraphNode("sn_t_", "", "Sentence", Some("WUT"), None, Some("t"), Some(""), Some(false), SentenceProperties(""));
      Consistent(st) && Consistent(Initial) &&
      StaleDispatch(st, Initial, Click(n)) == ModelState(SentenceMode, None, None, None, [Some("s1"), None]) &&
      !Consistent(StaleDispatch(st, Initial, Click(n))) && Consistent(Dispatch(st, Click(n)))
  {
  }
}
