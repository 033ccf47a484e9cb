/** The records of the analysis response the core works on (types.ts), reduced
    to the fields the core reads. Optional and nullable members are `Option`s;
    a JavaScript string that may be empty stays a `string` and its truthiness is
    checked explicitly. */
module Types {
  import opened Wrappers

  /** `{ label, intensity }` of a sentence (`label` is `name` here); the label may be missing at run time. */
  datatype EmotionScore = EmotionScore(name: Option<string>, intensity: real)

  /** One entry of `groups` (`{ label, role }`); either field may be missing or empty. */
  datatype GroupRef = GroupRef(name: Option<string>, role: Option<string>)

  datatype Frame = Frame(name: Option<string>)

  /** A sentence of the analysis. `emotion` and `groups` may be absent at run
      time, `pathos_score` may be absent, `groups` entries may be null. */
  datatype Sentence = Sentence(
    id: string,
    text: string,
    emotion: Option<EmotionScore>,
    pathos: Option<real>,
    topicMain: Option<string>,
    frames: seq<Frame>,
    groups: Option<seq<Option<GroupRef>>>)

  /** The pathos score of a sentence, or 0 when it is missing. */
  function PathosOf(s: Sentence): real {
    if s.pathos.Some? then s.pathos.value else 0.0
  }

  /** The sentence carries the emotion label its declared type promises. */
  predicate Labelled(s: Sentence) {
    s.emotion.Some? && s.emotion.value.name.Some?
  }

  function LabelOf(s: Sentence): string
    requires Labelled(s)
  {
    s.emotion.value.name.value
  }

  // ----------------------------------------------------------- influence

  datatype EntityType = OWNER | HOLDING | FOUNDATION | OTHER

  datatype OwnershipEntry = OwnershipEntry(level: int, entityName: string, entityType: EntityType, role: string)

  datatype FilterName = EIGENTUM | WERBUNG | SOURCING | FLAK | IDEOLOGIE

  datatype FilterEntry = FilterEntry(name: FilterName, score: real, summary: string)

  datatype Outlet = Outlet(name: string, domain: string)

  datatype Influence = Influence(outlet: Outlet, ownershipChain: seq<OwnershipEntry>, filters: seq<FilterEntry>)

  // ----------------------------------------------------------- graph

  /** The `properties` record of a node, by the kind of node that carries it. */
  datatype Properties =
    | NoProperties
    | TopicProperties(sentenceCount: nat)
    | WheelProperties(emotion: string, parentTopic: string)
    | SentenceProperties(text: string)
    | RoleProperties(role: string)
    | SeedProperties(entries: seq<(string, string)>)

  /** A graph node (`label` is `caption`, `type` is `ntype`) with the optional fields the views add to it. */
  datatype GraphNode = GraphNode(
    id: string,
    caption: string,
    ntype: string,
    emotionLabel: Option<string>,
    topicId: Option<string>,
    parentTopicId: Option<string>,
    sentenceId: Option<string>,
    isVirtual: Option<bool>,
    properties: Properties)

  /** A graph edge; `source`/`target` are node ids. */
  datatype GraphEdge = GraphEdge(id: string, source: string, target: string, etype: string)

  /** A node of the analysis response's own graph (`id`, `label`, `type`, `properties`). */
  datatype SeedNode = SeedNode(id: string, caption: string, ntype: string, properties: seq<(string, string)>)

  datatype SeedGraph = SeedGraph(nodes: Option<seq<SeedNode>>, edges: seq<GraphEdge>)

  datatype Analysis = Analysis(sentences: seq<Sentence>, influence: Influence, graph: Option<SeedGraph>)
}
