# Rhetorik-Scanner: a verified model of the analysis pipeline

The Rhetorik-Scanner ("rhetoricViewer") is a browser application for German news articles. It loads an article from a URL or takes pasted text, and it has a language model analyse it: emotion per sentence, pathos, topics, actor groups and their roles, and the media outlet's ownership. The answer is then shown in several linked views.

This project models the deterministic part of the application in Dafny. That part turns the model's answer into navigable structure:

- **`EmotionTopicActor`** (utils/emotionTopicActor.ts). The emotion → topic → actor aggregator, with the topic slug.
  - `BuildEmotionTopicActorAggregates` is the two-loop procedure over insertion-ordered maps.
  - It is proved equal to `Aggregates`, a first-occurrence grouping of the kept sentences with each group summarised.
  - Partition, ordering, mean and key-uniqueness laws are proved about `Aggregates`.
- **`ActorClusters`** (utils/emotionTopicActor.ts, the cluster step). What a topic's actor clusters hold, defined mention by mention.
  - A mention is a group entry that is not null and has a label. Its owner is the mention itself when its role is missing or empty, and otherwise the first mention with the same label and stored role (the role, or "Akteur").
  - Each owner opens one cluster, which holds the mentions it owns. The find-or-create step of the aggregator is proved to build exactly these clusters.
  - A role-less mention therefore always opens a singleton "Akteur" cluster. A mention whose role is literally "Akteur" joins the first cluster of that label storing "Akteur", which can be one a role-less mention opened.
- **`PropagandaGraph`** (components/PropagandaGraph.tsx, the `graphData` memo). The node/edge projector.
  - Per topic it builds one Topic node, a wheel of seven emotion spokes, and one node plus one attach edge per resolving sentence id.
  - After those come the copied seed nodes.
  - `BuildGraph` is the loop procedure; it is proved equal to `GraphOf`.
- **`PropagandaGraphView`** (the same component's effects). Which nodes the view-mode effect pins, the highlight set, and the request a node click makes.
  - The pins are an `array` parallel to the node list and are written in place.
- **`UnifiedAnalysisView`** and **`PropagandaModelView`**. The two selection controllers, each a class whose handler methods are proved to match a reducer function.
  - An invariant is proved that every reachable state keeps.
- **`GeminiService`** (services/geminiService.ts). The service helpers:
  - the 32-bit cache-key hash;
  - the clean-up of the JSON answer;
  - URL normalisation;
  - the proxy fallback loop;
  - the extractor's text choice;
  - the cached analysis call with `localStorage` as a map.
- **`App`** (App.tsx). The analysis life cycle and the choice of screen.
- **`InfluenceMap`**, **`CircumplexPlot`**, **`SentimentDistribution`**. The ownership graph and entity panel; the emotion/topic grouping and sphere order; the emotion counts, percentages, order and badge.
- Support modules:
  - `Types` holds the records of types.ts.
  - `Wrappers` holds `Option`, `Result` and JavaScript truthiness.
  - `JsText` holds the JavaScript string operations used: `trim`, ASCII case mapping, `indexOf`, `substring`, `join`, `ToInt32` and decimal printing and parsing.
  - `Grouping` holds first-occurrence grouping (`Bucket1`, `Bucket2`) with its laws.
  - `StableSort` models the stable `Array.prototype.sort` with a count comparator.

The language model, `fetch`, the HTML parser, `JSON.parse` and `localStorage` are not modelled. Their answers are parameters of the operations that use them: functions from request to outcome, a list of proxy outcomes, and a map.

## Model

| member | source | states |
|---|---|---|
| EmotionTopicActor.Slugify | utils/emotionTopicActor.ts:40 | The slug keeps at most 30 characters of the lower-cased text and maps each of them to itself when it is in `[a-z0-9]`, else to `_`; an empty text is read as "general" |
| EmotionTopicActor.SlugifyProperties | utils/emotionTopicActor.ts:40 | A slug is never empty, uses only `[a-z0-9_]`, and slugging it again changes nothing |
| EmotionTopicActor.SlugifyOfSlug | utils/emotionTopicActor.ts:40 | A non-empty slug of at most 30 characters from `[a-z0-9_]` is its own slug |
| EmotionTopicActor.EmotionLabel | utils/emotionTopicActor.ts:52 | The emotion key is the upper-cased label, or "NEUTRAL" when the label is missing or empty; it is never empty and has no lower-case letter |
| EmotionTopicActor.Kept | utils/emotionTopicActor.ts:47-50 | The sentences the aggregator does not skip all carry an emotion record, and there are no more of them than inputs |
| EmotionTopicActor.KeptSnoc | utils/emotionTopicActor.ts:47-50 | A null sentence or one without an emotion is skipped; any other is kept, in input order |
| EmotionTopicActor.TopicIdPrefix | utils/emotionTopicActor.ts:52-56 | A topic id starts with the sentence's emotion key followed by "_topic_" |
| EmotionTopicActor.FindGroup | utils/emotionTopicActor.ts:79-82 | The lookup returns the first cluster whose label equals the group's name and whose stored role equals the raw incoming role, or -1 when there is none |
| EmotionTopicActor.AddGroupSkips | utils/emotionTopicActor.ts:80 | A null group entry, or one whose label is falsy, leaves the clusters unchanged |
| EmotionTopicActor.RolelessAppends | utils/emotionTopicActor.ts:81-87 | An entry without a role never matches a stored cluster (stored roles are never empty), so it always opens a new cluster with role "Akteur" |
| EmotionTopicActor.BuildEmotionTopicActorAggregates | utils/emotionTopicActor.ts:42-127 | The two loops compute exactly the declarative aggregates: the grouping of the kept sentences by emotion key and topic id, each group summarised |
| EmotionTopicActor.FirstPassPrefix | utils/emotionTopicActor.ts:49-50 | A sentence that is missing or has no emotion leaves the maps as they were; any other sentence takes exactly one grouping step |
| EmotionTopicActor.AddSentence | utils/emotionTopicActor.ts:49-97 | The first loop's body for one kept sentence is one step of the two-level grouping on the maps |
| EmotionTopicActor.AddToTopics | utils/emotionTopicActor.ts:58-76 | Finding or creating the topic record and adding the sentence is one step of the topic grouping |
| EmotionTopicActor.AddToTopicRecord | utils/emotionTopicActor.ts:74-96 | The topic record gains the sentence id, its pathos and its group mentions |
| EmotionTopicActor.AddGroupsLoop | utils/emotionTopicActor.ts:78-96 | The loop over a sentence's group entries applies the cluster step to each entry in order |
| EmotionTopicActor.SecondPass | utils/emotionTopicActor.ts:99-124 | The second loop yields one finished record per emotion, in insertion order |
| EmotionTopicActor.MeanTopicsLoop | utils/emotionTopicActor.ts:102-113 | Each topic's and each cluster's pathos sum is turned into a mean |
| EmotionTopicActor.TotalCountLoop | utils/emotionTopicActor.ts:115 | The emotion's sentence count is the sum of its topics' counts |
| EmotionTopicActor.TotalPathosLoop | utils/emotionTopicActor.ts:116 | The emotion's pathos total is the sum over its topics of mean times count |
| EmotionTopicActor.EmotionOrder | utils/emotionTopicActor.ts:45-60 | A missing input gives no emotions; otherwise there is one aggregate per distinct emotion key of the kept sentences, in first-occurrence order, with each key once |
| EmotionTopicActor.TopicOrder | utils/emotionTopicActor.ts:63-72 | An emotion's topics are its sentences' distinct topic ids, in first-occurrence order, with each id once |
| EmotionTopicActor.TopicContents | utils/emotionTopicActor.ts:62-76 | A topic holds the ids of exactly the kept sentences with its emotion and id, in input order, and never none. Its emotion is the enclosing one, its id starts with that emotion and "_topic_", its label is its first sentence's topic text, and its `avgPathos` is their mean pathos |
| EmotionTopicActor.TopicMember | utils/emotionTopicActor.ts:74-75 | Every id a topic holds belongs to a kept sentence with the topic's emotion |
| EmotionTopicActor.MeanTimesCount | utils/emotionTopicActor.ts:106-116 | Weighting a topic's mean pathos by its count gives back the sum, so the emotion total adds up pathos over its sentences |
| EmotionTopicActor.EmotionTotals | utils/emotionTopicActor.ts:115-122 | An emotion counts the kept sentences with its key, never none, and its `avgPathos` is their mean pathos |
| EmotionTopicActor.Partition | utils/emotionTopicActor.ts:75-115 | The emotions' counts together equal the number of kept sentences: each sentence is counted exactly once |
| EmotionTopicActor.TopicClusters | utils/emotionTopicActor.ts:78-95 | Every actor cluster has a non-empty label and role, and it holds a non-empty subset of its topic's sentence ids |
| ActorClusters.TopicClusterContents | utils/emotionTopicActor.ts:78-113 | A topic has one actor cluster per opening mention among its sentences' group entries, in mention order. Each cluster carries the opener's label and stored role, and the ids of the mentions that joined it, in mention order and never none. Its `avgPathos` is their summed pathos divided by their number |
| ActorClusters.GroupsOfClusters | utils/emotionTopicActor.ts:78-95 | The clusters that the cluster step builds from a topic's sentences are exactly the clusters defined mention by mention |
| ActorClusters.ClustersStep | utils/emotionTopicActor.ts:80-93 | Taking one more mention into account is one find-or-create step: an opening mention appends its singleton cluster, and any other mention grows its owner's cluster in place |
| ActorClusters.EveryMentionClustered | utils/emotionTopicActor.ts:81-91 | Every mention joins the cluster of its owner, which is among the clusters; a mention whose role is missing or empty always opens its own cluster |
| ActorClusters.Owner | utils/emotionTopicActor.ts:81-83 | A mention's owner is never later than the mention, and it has the same label and the same stored role |
| ActorClusters.FirstPair | utils/emotionTopicActor.ts:81-83 | The first mention with a given label and stored role, or -1 when there is none |
| ActorClusters.AddGroupsAsMentions | utils/emotionTopicActor.ts:79-80 | The cluster step over one sentence's entries is the step over those entries that are not null and carry a label |
| EmotionTopicActor.AggregatesWellKeyed | utils/emotionTopicActor.ts:52-67 | Emotion keys are distinct and have no lower-case letter; topic ids are distinct within an emotion and carry the emotion prefix |
| EmotionTopicActor.TopicIdsUnique | utils/emotionTopicActor.ts:52-56 | No topic id occurs twice in the whole result, not even under two different emotions |
| PropagandaGraph.CollectTopics | components/PropagandaGraph.tsx:86-92 | The nested loop over emotions and topics leaves the map keyed by topic id, with later topics overwriting earlier ones of the same id |
| PropagandaGraph.TopicsMapSpec | components/PropagandaGraph.tsx:86-92 | The map has one entry per distinct topic id, in order of first occurrence, holding the last topic with that id |
| PropagandaGraph.TopicsMapOfAggregates | components/PropagandaGraph.tsx:86-92 | On the aggregator's own output nothing is overwritten: the map lists every topic of every emotion once, in order |
| PropagandaGraph.FindSentence | components/PropagandaGraph.tsx:134 | The sentence lookup returns the first sentence with the id, or -1 when none has it |
| PropagandaGraph.PushWheel | components/PropagandaGraph.tsx:95-130 | A topic contributes its Topic node followed by its seven spokes, and the seven core edges |
| PropagandaGraph.PushSentences | components/PropagandaGraph.tsx:133-160 | The loop over a topic's sentence ids appends one node and one edge per resolving id; it fails exactly when a resolved sentence has no emotion record |
| PropagandaGraph.PushSentence | components/PropagandaGraph.tsx:133-159 | One sentence id: the call throws exactly when the id resolves to a sentence without an emotion record; a resolving id pushes its node and its edge, an unresolved one pushes nothing |
| PropagandaGraph.ProjectTopic | components/PropagandaGraph.tsx:95-160 | One topic's nodes and edges are the topic node, its wheel and its sentence nodes, or a failure when a resolved sentence has no emotion record |
| PropagandaGraph.ProjectTopics | components/PropagandaGraph.tsx:95-161 | The loop over the map yields every topic's nodes and edges in map order, or fails when any topic fails |
| PropagandaGraph.CopySeeds | components/PropagandaGraph.tsx:164-168 | The loop over the response's nodes appends a copy of every node that is neither a Sentence nor a Topic node |
| PropagandaGraph.BuildGraph | components/PropagandaGraph.tsx:80-171 | The memo gives an empty graph without seed nodes, a failure when a resolved sentence has no emotion, and otherwise the derived nodes followed by the kept seed copies, with only the derived edges |
| PropagandaGraph.WheelShape | components/PropagandaGraph.tsx:38-130 | Every wheel has seven spokes. Each spoke is a WheelNode of the topic, captioned by one letter and tied to the Topic node by a WHEEL_CORE edge |
| PropagandaGraph.SentencesAttached | components/PropagandaGraph.tsx:133-159 | A topic gets one Sentence node per sentence id that resolves, in the order of the ids. The `i`-th node carries the `i`-th resolving id, the id `sn_<topic>_<sentence>`, and the emotion key of the sentence that the id finds. The attach edges pair up with the nodes one to one: each ends at its node and starts at the spoke named by that emotion |
| PropagandaGraph.ResolvingAll | components/PropagandaGraph.tsx:134-135 | When every id of a topic resolves, the resolving ids are exactly the topic's ids |
| PropagandaGraph.OnWheel | components/PropagandaGraph.tsx:136-137 | An attach edge starts from a node of the topic's wheel exactly when the sentence's emotion is one of the seven wheel emotions |
| PropagandaGraph.DerivedTopics | components/PropagandaGraph.tsx:95-105 | The derived nodes contain exactly one Topic node per map entry, in map order |
| PropagandaGraph.SeedCopiesSpec | components/PropagandaGraph.tsx:164-168 | The kept seeds are exactly the copies of the seed nodes that are neither Sentence nor Topic nodes |
| PropagandaGraph.TopicNodesOfGraph | components/PropagandaGraph.tsx:95-168 | The graph's Topic nodes are exactly one per map entry: the response's own Topic nodes are never shown |
| PropagandaGraph.TopicSentenceResolves | components/PropagandaGraph.tsx:133-137 | With unique sentence ids, every id a topic holds resolves to a sentence that has an emotion record and whose key is the topic's emotion (the key of utils/emotionTopicActor.ts:52) |
| PropagandaGraph.AggregatedGraph | components/PropagandaGraph.tsx:133-159 | Fed the aggregates of its own sentences, with unique ids, the projection never fails. Every sentence id becomes a node, in order, and every node carries its topic's emotion, so it hangs on that emotion's spoke |
| PropagandaGraphView.WheelIndex | components/PropagandaGraph.tsx:189 | The wheel index of a label is its first position among the seven wheel emotions, or -1 |
| PropagandaGraphView.WheelIndexOfWheel | components/PropagandaGraph.tsx:189 | Every wheel emotion sits at its own index |
| PropagandaGraphView.ApplyViewMode | components/PropagandaGraph.tsx:173-220 | The anchor effect changes no pin while the svg, the container or the stored zoom behaviour is missing. Otherwise it writes, in place, the overview pins in the overview, the focus pins in topic mode with a selection, and no pin in any other mode |
| PropagandaGraphView.FirstDisplayUnpinned | components/PropagandaGraph.tsx:174-194 | With every pin still free, as on the first display of a graph, the overview would put each Topic node on its ring slot; the early exit leaves it free |
| PropagandaGraphView.ClearAll | components/PropagandaGraph.tsx:205-219 | Every pin is cleared |
| PropagandaGraphView.PinFocus | components/PropagandaGraph.tsx:204-216 | After the clearing, the selected node and the selected topic's spokes are pinned |
| PropagandaGraphView.PlaceTopic | components/PropagandaGraph.tsx:182-193 | Placing the i-th topic pins it to its ring slot and its spokes around it, and moves nothing else |
| PropagandaGraphView.PinSpokes | components/PropagandaGraph.tsx:187-193 | After the topic itself is pinned, the pass over the nodes puts exactly the wheel nodes naming that topic as parent on their spokes around its slot and changes no other pin |
| PropagandaGraphView.PinOverview | components/PropagandaGraph.tsx:180-200 | The overview loop leaves every node with its overview pin |
| PropagandaGraphView.UnpinOthers | components/PropagandaGraph.tsx:196-200 | After the topic loop, unpinning every node that is neither a Topic nor a WheelNode leaves exactly the overview pins |
| PropagandaGraphView.OverviewPins | components/PropagandaGraph.tsx:180-200 | In the overview, every Topic node sits on its own ring slot, and every WheelNode with a Topic parent sits on the spoke of its emotion around the last such parent. Every node that is neither is unpinned |
| PropagandaGraphView.RingSlotsDistinct | components/PropagandaGraph.tsx:182-183 | Two different Topic nodes never share a ring slot |
| PropagandaGraphView.FocusPins | components/PropagandaGraph.tsx:204-216 | In topic mode with a selection, only the first node with the selected id (at the origin) and the selected topic's WheelNodes (on spokes) are pinned. Nothing is pinned when no node has the id |
| PropagandaGraphView.VisibleIds | components/PropagandaGraph.tsx:372-388 | Adding ids node by node and edge by edge yields exactly the highlight set of the mode |
| PropagandaGraphView.OverviewVisible | components/PropagandaGraph.tsx:374-400 | The overview highlights exactly the Topic, WheelNode and Sentence ids; an edge is drawn iff both its endpoints are such ids |
| PropagandaGraphView.FocusVisible | components/PropagandaGraph.tsx:377-400 | With a topic selected, the set is the selected id, the ids of its children and both endpoints of every edge touching it; those nodes and edges are drawn |
| PropagandaGraphView.OtherModesVisible | components/PropagandaGraph.tsx:372-400 | In every other mode the set is empty: every node is drawn and no edge is |
| PropagandaGraphView.ClickDispatch | components/PropagandaGraph.tsx:269-274 | The node's type alone decides the request: WheelNode → emotion, Topic → topic, Sentence → sentence, Group/Outlet/Filter → actor focus, otherwise nothing. The request carries the node's own field or null |
| PropagandaGraphView.ClickBuiltTopic | components/PropagandaGraph.tsx:97-118 | Clicking a built Topic node selects that topic, and clicking one of its spokes selects the spoke's emotion |
| UnifiedAnalysisView.View.constructor | components/UnifiedAnalysisView.tsx:39-42 | The view starts in the overview with nothing selected |
| UnifiedAnalysisView.View.HandleSelectSentence | components/UnifiedAnalysisView.tsx:55-65 | The handler's writes produce the reducer's new state |
| UnifiedAnalysisView.SelectSentenceSpec | components/UnifiedAnalysisView.tsx:55-65 | Selecting a sentence enters sentence mode and clears focus, emotion and topic. Deselecting leaves sentence mode for the overview and touches nothing else |
| UnifiedAnalysisView.View.HandleFocusActorNode | components/UnifiedAnalysisView.tsx:67-77 | The handler's writes produce the reducer's new state |
| UnifiedAnalysisView.FocusActorSpec | components/UnifiedAnalysisView.tsx:67-77 | Focusing an actor enters actor mode and clears sentence, emotion and topic; unfocusing leaves actor mode only |
| UnifiedAnalysisView.View.HandleSelectEmotion | components/UnifiedAnalysisView.tsx:79-89 | The handler's writes produce the reducer's new state |
| UnifiedAnalysisView.SelectEmotionSpec | components/UnifiedAnalysisView.tsx:79-89 | Selecting an emotion clears topic, sentence and focus; deselecting always returns to the overview |
| UnifiedAnalysisView.View.HandleSelectTopic | components/UnifiedAnalysisView.tsx:91-102 | The handler's writes produce the reducer's new state |
| UnifiedAnalysisView.SelectTopicSpec | components/UnifiedAnalysisView.tsx:91-102 | Selecting a topic keeps the emotion and clears sentence and focus. Deselecting falls back to the emotion view when an emotion is selected, else to the overview |
| UnifiedAnalysisView.View.HandleResetOverview | components/UnifiedAnalysisView.tsx:104-110 | The handler's writes produce the reducer's new state |
| UnifiedAnalysisView.ResetSpec | components/UnifiedAnalysisView.tsx:104-110 | Reset yields the initial state from any state, and is idempotent |
| UnifiedAnalysisView.View.HandleClick | components/PropagandaGraph.tsx:269-274 | A node click runs the handler its type selects |
| UnifiedAnalysisView.RunConsistent | components/UnifiedAnalysisView.tsx:39-110 | From the initial state, after any sequence of handler calls, each non-overview mode has its selection |
| UnifiedAnalysisView.StepConsistent | components/UnifiedAnalysisView.tsx:55-110 | Each handler preserves that every non-overview mode has its selection |
| UnifiedAnalysisView.ClickIdempotent | components/PropagandaGraph.tsx:269-274 | Clicking the same node twice has the effect of clicking it once: a repeated click never steps back a level |
| UnifiedAnalysisView.ClickConsistent | components/PropagandaGraph.tsx:269-274 | A click keeps every non-overview mode backed by its selection |
| UnifiedAnalysisView.StaleDispatchAgrees | components/PropagandaGraph.tsx:269-274 | The click listener as bound at data load does what the current handlers do as long as the mode and the emotion have not changed since |
| UnifiedAnalysisView.StaleClickBreaks | components/PropagandaGraph.tsx:269-274 | With the listener bound at data load and the view since in sentence mode, a click on a Sentence node with an empty sentence id leaves sentence mode without a sentence, where the current handlers return to the overview |
| UnifiedAnalysisView.ColorKeys | components/UnifiedAnalysisView.tsx:16-24 | The colour table's keys are exactly the seven wheel emotions |
| UnifiedAnalysisView.EmotionColorProperties | components/UnifiedAnalysisView.tsx:16-30 | A missing label is grey; a present label is grey exactly when it is not one of the six non-neutral wheel emotions in some letter case; the colour ignores letter case |
| PropagandaModelView.ModelView.HandleSelectSentence | components/PropagandaModelView.tsx:36-46 | The handler's writes and its forwarding produce the reducer's new state |
| PropagandaModelView.SelectSentenceSpec | components/PropagandaModelView.tsx:36-46 | A sentence choice is always forwarded to the parent. Selecting enters sentence mode and clears emotion and topic but keeps the focus; deselecting leaves sentence mode only |
| PropagandaModelView.ModelView.HandleFocusActorNode | components/PropagandaModelView.tsx:48-57 | The handler's writes produce the reducer's new state |
| PropagandaModelView.FocusActorSpec | components/PropagandaModelView.tsx:48-57 | Focusing enters actor mode and clears emotion and topic, forwarding nothing; unfocusing leaves actor mode only |
| PropagandaModelView.ModelView.HandleSelectEmotion | components/PropagandaModelView.tsx:59-67 | The handler's writes produce the reducer's new state |
| PropagandaModelView.SelectEmotionSpec | components/PropagandaModelView.tsx:59-67 | Selecting an emotion clears only the topic; deselecting goes to the overview |
| PropagandaModelView.ModelView.HandleSelectTopic | components/PropagandaModelView.tsx:69-78 | The handler's writes produce the reducer's new state |
| PropagandaModelView.SelectTopicSpec | components/PropagandaModelView.tsx:69-78 | Selecting a topic changes only topic and mode. Deselecting falls back to the emotion view when an emotion is selected |
| PropagandaModelView.ModelView.HandleResetOverview | components/PropagandaModelView.tsx:80-87 | The handler's writes and its forwarding produce the reducer's new state |
| PropagandaModelView.ResetSpec | components/PropagandaModelView.tsx:80-87 | Reset restores the initial view state, forwards one deselection, and a second reset changes the view state no further |
| PropagandaModelView.ModelView.constructor | components/PropagandaModelView.tsx:25-28 | The view starts in the overview with nothing selected and nothing forwarded |
| PropagandaModelView.ModelView.HandleClick | components/PropagandaModelView.tsx:114-127 | A node click runs the handler its type selects |
| PropagandaModelView.RunConsistent | components/PropagandaModelView.tsx:25-87 | From the initial state, every non-overview mode has its selection, and in sentence mode the last id forwarded is a real one |
| PropagandaModelView.StepConsistent | components/PropagandaModelView.tsx:36-87 | Each handler preserves that invariant |
| PropagandaModelView.ClickProperties | components/PropagandaGraph.tsx:269-274 | A click keeps the invariant, and repeating it changes the view state no further |
| PropagandaModelView.StaleDispatchAgrees | components/PropagandaGraph.tsx:269-274 | The click listener as bound at data load does what the current handlers do as long as the mode and the emotion have not changed since |
| PropagandaModelView.StaleClickBreaks | components/PropagandaGraph.tsx:269-274 | With the listener bound at data load and the view since in sentence mode, a click on a Sentence node with an empty sentence id forwards null and stays in sentence mode, where the current handlers return to the overview |
| GeminiService.HashOf | services/geminiService.ts:11-15 | The hash stays a signed 32-bit integer |
| GeminiService.GenerateCacheKey | services/geminiService.ts:9-17 | The hashing loop computes the key of the declarative definition: each step multiplies by 31, adds the character's code and cuts back to 32 bits |
| GeminiService.CacheKeyShape | services/geminiService.ts:9-17 | The key is "wue_cache_v16_", the prefix, "_" and the decimal form of a signed 32-bit hash of the arguments joined by "\|\|\|" |
| GeminiService.CacheKeyIffHash | services/geminiService.ts:9-17 | Two keys with the same prefix are equal exactly when the hashes of the joined arguments are |
| GeminiService.IntToDecimalInjective | services/geminiService.ts:16 | Different hashes print differently |
| GeminiService.SignChar | services/geminiService.ts:16 | Only a negative hash prints with a leading minus sign |
| GeminiService.SeparatorCollision | services/geminiService.ts:10 | An argument containing the separator collides with an argument boundary: ("a\|\|\|b", "") and ("a", "b\|\|\|") share a key |
| GeminiService.CutBracesCases | services/geminiService.ts:38-43 | With a brace missing, the stripped text is returned. With the first `{` before the last `}`, the object between them, braces included. With them the other way round, `substring` swaps its bounds and yields the brace-free text strictly between them |
| GeminiService.CutBracesOrdered | services/geminiService.ts:38-41 | With the first `{` before the last `}`, the result runs from that `{` to that `}` |
| GeminiService.CutBracesSwapped | services/geminiService.ts:38-41 | With the last `}` before the first `{`, the result is the text strictly between them and contains no brace |
| GeminiService.CleanJsonOfObject | services/geminiService.ts:34-44 | An object text comes back unchanged |
| GeminiService.StripFencesOfFenced | services/geminiService.ts:36 | The two replacements remove an opening "```json" fence and a closing fence, with the white space next to them |
| GeminiService.CleanJsonOfFenced | services/geminiService.ts:34-44 | A fenced object, whatever white space surrounds it, comes back as exactly the object |
| GeminiService.CleanJsonIdempotent | services/geminiService.ts:34-44 | Once an object has been cut out, cleaning again changes nothing |
| GeminiService.NormalizeUrlProperties | services/geminiService.ts:46-52 | The trimmed URL is kept when it starts with http:// or https:// in any case, and gets "https://" in front otherwise. The result is trimmed and has a scheme, and normalising again changes nothing |
| GeminiService.FetchWithProxy | services/geminiService.ts:430-455 | The proxy loop returns the declarative outcome |
| GeminiService.FetchResultSpec | services/geminiService.ts:437-454 | The page is found iff some proxy's answer is accepted. It is then the first accepted answer, every earlier answer was rejected, and it is longer than 200 characters; otherwise the load error is raised |
| GeminiService.Meaningful | services/geminiService.ts:302-305 | The kept heading and paragraph texts are trimmed, longer than 20 characters, and no more than the blocks |
| GeminiService.ContentToClean | services/geminiService.ts:302-307 | The text for the extractor is the joined meaningful texts when longer than 500 characters, else the body text, cut to at most 30000 characters |
| GeminiService.ExtractedText | services/geminiService.ts:314-316 | The extractor's answer is accepted iff its trimmed form has at least 150 characters, and then that trimmed form is returned; otherwise the extraction error is raised |
| GeminiService.ExtractArticleSpec | services/geminiService.ts:289-316 | The extractor fails with the load error when no proxy answer is accepted and passes on a failing model call. Otherwise it returns a trimmed text of at least 150 characters or the extraction error |
| GeminiService.Cache.constructor | services/geminiService.ts:19-32 | The cache starts empty |
| GeminiService.Cache.Save | services/geminiService.ts:28-32 | Saving sets the key's entry and keeps every other entry |
| GeminiService.AnalyzeArticle | services/geminiService.ts:319-428 | A cache hit answers with the stored analysis, with no model call and no write. On a miss the model's answer is checked; a parsed answer is stored under the key and returned, and a failure writes nothing |
| GeminiService.StoredAnswerHits | services/geminiService.ts:320-322 | After a successful answer, the same article and URL hit the cache and give the same analysis |
| GeminiService.AnswerErrors | services/geminiService.ts:416-427 | A miss succeeds iff the answer is non-empty and its cleaned text parses. Every failure is the model call's own exception, "Keine Antwort…" for an empty answer, or "…ungültig…" for one that does not parse |
| App.AppComponent.constructor | App.tsx:12-20 | The application starts on the tool page with empty inputs and no result, no error, and nothing loading |
| App.AppComponent.StartLoading | App.tsx:29-34 | Before anything is awaited, loading starts and error, result and sentence selection are cleared, on the tool page |
| App.AppComponent.Finish | App.tsx:45-51 | The catch and the finally branch record the result or the message and stop loading |
| App.AppComponent.HandleAnalyze | App.tsx:22-52 | The handler's writes produce the declarative outcome of the analysis |
| App.AnalyzedSpec | App.tsx:22-52 | A blank input leaves everything as it was. Otherwise the earlier result, error and selection are gone, the tool page is shown, loading has stopped, and exactly one of result and error is set |
| App.SettleSpec | App.tsx:36-51 | Settling sets the result on success and the message (or the fixed fallback) on failure, and changes nothing else but the loading flag |
| App.AnalyzedCalls | App.tsx:37-44 | In url mode the extracted text replaces the article text and the analyser gets it with the trimmed source; a failed extraction ends in its error. In text mode the analyser gets the trimmed text and "" |
| App.AnalyzedText | App.tsx:37-44 | In text mode the article text is kept and a result comes from the analyser called on the trimmed text with an empty source |
| App.AnalyzedUrl | App.tsx:39-48 | In url mode a successful extraction replaces the article text and feeds the analyser with the trimmed source; a failed one keeps the text, sets no result and shows the thrown message |
| App.BeginShowsResults | App.tsx:29-34 | While the services are awaited the results area is shown, never the hero |
| App.AppComponent.HandleUseExample | App.tsx:54-71 | The example action's writes produce the declarative outcome |
| App.ExampleRunSpec | App.tsx:54-71 | The example sets the fixed text and source and keeps page and selection. It ends with exactly one of result and error, and any result is the analysis of those constants |
| App.ScreenSpec | App.tsx:73-104 | The about page wins. On the tool page the hero shows exactly when there is no result, nothing is loading and no error is set; otherwise the results |
| App.SuccessShowsResults | App.tsx:44-73 | A successful analysis always leaves the hero for the results |
| App.ButtonGuards | components/Hero.tsx:168-190 | An enabled URL button always starts an analysis. The text button's length test does not imply a non-blank text: 100 spaces enable it, and the click then does nothing |
| InfluenceMap.BuildInfluenceGraph | components/InfluenceMap.tsx:33-69 | The outlet node comes first, pinned at the origin. Then comes one owner node per chain entry, in order, each with one OWNED_BY link to the outlet; there is one node more than links |
| InfluenceMap.EntityStyleProperties | components/InfluenceMap.tsx:13-25 | The style lookup ignores letter case and falls back to the person style, so Owner nodes get the person style and the outlet the source style |
| InfluenceMap.SourceStyle | components/InfluenceMap.tsx:13-25 | The outlet node, of type "Source", gets the source style |
| InfluenceMap.OwnerStyle | components/InfluenceMap.tsx:13-25 | An owner node, of type "Owner", is no key of the style table and gets the person style |
| InfluenceMap.EntityIdRoundTrip | components/InfluenceMap.tsx:150 | The index written into an owner's id is parsed back out of it |
| InfluenceMap.EntityIdsDistinct | components/InfluenceMap.tsx:37-50 | Different chain positions give different ids, and no owner id is the outlet's |
| InfluenceMap.ActiveEntityOfGraph | components/InfluenceMap.tsx:146-153 | A cleared selection shows nothing, the outlet shows the outlet's name with the fixed kind and relationship, and the i-th owner shows the i-th chain entry |
| InfluenceMap.ActiveEntityPastChain | components/InfluenceMap.tsx:150-152 | An owner id past the end of the chain makes the panel throw |
| InfluenceMap.Toggle | components/InfluenceMap.tsx:103 | A click clears the selection exactly when that node was selected, and otherwise selects it |
| InfluenceMap.EntitySelection.Click | components/InfluenceMap.tsx:103 | The click handler updates the selection by the toggle and leaves the hover as it was |
| InfluenceMap.EntitySelection.Enter | components/InfluenceMap.tsx:104 | Hovering records the node and keeps the selection |
| InfluenceMap.EntitySelection.Leave | components/InfluenceMap.tsx:105 | Leaving clears the hover and keeps the selection |
| InfluenceMap.FindOwnership | components/InfluenceMap.tsx:229 | The lookup finds the first filter named EIGENTUM, or none |
| InfluenceMap.OwnershipSummarySpec | components/InfluenceMap.tsx:229 | The text is the summary of the first EIGENTUM filter when that summary is not empty, and the fixed fallback otherwise |
| CircumplexPlot.GroupSentences | components/CircumplexPlot.tsx:54-64 | The loop fills the nested maps exactly as the grouping by emotion key and topic key, and throws (none) when a sentence has no label |
| CircumplexPlot.GroupedSpec | components/CircumplexPlot.tsx:56-64 | Every sentence lands in exactly one list: each list holds, in input order, exactly the sentences with its sphere's emotion key and its sector's topic key. Keys are distinct and no list is empty |
| CircumplexPlot.GroupedSphereKeys | components/CircumplexPlot.tsx:56-64 | No two spheres share an emotion key |
| CircumplexPlot.GroupedSectorKeys | components/CircumplexPlot.tsx:56-64 | No two sectors of one sphere share a topic key |
| CircumplexPlot.GroupedLists | components/CircumplexPlot.tsx:56-64 | Each list holds, in input order, exactly the sentences with its sphere's emotion key and its sector's topic key, and no list is empty |
| CircumplexPlot.BuildSphere | components/CircumplexPlot.tsx:82-113 | The per-sphere loops build the sectors and nodes topic by topic |
| CircumplexPlot.SphereSpec | components/CircumplexPlot.tsx:67-119 | Each sector counts its own list. The sphere has one node per sentence, topic by topic, with the sentence's id and the sphere's colour. The raw count equals the node count and the sum of the sector counts |
| CircumplexPlot.SphereContents | components/CircumplexPlot.tsx:56-112 | A sphere's nodes are exactly the sentences of its emotion |
| CircumplexPlot.RawSpheresTotal | components/CircumplexPlot.tsx:66-70 | No sentence is lost or duplicated: all spheres together hold one node per sentence |
| CircumplexPlot.EmotionSpheres | components/CircumplexPlot.tsx:53-124 | The memo groups, builds each sphere and sorts by node count |
| CircumplexPlot.SpheresSpec | components/CircumplexPlot.tsx:53-124 | The memo fails exactly when some sentence has no label. Otherwise the spheres hold all sentences, are in non-increasing node count, are the grouped spheres, and keep first-occurrence order on ties |
| CircumplexPlot.ClickSpec | components/CircumplexPlot.tsx:195 | Clicking the selected sentence deselects it and clicking any other selects it; a second click undoes the first |
| SentimentDistribution.CountEmotions | components/SentimentDistribution.tsx:31-35 | The reduction yields the first-occurrence counts per emotion key, and throws (none) when a sentence has no label |
| SentimentDistribution.EmotionCountsSpec | components/SentimentDistribution.tsx:31-35 | Each key occurs once, the keys are exactly those of the sentences, each count is that key's number of sentences and at least one, and the counts add up to the total |
| SentimentDistribution.EmotionalSpec | components/SentimentDistribution.tsx:37-39 | The emotional and neutral counts lie in [0, total] and add up to it. Because the filter does not trim, the neutral count never exceeds the sentences counted under "neutral" |
| SentimentDistribution.UntrimmedNeutral | components/SentimentDistribution.tsx:32-37 | A label " neutral" is counted under the key "neutral" and yet as emotional |
| SentimentDistribution.PercentSpec | components/SentimentDistribution.tsx:41-42 | In exact arithmetic the two percentages add up to 100, and so do the bar widths |
| SentimentDistribution.SortedEmotionsSpec | components/SentimentDistribution.tsx:44-45 | The entries are in non-increasing count order and are a permutation of the counts; entries of equal count keep their order |
| SentimentDistribution.SortedKeysDistinct | components/SentimentDistribution.tsx:44-45 | Sorting keeps each key once |
| SentimentDistribution.BadgeSpec | components/SentimentDistribution.tsx:54-59 | "hoch" and "mittel" get their own style and every other level the muted one. The text is the level, or "unbekannt" when it is absent or empty, so it is never empty |
| SentimentDistribution.RenderFigures | components/SentimentDistribution.tsx:28-45 | The component body computes the declarative rendering |
| SentimentDistribution.RenderSpec | components/SentimentDistribution.tsx:28-45 | No sentences render nothing. An unlabelled sentence makes it throw. Otherwise the figures are consistent: total, complementary counts, sums and a sorted list with distinct keys |
| StableSort.SortedByCount | components/SentimentDistribution.tsx:44-45 | Sorting with the comparator `count(b) - count(a)` yields non-increasing counts |
| StableSort.SortStable | components/CircumplexPlot.tsx:123 | The sort is stable: for every count, the elements with that count keep their input order |
| StableSort.CountSumSorted | components/CircumplexPlot.tsx:123 | Sorting neither adds nor loses any count |

## Left out

- Layout and rendering: the d3 force simulation, zoom, SVG/DOM output and tick handlers are not modelled. So are all coordinates: ring and wheel angles, radii, the Circumplex sectors, `sqrt` scaling and `currentAngle`. The pins are abstracted to a ring slot, the origin or a spoke index around a hub.
- Floating point: pathos means and percentages are exact reals, and `Math.round` and the opacity formulas are not modelled.
- Text: strings are sequences of Unicode code points (Dafny's `char`), where JavaScript strings are sequences of UTF-16 units. A character outside the Basic Multilingual Plane, such as an emoji, therefore counts once here and twice in the source. Case mapping and `trim`/`\s` cover ASCII only, because Unicode case and white-space tables are outside the model.
- GeminiService.GenerateCacheKey and GeminiService.HashOf: a character outside the Basic Multilingual Plane adds its code point once, where `charCodeAt` adds its two surrogate units one after the other, so such texts hash differently from the source.
- EmotionTopicActor.Slugify: a character outside the Basic Multilingual Plane becomes one `_`, where the source replaces each of its two UTF-16 units and writes `__`; the 30-character cap counts it once.
- GeminiService.Meaningful, GeminiService.ContentToClean, GeminiService.ExtractedText and GeminiService.FetchResultSpec: the 20, 500, 30000, 150 and 200 length thresholds count a character outside the Basic Multilingual Plane once, where the source counts two units.
- Foreign calls: the language model, `fetch`, `DOMParser`/`querySelectorAll`, `localStorage` and `JSON.parse` are parameters. The analysis schema and the prompts (services/geminiService.ts:56-285, 324-403) are configuration handed to the model and are not modelled.
- GeminiService.Cache.Save: a `setItem` failure (quota) is not modelled; the write always succeeds.
- GeminiService.AnalyzeArticle: it stores the cleaned answer text, where the source stores `JSON.stringify` of the parsed value. Both parse back to the same analysis, which is all a later lookup uses. The `ask` parameter depends on the article text only, because the prompt's URL part is not modelled.
- Concurrency: overlapping analyses in App.tsx, React batching, and the stale closures of the click listeners at components/InfluenceMap.tsx:103 and components/PropagandaGraph.tsx:269-274 are not modelled (the graph listener is described under "## Findings"). `InfluenceMap.Toggle` compares with the current selection, where the source compares with the value captured when the effect last ran. The handlers are modelled as sequential state updates.
- PropagandaGraphView.ApplyViewMode: the guard at components/PropagandaGraph.tsx:174 is the `ready` parameter. It is false on the first display of a graph: the zoom behaviour is stored only by the render effect (:238), which is declared after the anchor effect and so runs after it, and the anchor effect runs again only when the view mode, the selected topic or the node list changes (:220). The model does not derive `ready` from the effect order; the caller passes it (see "## Findings").
- UnifiedAnalysisView.View.HandleClick: it runs the current handlers on the current state. In the source the graph's click listener is bound in an effect keyed on the graph data (components/PropagandaGraph.tsx:269-274 with its dependencies at :367), so on a falsy click the handlers read the mode and the emotion of the render in which the data arrived. That behaviour is `UnifiedAnalysisView.StaleDispatch`, which agrees with the model as long as mode and emotion are unchanged (`UnifiedAnalysisView.StaleDispatchAgrees`).
- PropagandaModelView.ModelView.HandleClick: the same gap as the unified view's click; the listener as bound is `PropagandaModelView.StaleDispatch`, and `PropagandaModelView.StaleDispatchAgrees` says when both agree.
- UnifiedAnalysisView.ClickConsistent: it is proved for the current handlers only. With the listener as bound, a click on a Sentence node whose sentence id is "" after entering sentence mode keeps sentence mode with no sentence (`UnifiedAnalysisView.StaleClickBreaks`); the same happens in actor mode on an actor node whose id is "".
- PropagandaModelView.ClickProperties: its invariant half is proved for the current handlers only. With the listener as bound, the same click forwards null and stays in sentence mode (`PropagandaModelView.StaleClickBreaks`).
- JSON values: falsy non-string values (`0`, `false`) in fields read with `||` are not modelled; optional fields are `Option`, and the empty string counts as falsy.
- InfluenceMap.ActiveEntity: `parseInt` is modelled on decimal digits only. Leading white space and signs do not occur in ids this component builds.
- Object and Map key order: `Object.entries` lists integer-like keys first, and prototype keys could shadow a colour lookup. Emotion keys are modelled as insertion-ordered, as they are for non-numeric keys.
- SentimentDistribution.EmotionCounts and SentimentDistribution.CountEmotions: the count record at components/SentimentDistribution.tsx:31-35 is a plain JavaScript object, but it is modelled as a map from every string key. The model does not capture prototype keys: a label `constructor` reads the inherited function, so its count becomes a string, and a label `__proto__` sets the prototype and its sentence is not counted.
- The analysis response is assumed to hold an array of non-null sentences (`Analysis.sentences` is a `seq<Sentence>`). In the source, the graph memo's lookup at components/PropagandaGraph.tsx:134 throws on a missing array or a null entry. The aggregator model, by contrast, keeps both cases (`Option<seq<Option<Sentence>>>`).
- CircumplexPlot.GroupSentences: a sentence without a label makes the memo throw, modelled as `None`; the same holds for `SentimentDistribution.CountEmotions`.
- The scroll-into-view effect (components/UnifiedAnalysisView.tsx:112-119) and the presentation components (Header, AboutView, AnalysisCard, AnalysisResults, Hero beyond its two button guards) are not modelled, because they only render.
- Seed edges of the response are not forwarded into the graph, and the model does not forward them either.

## Findings

| source | as written | input that shows it | evidently intended | confidence | as-written member | corrected member |
|---|---|---|---|---|---|---|
| components/PropagandaGraph.tsx:269-274 | The click listener is bound once per graph data, so the unified view's handlers read the mode captured when the data arrived | Load an analysis with a sentence whose id is "" listed by a topic; click sentence "s1", then click the Sentence node of "" | A falsy sentence click in sentence mode returns to the overview, as the handler's own mode test at components/UnifiedAnalysisView.tsx:62-63 says | medium, not executed | UnifiedAnalysisView.StaleClickBreaks | UnifiedAnalysisView.ClickConsistent |
| components/PropagandaGraph.tsx:269-274 | The same listener calls the model view's handlers with the mode captured when the data arrived | The same two clicks in the model view | A falsy sentence click in sentence mode returns to the overview, as components/PropagandaModelView.tsx:43-44 says | medium, not executed | PropagandaModelView.StaleClickBreaks | PropagandaModelView.ClickProperties |
| components/PropagandaGraph.tsx:174 | The anchor effect returns while the zoom behaviour is not stored, and on the first display of a graph it is not stored yet, so no pin is written | Load any analysis: the view opens in the overview, and no Topic node is on its ring slot until the mode or the selected topic changes | The overview ring from the first display on; only the zoom transition needs the zoom behaviour | medium, not executed | PropagandaGraphView.FirstDisplayUnpinned | PropagandaGraphView.OverviewPins |

## Notes on code and description

- `cleanJson` is described as returning the text from the first `{` to the last `}`. When the last `}` comes before the first `{`, `substring` swaps its arguments. The code then returns the text strictly between them, and the model follows the code (`GeminiService.CutBracesSwapped`).
- The emotional count of SentimentDistribution does not trim the label while the counts do, so " neutral" counts as emotional but under the key "neutral". The model follows the code (`SentimentDistribution.UntrimmedNeutral`).
