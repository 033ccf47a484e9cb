/** The emotion → topic → actor aggregation (utils/emotionTopicActor.ts).
    Sentences are partitioned by their upper-cased emotion label, then by a
    topic id built from the label and a slug of the topic text; inside each
    topic, actor mentions are clustered by (group label, role). A first loop
    fills insertion-ordered maps and accumulates pathos sums, a second loop
    turns the sums into means.

    `Aggregates` is the declarative reference: the first-occurrence grouping of
    the kept sentences (module Grouping) with each group summarised.
    `BuildEmotionTopicActorAggregates` is the two-loop procedure, proved to
    compute exactly that. */
module EmotionTopicActor {
  import opened Wrappers
  import opened JsText
  import opened Types
  import opened Grouping

  // ------------------------------------------------------------------ slugify

  predicate SlugChar(c: char) {
    'a' <= c <= 'z' || '0' <= c <= '9'
  }

  /** Every character outside `[a-z0-9]` becomes an underscore. */
  function ReplaceNonSlug(s: string): (r: string)
    ensures |r| == |s|
    ensures forall i :: 0 <= i < |s| ==> r[i] == if SlugChar(s[i]) then s[i] else '_'
  {
    if s == [] then [] else ReplaceNonSlug(s[..|s| - 1]) + [if SlugChar(s[|s| - 1]) then s[|s| - 1] else '_']
  }

  /** The topic slug: lower-case, every character outside `[a-z0-9]` becomes
      `_`, at most 30 characters; an empty text is read as "general". */
  function Slugify(text: string): (r: string)
    ensures var t := if text == "" then "general" else text;
      |r| == (if |t| < 30 then |t| else 30) &&
      forall i :: 0 <= i < |r| ==>
        r[i] == if SlugChar(LowerChar(t[i])) then LowerChar(t[i]) else '_'
  {
    JsSubstring(ReplaceNonSlug(ToLower(if text == "" then "general" else text)), 0, 30)
  }

  predicate IsSlug(s: string) {
    forall i :: 0 <= i < |s| ==> SlugChar(s[i]) || s[i] == '_'
  }

  /** A slug is non-empty, uses only `[a-z0-9_]`, and slugging it again changes nothing. */
  lemma {:induction false} SlugifyProperties(text: string)
    ensures Slugify(text) != [] && IsSlug(Slugify(text))
    ensures Slugify(Slugify(text)) == Slugify(text)
  {
    var r := Slugify(text);
    assert |r| > 0;
    assert IsSlug(r) by {
      forall i | 0 <= i < |r| ensures SlugChar(r[i]) || r[i] == '_' {
      }
    }
    SlugifyOfSlug(r);
  }

  /** A non-empty slug of at most 30 characters is its own slug. */
  lemma SlugifyOfSlug(s: string)
    requires s != [] && |s| <= 30 && IsSlug(s)
    ensures Slugify(s) == s
  {
    var r := Slugify(s);
    assert |r| == |s|;
    forall i | 0 <= i < |s| ensures r[i] == s[i] {
      assert LowerChar(s[i]) == s[i];
    }
  }

  // ------------------------------------------------------------------ keys

  /** The upper-cased emotion label, or "NEUTRAL" when the label is missing or empty. */
  function EmotionLabel(e: EmotionScore): (r: string)
    ensures r != "" && NoLower(r)
    ensures Truthy(e.name) ==> r == ToUpper(e.name.value)
    ensures !Truthy(e.name) ==> r == "NEUTRAL"
  {
    ToUpperNoLower(OrElse(e.name, ""));
    if Truthy(e.name) then ToUpper(e.name.value) else "NEUTRAL"
  }

  /** The sentences the first loop does not skip: present and carrying an emotion. */
  predicate Keep(o: Option<Sentence>) {
    o.Some? && o.value.emotion.Some?
  }

  function Kept(ss: seq<Option<Sentence>>): (r: seq<Sentence>)
    ensures |r| <= |ss|
    ensures forall i :: 0 <= i < |r| ==> r[i].emotion.Some?
  {
    if ss == [] then []
    else Kept(ss[..|ss| - 1]) + (if Keep(ss[|ss| - 1]) then [ss[|ss| - 1].value] else [])
  }

  lemma {:induction false} KeptSnoc(ss: seq<Option<Sentence>>, o: Option<Sentence>)
    ensures Kept(ss + [o]) == Kept(ss) + (if Keep(o) then [o.value] else [])
  {
    assert (ss + [o])[..|ss|] == ss;
  }

  lemma {:induction false} KeptMembers(ss: seq<Option<Sentence>>)
    ensures forall i :: 0 <= i < |Kept(ss)| ==> Some(Kept(ss)[i]) in ss
  {
    if ss != [] {
      var p := ss[..|ss| - 1];
      KeptMembers(p);
      assert forall x :: x in p ==> x in ss;
    }
  }

  /** The emotion key of a kept sentence (the label with the "NEUTRAL" fallback). */
  function LabelKey(s: Sentence): string {
    if s.emotion.Some? then EmotionLabel(s.emotion.value) else "NEUTRAL"
  }

  /** The main topic text, or "Allgemein" when it is missing or empty. */
  function TopicText(s: Sentence): string {
    OrElse(s.topicMain, "Allgemein")
  }

  /** The topic id: the emotion key, the infix `_topic_`, and the slug of the topic text. */
  function TopicId(s: Sentence): string {
    LabelKey(s) + "_topic_" + Slugify(TopicText(s))
  }

  // ------------------------------------------------------------------ records

  datatype GroupRoleAggregate = GroupRoleAggregate(groupLabel: string, role: string, sentenceIds: seq<string>, avgPathos: real)

  /** `label` of the source record is `topicLabel`. During the first loop
      `avgPathos` holds the running sum; the second loop divides it. */
  datatype TopicAggregate = TopicAggregate(
    id: string,
    topicLabel: string,
    emotion: string,
    sentenceIds: seq<string>,
    avgPathos: real,
    groups: seq<GroupRoleAggregate>)

  datatype EmotionAggregate = EmotionAggregate(emotion: string, topics: seq<TopicAggregate>, totalSentenceCount: nat, avgPathos: real)

  // ------------------------------------------------------------------ actor clusters

  /** The first cluster with this group name and exactly this role, as an index, or -1. */
  function FindGroup(gs: seq<GroupRoleAggregate>, name: string, role: Option<string>): (r: int)
    ensures -1 <= r < |gs|
    ensures r >= 0 ==> gs[r].groupLabel == name && role == Some(gs[r].role)
    ensures r >= 0 ==> forall i :: 0 <= i < r ==> !(gs[i].groupLabel == name && role == Some(gs[i].role))
    ensures r == -1 ==> forall i :: 0 <= i < |gs| ==> !(gs[i].groupLabel == name && role == Some(gs[i].role))
  {
    if gs == [] then -1
    else if gs[0].groupLabel == name && role == Some(gs[0].role) then 0
    else var r := FindGroup(gs[1..], name, role); if r == -1 then -1 else r + 1
  }

  /** One step over a sentence's group mentions: skip a null or label-less entry;
      otherwise find the cluster, creating it with the role, or "Akteur" when it is missing or empty, and
      add the sentence id and its pathos to it. */
  function AddGroup(gs: seq<GroupRoleAggregate>, g: Option<GroupRef>, sid: string, pathos: real): seq<GroupRoleAggregate> {
    if g.None? || !Truthy(g.value.name) then gs
    else
      var i := FindGroup(gs, g.value.name.value, g.value.role);
      if i < 0 then gs + [GroupRoleAggregate(g.value.name.value, OrElse(g.value.role, "Akteur"), [sid], pathos)]
      else gs[i := gs[i].(sentenceIds := gs[i].sentenceIds + [sid], avgPathos := gs[i].avgPathos + pathos)]
  }

  /** The group step over all the entries `refs`, in order. */
  function AddGroups(gs: seq<GroupRoleAggregate>, refs: seq<Option<GroupRef>>, sid: string, pathos: real): seq<GroupRoleAggregate> {
    if refs == [] then gs
    else AddGroup(AddGroups(gs, refs[..|refs| - 1], sid, pathos), refs[|refs| - 1], sid, pathos)
  }

  /** The sentence's group mentions when present, else none. */
  function GroupRefs(s: Sentence): seq<Option<GroupRef>> {
    if s.groups.Some? then s.groups.value else []
  }

  /** The clusters built from the sentences `h` of one topic, in order. */
  function GroupsOf(h: seq<Sentence>): seq<GroupRoleAggregate> {
    if h == [] then []
    else var x := h[|h| - 1]; AddGroups(GroupsOf(h[..|h| - 1]), GroupRefs(x), x.id, PathosOf(x))
  }

  // ------------------------------------------------------------------ summaries

  function Ids(h: seq<Sentence>): (r: seq<string>)
    ensures |r| == |h| && forall i :: 0 <= i < |h| ==> r[i] == h[i].id
  {
    if h == [] then [] else Ids(h[..|h| - 1]) + [h[|h| - 1].id]
  }

  function SumPathos(h: seq<Sentence>): real {
    SumOf(h, PathosOf)
  }

  /** The record a topic holds after the first loop has seen the sentences `h` of
      that topic (`avgPathos` still the sum). */
  function TopicOf(h: seq<Sentence>): TopicAggregate {
    if h == [] then TopicAggregate("", "", "", [], 0.0, [])
    else TopicAggregate(TopicId(h[0]), TopicText(h[0]), LabelKey(h[0]), Ids(h), SumPathos(h), GroupsOf(h))
  }

  function SummariseTopics(b: seq<(string, seq<Sentence>)>): (r: seq<(string, TopicAggregate)>)
    ensures |r| == |b| && forall j :: 0 <= j < |b| ==> r[j] == (b[j].0, TopicOf(b[j].1))
  {
    seq(|b|, j requires 0 <= j < |b| => (b[j].0, TopicOf(b[j].1)))
  }

  function SummariseEmotions(b: seq<(string, seq<(string, seq<Sentence>)>)>): (r: seq<(string, seq<(string, TopicAggregate)>)>)
    ensures |r| == |b| && forall i :: 0 <= i < |b| ==> r[i] == (b[i].0, SummariseTopics(b[i].1))
  {
    seq(|b|, i requires 0 <= i < |b| => (b[i].0, SummariseTopics(b[i].1)))
  }

  /** The two nested maps as the first loop leaves them after the sentences `kept`. */
  function FirstPass(kept: seq<Sentence>): seq<(string, seq<(string, TopicAggregate)>)> {
    SummariseEmotions(Bucket2(kept, LabelKey, TopicId))
  }

  // ------------------------------------------------------------------ second pass

  function MeanGroup(g: GroupRoleAggregate): GroupRoleAggregate {
    if |g.sentenceIds| > 0 then g.(avgPathos := g.avgPathos / (|g.sentenceIds| as real)) else g
  }

  function MeanGroups(gs: seq<GroupRoleAggregate>): (r: seq<GroupRoleAggregate>)
    ensures |r| == |gs| && forall i :: 0 <= i < |gs| ==> r[i] == MeanGroup(gs[i])
  {
    seq(|gs|, i requires 0 <= i < |gs| => MeanGroup(gs[i]))
  }

  /** Turns the sums of a topic and of its clusters into means. */
  function MeanTopic(t: TopicAggregate): TopicAggregate {
    var t' := t.(groups := MeanGroups(t.groups));
    if |t.sentenceIds| > 0 then t'.(avgPathos := t.avgPathos / (|t.sentenceIds| as real)) else t'
  }

  function TotalCount(ts: seq<TopicAggregate>): nat {
    if ts == [] then 0 else TotalCount(ts[..|ts| - 1]) + |ts[|ts| - 1].sentenceIds|
  }

  /** A topic's mean pathos weighted by its sentence count. */
  function Weight(t: TopicAggregate): real {
    t.avgPathos * (|t.sentenceIds| as real)
  }

  function TotalPathos(ts: seq<TopicAggregate>): real {
    if ts == [] then 0.0 else TotalPathos(ts[..|ts| - 1]) + Weight(ts[|ts| - 1])
  }

  function MeanTopics(tm: seq<(string, TopicAggregate)>): (r: seq<TopicAggregate>)
    ensures |r| == |tm| && forall j :: 0 <= j < |tm| ==> r[j] == MeanTopic(tm[j].1)
  {
    seq(|tm|, j requires 0 <= j < |tm| => MeanTopic(tm[j].1))
  }

  /** One iteration of the second loop: one emotion's finished record. */
  function FinishEmotion(emotion: string, tm: seq<(string, TopicAggregate)>): EmotionAggregate {
    var topics := MeanTopics(tm);
    var total := TotalCount(topics);
    EmotionAggregate(emotion, topics, total, if total > 0 then TotalPathos(topics) / (total as real) else 0.0)
  }

  function Finish(m: seq<(string, seq<(string, TopicAggregate)>)>): (r: seq<EmotionAggregate>)
    ensures |r| == |m| && forall i :: 0 <= i < |m| ==> r[i] == FinishEmotion(m[i].0, m[i].1)
  {
    seq(|m|, i requires 0 <= i < |m| => FinishEmotion(m[i].0, m[i].1))
  }

  /** The aggregates of `buildEmotionTopicActorAggregates(sentences)`: nothing for
      a missing input, else the finished first pass over the kept sentences. */
  function Aggregates(sentences: Option<seq<Option<Sentence>>>): seq<EmotionAggregate> {
    if sentences.None? then [] else Finish(FirstPass(Kept(sentences.value)))
  }

  // ------------------------------------------------------------------ the loop steps

  /** The empty topic record created for the first sentence of a topic. */
  function NewTopic(s: Sentence): TopicAggregate {
    TopicAggregate(TopicId(s), TopicText(s), LabelKey(s), [], 0.0, [])
  }

  /** Adds the sentence's id, its pathos and its group mentions to a topic record. */
  function AddToTopic(t: TopicAggregate, s: Sentence): TopicAggregate {
    t.(sentenceIds := t.sentenceIds + [s.id], avgPathos := t.avgPathos + PathosOf(s),
       groups := AddGroups(t.groups, GroupRefs(s), s.id, PathosOf(s)))
  }

  /** The update of one emotion's topic map for sentence `s`. */
  function TopicStep(tm: seq<(string, TopicAggregate)>, s: Sentence): seq<(string, TopicAggregate)> {
    var j := FindKey(tm, TopicId(s));
    if j < 0 then tm + [(TopicId(s), AddToTopic(NewTopic(s), s))]
    else tm[j := (TopicId(s), AddToTopic(tm[j].1, s))]
  }

  /** One iteration of the first loop for a kept sentence `s`. */
  function EmotionStep(m: seq<(string, seq<(string, TopicAggregate)>)>, s: Sentence): seq<(string, seq<(string, TopicAggregate)>)> {
    var i := FindKey(m, LabelKey(s));
    if i < 0 then m + [(LabelKey(s), TopicStep([], s))]
    else m[i := (LabelKey(s), TopicStep(m[i].1, s))]
  }

  lemma {:induction false} TopicOfSnoc(h: seq<Sentence>, x: Sentence)
    requires h != []
    ensures TopicOf(h + [x]) == AddToTopic(TopicOf(h), x)
  {
    assert (h + [x])[..|h|] == h;
    assert (h + [x])[0] == h[0];
    SumOfSnoc(h, x, PathosOf);
  }

  lemma {:induction false} TopicOfSingle(x: Sentence)
    ensures TopicOf([x]) == AddToTopic(NewTopic(x), x)
  {
    assert [x] == [] + [x];
    TopicOfSnocEmpty(x);
  }

  lemma {:induction false} TopicOfSnocEmpty(x: Sentence)
    ensures Ids([x]) == [x.id] && SumPathos([x]) == PathosOf(x)
    ensures GroupsOf([x]) == AddGroups([], GroupRefs(x), x.id, PathosOf(x))
  {
    assert [x][..0] == [];
    SumOfSnoc([], x, PathosOf);
    assert [] + [x] == [x];
  }

  lemma {:induction false} SummariseTopicsExisting(b: seq<(string, seq<Sentence>)>, x: Sentence, j: nat)
    requires j < |b| && b[j].1 != []
    ensures SummariseTopics(b[j := (TopicId(x), b[j].1 + [x])]) ==
      SummariseTopics(b)[j := (TopicId(x), AddToTopic(SummariseTopics(b)[j].1, x))]
  {
    var t := SummariseTopics(b);
    var h := b[j].1;
    var lhs := SummariseTopics(b[j := (TopicId(x), h + [x])]);
    var rhs := t[j := (TopicId(x), AddToTopic(t[j].1, x))];
    forall k | 0 <= k < |lhs| ensures lhs[k] == rhs[k] {
      if k == j {
        TopicOfSnoc(h, x);
      }
    }
  }

  lemma {:induction false} SummariseTopicsNew(b: seq<(string, seq<Sentence>)>, x: Sentence)
    ensures SummariseTopics(b + [(TopicId(x), [x])]) ==
      SummariseTopics(b) + [(TopicId(x), AddToTopic(NewTopic(x), x))]
  {
    var lhs := SummariseTopics(b + [(TopicId(x), [x])]);
    var rhs := SummariseTopics(b) + [(TopicId(x), AddToTopic(NewTopic(x), x))];
    forall k | 0 <= k < |lhs| ensures lhs[k] == rhs[k] {
      if k < |b| {
        assert (b + [(TopicId(x), [x])])[k] == b[k];
      } else {
        TopicOfSingle(x);
      }
    }
  }

  lemma {:induction false} SummariseTopicsAdd1(b: seq<(string, seq<Sentence>)>, x: Sentence)
    requires forall j :: 0 <= j < |b| ==> b[j].1 != []
    ensures SummariseTopics(Add1(b, TopicId(x), x)) == TopicStep(SummariseTopics(b), x)
  {
    var t := SummariseTopics(b);
    FindKeySameKeys(b, t, TopicId(x));
    var j := FindKey(b, TopicId(x));
    if j < 0 {
      assert Add1(b, TopicId(x), x) == b + [(TopicId(x), [x])];
      SummariseTopicsNew(b, x);
    } else {
      assert Add1(b, TopicId(x), x) == b[j := (TopicId(x), b[j].1 + [x])];
      SummariseTopicsExisting(b, x, j);
    }
  }

  lemma {:induction false} SummariseEmotionsExisting(b: seq<(string, seq<(string, seq<Sentence>)>)>, x: Sentence, i: nat)
    requires i < |b| && forall j :: 0 <= j < |b[i].1| ==> b[i].1[j].1 != []
    ensures SummariseEmotions(b[i := (LabelKey(x), Add1(b[i].1, TopicId(x), x))]) ==
      SummariseEmotions(b)[i := (LabelKey(x), TopicStep(SummariseEmotions(b)[i].1, x))]
  {
    var m := SummariseEmotions(b);
    var lhs := SummariseEmotions(b[i := (LabelKey(x), Add1(b[i].1, TopicId(x), x))]);
    var rhs := m[i := (LabelKey(x), TopicStep(m[i].1, x))];
    forall k | 0 <= k < |lhs| ensures lhs[k] == rhs[k] {
      if k == i {
        SummariseTopicsAdd1(b[i].1, x);
      }
    }
  }

  lemma {:induction false} SummariseEmotionsNew(b: seq<(string, seq<(string, seq<Sentence>)>)>, x: Sentence)
    ensures SummariseEmotions(b + [(LabelKey(x), [(TopicId(x), [x])])]) ==
      SummariseEmotions(b) + [(LabelKey(x), TopicStep([], x))]
  {
    var m := SummariseEmotions(b);
    var lhs := SummariseEmotions(b + [(LabelKey(x), [(TopicId(x), [x])])]);
    var rhs := m + [(LabelKey(x), TopicStep([], x))];
    forall k | 0 <= k < |lhs| ensures lhs[k] == rhs[k] {
      if k == |b| {
        SummariseTopicsAdd1([], x);
        assert Add1([], TopicId(x), x) == [(TopicId(x), [x])];
      }
    }
  }

  /** The first loop's step on the maps is the grouping step on the sentences. */
  lemma {:induction false} FirstPassSnoc(kept: seq<Sentence>, x: Sentence)
    ensures FirstPass(kept + [x]) == EmotionStep(FirstPass(kept), x)
  {
    var b := Bucket2(kept, LabelKey, TopicId);
    var m := FirstPass(kept);
    Add2Correct(kept, LabelKey, TopicId, x);
    FindKeySameKeys(b, m, LabelKey(x));
    var i := FindKey(b, LabelKey(x));
    if i < 0 {
      SummariseEmotionsNew(b, x);
    } else {
      Bucket2NonEmpty(kept, LabelKey, TopicId);
      SummariseEmotionsExisting(b, x, i);
    }
  }

  /** One more sentence of the input: the first loop's maps take one grouping
      step when the sentence is kept and stay as they are otherwise. */
  lemma FirstPassPrefix(ss: seq<Option<Sentence>>, n: nat)
    requires n < |ss|
    ensures FirstPass(Kept(ss[..n + 1])) ==
      if Keep(ss[n]) then EmotionStep(FirstPass(Kept(ss[..n])), ss[n].value)
      else FirstPass(Kept(ss[..n]))
  {
    KeptSnoc(ss[..n], ss[n]);
    PrefixSnoc(ss, n);
    if Keep(ss[n]) {
      FirstPassSnoc(Kept(ss[..n]), ss[n].value);
    } else {
      assert Kept(ss[..n + 1]) == Kept(ss[..n]);
    }
  }

  // ------------------------------------------------------------------ the procedure

  /** `buildEmotionTopicActorAggregates(sentences)`: the first loop fills the
      insertion-ordered maps `label → topicId → topic`, the second loop turns
      the pathos sums into means and totals each emotion. */
  method BuildEmotionTopicActorAggregates(sentences: Option<seq<Option<Sentence>>>) returns (r: seq<EmotionAggregate>)
    ensures r == Aggregates(sentences)
  {
    if sentences.None? {
      return [];
    }
    var ss := sentences.value;
    var emotionMap: seq<(string, seq<(string, TopicAggregate)>)> := [];
    var n := 0;
    while n < |ss|
      invariant n <= |ss|
      invariant emotionMap == FirstPass(Kept(ss[..n]))
    {
      FirstPassPrefix(ss, n);
      if ss[n].Some? && ss[n].value.emotion.Some? {
        emotionMap := AddSentence(emotionMap, ss[n].value);
      }
      n := n + 1;
    }
    WholePrefix(ss, n);
    r := SecondPass(emotionMap);
  }

  /** The second loop over the emotions in insertion order. */
  method SecondPass(emotionMap: seq<(string, seq<(string, TopicAggregate)>)>) returns (emotions: seq<EmotionAggregate>)
    ensures emotions == Finish(emotionMap)
  {
    emotions := [];
    var e := 0;
    while e < |emotionMap|
      invariant e <= |emotionMap|
      invariant emotions == Finish(emotionMap[..e])
    {
      var topics := MeanTopicsLoop(emotionMap[e].1);
      var totalSentences := TotalCountLoop(topics);
      var totalPathos := TotalPathosLoop(topics);
      emotions := emotions + [EmotionAggregate(emotionMap[e].0, topics, totalSentences,
        if totalSentences > 0 then totalPathos / (totalSentences as real) else 0.0)];
      PrefixSnoc(emotionMap, e);
      e := e + 1;
    }
    WholePrefix(emotionMap, e);
  }

  /** The first loop's body for a sentence that is not skipped: find or
      create the emotion's topic map, then update the topic. */
  method AddSentence(emotionMap: seq<(string, seq<(string, TopicAggregate)>)>, s: Sentence)
    returns (m: seq<(string, seq<(string, TopicAggregate)>)>)
    requires s.emotion.Some?
    ensures m == EmotionStep(emotionMap, s)
  {
    var emLabel := LabelKey(s);
    m := emotionMap;
    if FindKey(m, emLabel) < 0 {
      m := m + [(emLabel, [])];
      assert m[|m| - 1].0 == emLabel;
    }
    var i := FindKey(m, emLabel);
    var topicsForEmotion := AddToTopics(m[i].1, s);
    m := m[i := (emLabel, topicsForEmotion)];
  }

  /** Find or create the topic record, then add the sentence to it. */
  method AddToTopics(topicsForEmotion: seq<(string, TopicAggregate)>, s: Sentence)
    returns (tm: seq<(string, TopicAggregate)>)
    ensures tm == TopicStep(topicsForEmotion, s)
  {
    var topicText := TopicText(s);
    var topicId := TopicId(s);
    var found := FindKey(topicsForEmotion, topicId);
    tm := topicsForEmotion;
    if found < 0 {
      var created := TopicAggregate(topicId, topicText, LabelKey(s), [], 0.0, []);
      assert created == NewTopic(s);
      FindKeyAppended(tm, topicId, created);
      tm := tm + [(topicId, created)];
    }
    var j := FindKey(tm, topicId);
    var topic := AddToTopicRecord(tm[j].1, s);
    tm := tm[j := (topicId, topic)];
    if found < 0 {
      assert j == |topicsForEmotion|;
      assert tm == topicsForEmotion + [(topicId, AddToTopic(NewTopic(s), s))];
    } else {
      assert j == found;
    }
  }

  /** The updates of the topic record `topic` for sentence `s`. */
  method AddToTopicRecord(topic: TopicAggregate, s: Sentence) returns (t: TopicAggregate)
    ensures t == AddToTopic(topic, s)
  {
    t := topic.(sentenceIds := topic.sentenceIds + [s.id], avgPathos := topic.avgPathos + PathosOf(s));
    var groups := topic.groups;
    if s.groups.Some? {
      groups := AddGroupsLoop(groups, s.groups.value, s.id, PathosOf(s));
    }
    t := t.(groups := groups);
  }

  /** The loop over one sentence's group mentions. */
  method AddGroupsLoop(gs: seq<GroupRoleAggregate>, refs: seq<Option<GroupRef>>, sid: string, pathos: real)
    returns (groups: seq<GroupRoleAggregate>)
    ensures groups == AddGroups(gs, refs, sid, pathos)
  {
    groups := gs;
    var k := 0;
    while k < |refs|
      invariant k <= |refs|
      invariant groups == AddGroups(gs, refs[..k], sid, pathos)
    {
      PrefixSnoc(refs, k);
      assert refs[..k + 1][..k] == refs[..k];
      groups := AddGroup(groups, refs[k], sid, pathos);
      k := k + 1;
    }
    WholePrefix(refs, k);
  }

  /** The topic records in insertion order, each sum divided into a mean, for topics and clusters alike. */
  method MeanTopicsLoop(topicsMap: seq<(string, TopicAggregate)>) returns (topics: seq<TopicAggregate>)
    ensures topics == MeanTopics(topicsMap)
  {
    topics := [];
    var k := 0;
    while k < |topicsMap|
      invariant k <= |topicsMap|
      invariant topics == MeanTopics(topicsMap[..k])
    {
      var t := topicsMap[k].1;
      if |t.sentenceIds| > 0 {
        t := t.(avgPathos := t.avgPathos / (|t.sentenceIds| as real));
      }
      var gs := t.groups;
      var g := 0;
      while g < |gs|
        invariant g <= |gs| && |gs| == |t.groups|
        invariant forall q :: 0 <= q < g ==> gs[q] == MeanGroup(t.groups[q])
        invariant forall q :: g <= q < |gs| ==> gs[q] == t.groups[q]
      {
        if |gs[g].sentenceIds| > 0 {
          gs := gs[g := gs[g].(avgPathos := gs[g].avgPathos / (|gs[g].sentenceIds| as real))];
        }
        g := g + 1;
      }
      t := t.(groups := gs);
      assert t == MeanTopic(topicsMap[k].1);
      topics := topics + [t];
      k := k + 1;
    }
  }

  /** The number of sentences over all topics of one emotion. */
  method TotalCountLoop(topics: seq<TopicAggregate>) returns (total: nat)
    ensures total == TotalCount(topics)
  {
    total := 0;
    var k := 0;
    while k < |topics|
      invariant k <= |topics|
      invariant total == TotalCount(topics[..k])
    {
      assert topics[..k + 1][..k] == topics[..k];
      total := total + |topics[k].sentenceIds|;
      k := k + 1;
    }
    WholePrefix(topics, k);
  }

  /** The sum over the topics of mean pathos times sentence count. */
  method TotalPathosLoop(topics: seq<TopicAggregate>) returns (total: real)
    ensures total == TotalPathos(topics)
  {
    total := 0.0;
    var k := 0;
    while k < |topics|
      invariant k <= |topics|
      invariant total == TotalPathos(topics[..k])
    {
      assert topics[..k + 1][..k] == topics[..k];
      total := total + Weight(topics[k]);
      k := k + 1;
    }
    WholePrefix(topics, k);
  }

  // ------------------------------------------------------------------ properties

  /** The emotion keys of the result, in order. */
  function EmotionsOf(r: seq<EmotionAggregate>): (ks: seq<string>)
    ensures |ks| == |r| && forall i :: 0 <= i < |r| ==> ks[i] == r[i].emotion
  {
    if r == [] then [] else EmotionsOf(r[..|r| - 1]) + [r[|r| - 1].emotion]
  }

  /** The sentences of emotion `e`, in input order. */
  function OfEmotion(kept: seq<Sentence>, e: string): seq<Sentence> {
    Having(kept, LabelKey, e)
  }

  /** The sentences of emotion `e` and topic `t`, in input order. */
  function OfTopic(kept: seq<Sentence>, e: string, t: string): seq<Sentence> {
    Having(OfEmotion(kept, e), TopicId, t)
  }

  /** No input, no emotions; otherwise one aggregate per distinct emotion label
      of the kept sentences, in order of first occurrence, each label once. */
  lemma {:induction false} EmotionOrder(ss: seq<Option<Sentence>>)
    ensures Aggregates(None) == []
    ensures EmotionsOf(Aggregates(Some(ss))) == Distinct(Keys(Kept(ss), LabelKey))
    ensures NoDup(EmotionsOf(Aggregates(Some(ss))))
  {
    var r := Aggregates(Some(ss));
    var d := Distinct(Keys(Kept(ss), LabelKey));
    var b := Bucket2(Kept(ss), LabelKey, TopicId);
    assert |r| == |b| == |d|;
    forall i | 0 <= i < |r| ensures EmotionsOf(r)[i] == d[i] {
      AggregateAt(ss, i);
      assert b[i].0 == d[i];
    }
  }

  /** The topics of the `i`-th emotion: one per distinct topic id among its
      sentences, in order of first occurrence, each id once. */
  lemma {:induction false} TopicOrder(ss: seq<Option<Sentence>>, i: nat)
    requires i < |Aggregates(Some(ss))|
    ensures var a := Aggregates(Some(ss))[i];
      |a.topics| == |Distinct(Keys(OfEmotion(Kept(ss), a.emotion), TopicId))| &&
      forall j :: 0 <= j < |a.topics| ==>
        a.topics[j].id == Distinct(Keys(OfEmotion(Kept(ss), a.emotion), TopicId))[j]
  {
    var a := Aggregates(Some(ss))[i];
    var b := Bucket2(Kept(ss), LabelKey, TopicId);
    AggregateAt(ss, i);
    var d := Distinct(Keys(OfEmotion(Kept(ss), a.emotion), TopicId));
    Bucket2NonEmpty(Kept(ss), LabelKey, TopicId);
    var c := b[i].1;
    forall j | 0 <= j < |a.topics| ensures a.topics[j].id == d[j] {
      assert c[j].0 == d[j];
      assert a.topics[j] == MeanTopic(TopicOf(c[j].1));
      TopicIdOfBucket(OfEmotion(Kept(ss), a.emotion), c[j].0);
    }
  }

  /** The `i`-th emotion is the finished `i`-th bucket of the two-level grouping. */
  lemma AggregateAt(ss: seq<Option<Sentence>>, i: nat)
    requires i < |Aggregates(Some(ss))|
    ensures var b := Bucket2(Kept(ss), LabelKey, TopicId);
      var a := Aggregates(Some(ss))[i];
      i < |b| && a.emotion == b[i].0 && a.topics == MeanTopics(SummariseTopics(b[i].1)) &&
      b[i].1 == Bucket1(OfEmotion(Kept(ss), b[i].0), TopicId)
  {
  }

  lemma {:induction false} TopicIdOfBucket(he: seq<Sentence>, t: string)
    requires Having(he, TopicId, t) != []
    ensures MeanTopic(TopicOf(Having(he, TopicId, t))).id == t
  {
  }

  lemma {:induction false} MeanTopicOf(h: seq<Sentence>)
    requires h != []
    ensures MeanTopic(TopicOf(h)).sentenceIds == Ids(h)
    ensures MeanTopic(TopicOf(h)).avgPathos == SumPathos(h) / (|h| as real)
    ensures MeanTopic(TopicOf(h)).emotion == LabelKey(h[0])
    ensures MeanTopic(TopicOf(h)).topicLabel == TopicText(h[0])
    ensures MeanTopic(TopicOf(h)).groups == MeanGroups(GroupsOf(h))
  {
  }

  /** A topic holds the ids of exactly the kept sentences with its emotion and
      its topic id, in input order (never none); its emotion is the enclosing
      emotion, its id starts with that emotion and "_topic_", its label is the
      topic text of its first sentence and its `avgPathos` their mean pathos. */
  lemma {:induction false} TopicContents(ss: seq<Option<Sentence>>, i: nat, j: nat)
    requires i < |Aggregates(Some(ss))| && j < |Aggregates(Some(ss))[i].topics|
    ensures var a := Aggregates(Some(ss))[i];
      var t := a.topics[j];
      var h := OfTopic(Kept(ss), a.emotion, t.id);
      h != [] &&
      t.sentenceIds == Ids(h) &&
      t.emotion == a.emotion &&
      StartsWith(t.id, a.emotion + "_topic_") &&
      t.topicLabel == TopicText(h[0]) &&
      t.avgPathos == SumPathos(h) / (|h| as real)
  {
    var a := Aggregates(Some(ss))[i];
    var b := Bucket2(Kept(ss), LabelKey, TopicId);
    AggregateAt(ss, i);
    var e := b[i].0;
    var c := b[i].1;
    var tk := c[j].0;
    var h := c[j].1;
    var he := OfEmotion(Kept(ss), e);
    assert h == Having(he, TopicId, tk);
    assert a.topics[j] == MeanTopic(TopicOf(h));
    Bucket2NonEmpty(Kept(ss), LabelKey, TopicId);
    TopicIdOfBucket(he, tk);
    MeanTopicOf(h);
    HavingMembers(he, TopicId, tk);
    assert h[0] in he;
    assert LabelKey(h[0]) == e;
    assert TopicId(h[0]) == tk;
    TopicIdPrefix(h[0]);
  }

  /** Every id a topic holds is the id of a kept sentence with the topic's emotion. */
  lemma TopicMember(ss: seq<Option<Sentence>>, i: nat, j: nat, m: nat) returns (x: Sentence)
    requires i < |Aggregates(Some(ss))| && j < |Aggregates(Some(ss))[i].topics|
    requires m < |Aggregates(Some(ss))[i].topics[j].sentenceIds|
    ensures var t := Aggregates(Some(ss))[i].topics[j];
      x in Kept(ss) && LabelKey(x) == t.emotion && x.id == t.sentenceIds[m]
  {
    var a := Aggregates(Some(ss))[i];
    var t := a.topics[j];
    TopicContents(ss, i, j);
    var he := OfEmotion(Kept(ss), a.emotion);
    var h := Having(he, TopicId, t.id);
    x := h[m];
    HavingMembers(he, TopicId, t.id);
    HavingMembers(Kept(ss), LabelKey, a.emotion);
  }

  lemma TopicIdPrefix(s: Sentence)
    ensures StartsWith(TopicId(s), LabelKey(s) + "_topic_")
  {
    var p := LabelKey(s) + "_topic_";
    assert TopicId(s) == p + Slugify(TopicText(s));
    assert (p + Slugify(TopicText(s)))[..|p|] == p;
  }

  /** Dividing a topic's sum by its count and weighting the mean by the count
      gives back the sum. */
  lemma MeanTimesCount(t: TopicAggregate, u: TopicAggregate)
    requires |t.sentenceIds| > 0 && u == MeanTopic(t)
    ensures Weight(u) == t.avgPathos
  {
    var n := |t.sentenceIds| as real;
    var m := t.avgPathos / n;
    assert u.avgPathos == m && u.sentenceIds == t.sentenceIds;
    assert m * n == t.avgPathos;
  }

  lemma {:induction false} TopicCounts(b: seq<(string, seq<Sentence>)>)
    requires forall j :: 0 <= j < |b| ==> b[j].1 != []
    ensures TotalCount(MeanTopics(SummariseTopics(b))) == SumLens(b)
  {
    var ts := MeanTopics(SummariseTopics(b));
    forall j | 0 <= j < |b| ensures |ts[j].sentenceIds| == |b[j].1| {
      MeanTopicOf(b[j].1);
    }
    TotalCountOfLens(ts, b);
  }

  lemma {:induction false} TotalCountOfLens(ts: seq<TopicAggregate>, b: seq<(string, seq<Sentence>)>)
    requires |ts| == |b| && forall j :: 0 <= j < |b| ==> |ts[j].sentenceIds| == |b[j].1|
    ensures TotalCount(ts) == SumLens(b)
  {
    if b != [] {
      TotalCountOfLens(ts[..|ts| - 1], b[..|b| - 1]);
    }
  }

  lemma {:induction false} TopicPathos(b: seq<(string, seq<Sentence>)>)
    requires forall j :: 0 <= j < |b| ==> b[j].1 != []
    ensures TotalPathos(MeanTopics(SummariseTopics(b))) == BucketSums(b, PathosOf)
  {
    var ts := MeanTopics(SummariseTopics(b));
    forall j | 0 <= j < |b| ensures Weight(ts[j]) == SumOf(b[j].1, PathosOf) {
      var t := TopicOf(b[j].1);
      assert |t.sentenceIds| == |b[j].1| && t.avgPathos == SumPathos(b[j].1);
      MeanTimesCount(t, ts[j]);
    }
    TotalPathosOfWeights(ts, b);
  }

  lemma {:induction false} TotalPathosOfWeights(ts: seq<TopicAggregate>, b: seq<(string, seq<Sentence>)>)
    requires |ts| == |b| && forall j :: 0 <= j < |b| ==> Weight(ts[j]) == SumOf(b[j].1, PathosOf)
    ensures TotalPathos(ts) == BucketSums(b, PathosOf)
  {
    if b != [] {
      TotalPathosOfWeights(ts[..|ts| - 1], b[..|b| - 1]);
    }
  }

  /** An emotion counts the kept sentences with its label (never none), and its
      `avgPathos` is their mean pathos. */
  lemma {:induction false} EmotionTotals(ss: seq<Option<Sentence>>, i: nat)
    requires i < |Aggregates(Some(ss))|
    ensures var a := Aggregates(Some(ss))[i];
      var h := OfEmotion(Kept(ss), a.emotion);
      h != [] &&
      a.totalSentenceCount == |h| &&
      a.avgPathos == SumPathos(h) / (|h| as real)
  {
    var b := Bucket2(Kept(ss), LabelKey, TopicId);
    var e := b[i].0;
    var h := OfEmotion(Kept(ss), e);
    Bucket2NonEmpty(Kept(ss), LabelKey, TopicId);
    TopicCounts(b[i].1);
    TopicPathos(b[i].1);
    Bucket1Total(h, TopicId);
    Bucket1Sum(h, TopicId, PathosOf);
    Bucket1NonEmpty(Kept(ss), LabelKey);
    Bucket2Outer(Kept(ss), LabelKey, TopicId);
  }

  function SumCounts(r: seq<EmotionAggregate>): nat {
    if r == [] then 0 else SumCounts(r[..|r| - 1]) + r[|r| - 1].totalSentenceCount
  }

  lemma {:induction false} SumCountsLens(r: seq<EmotionAggregate>, b: seq<(string, seq<Sentence>)>)
    requires |r| == |b| && forall i :: 0 <= i < |r| ==> r[i].totalSentenceCount == |b[i].1|
    ensures SumCounts(r) == SumLens(b)
  {
    if r != [] {
      SumCountsLens(r[..|r| - 1], b[..|b| - 1]);
    }
  }

  /** Partition: the emotions together count every kept sentence exactly once. */
  lemma {:induction false} Partition(ss: seq<Option<Sentence>>)
    ensures SumCounts(Aggregates(Some(ss))) == |Kept(ss)|
  {
    var r := Aggregates(Some(ss));
    var b1 := Bucket1(Kept(ss), LabelKey);
    Bucket2Outer(Kept(ss), LabelKey, TopicId);
    forall i | 0 <= i < |r| ensures r[i].totalSentenceCount == |b1[i].1| {
      EmotionTotals(ss, i);
    }
    SumCountsLens(r, b1);
    Bucket1Total(Kept(ss), LabelKey);
  }

  // ------------------------------------------------------------------ actor clusters: properties

  /** Every cluster has a non-empty label and role, holds at least one
      sentence id, and only ids from `ids`. */
  predicate ClustersWithin(gs: seq<GroupRoleAggregate>, ids: seq<string>) {
    forall i :: 0 <= i < |gs| ==>
      gs[i].groupLabel != "" && gs[i].role != "" && gs[i].sentenceIds != [] &&
      forall k :: 0 <= k < |gs[i].sentenceIds| ==> gs[i].sentenceIds[k] in ids
  }

  /** A null entry or one whose label is falsy leaves the clusters unchanged. */
  lemma AddGroupSkips(gs: seq<GroupRoleAggregate>, g: Option<GroupRef>, sid: string, pathos: real)
    requires g.None? || !Truthy(g.value.name)
    ensures AddGroup(gs, g, sid, pathos) == gs
  {
  }

  /** An entry whose role is falsy never matches a stored cluster (stored roles
      are never empty), so it always opens a new cluster with role "Akteur". */
  lemma {:induction false} RolelessAppends(gs: seq<GroupRoleAggregate>, g: Option<GroupRef>, sid: string, pathos: real, ids: seq<string>)
    requires ClustersWithin(gs, ids)
    requires g.Some? && Truthy(g.value.name) && !Truthy(g.value.role)
    ensures AddGroup(gs, g, sid, pathos) == gs + [GroupRoleAggregate(g.value.name.value, "Akteur", [sid], pathos)]
  {
  }

  lemma {:induction false} ClustersWithinGrow(gs: seq<GroupRoleAggregate>, ids: seq<string>, more: seq<string>)
    requires ClustersWithin(gs, ids)
    ensures ClustersWithin(gs, ids + more)
  {
    forall i, k | 0 <= i < |gs| && 0 <= k < |gs[i].sentenceIds|
      ensures gs[i].sentenceIds[k] in ids + more
    {
      assert gs[i].sentenceIds[k] in ids;
    }
  }

  lemma {:induction false} AddGroupWithin(gs: seq<GroupRoleAggregate>, g: Option<GroupRef>, sid: string, pathos: real, ids: seq<string>)
    requires ClustersWithin(gs, ids) && sid in ids
    ensures ClustersWithin(AddGroup(gs, g, sid, pathos), ids)
  {
    if g.Some? && Truthy(g.value.name) {
      var i := FindGroup(gs, g.value.name.value, g.value.role);
      var r := AddGroup(gs, g, sid, pathos);
      if i >= 0 {
        forall j | 0 <= j < |r| ensures r[j].groupLabel != "" && r[j].role != "" && r[j].sentenceIds != [] &&
          forall k :: 0 <= k < |r[j].sentenceIds| ==> r[j].sentenceIds[k] in ids
        {
          if j == i {
            assert r[j].sentenceIds == gs[i].sentenceIds + [sid];
          }
        }
      } else {
        assert OrElse(g.value.role, "Akteur") != "";
        forall j | 0 <= j < |r| ensures r[j].groupLabel != "" && r[j].role != "" && r[j].sentenceIds != [] &&
          forall k :: 0 <= k < |r[j].sentenceIds| ==> r[j].sentenceIds[k] in ids
        {
          if j < |gs| {
            assert r[j] == gs[j];
          }
        }
      }
    }
  }

  lemma {:induction false} AddGroupsWithin(gs: seq<GroupRoleAggregate>, refs: seq<Option<GroupRef>>, sid: string, pathos: real, ids: seq<string>)
    requires ClustersWithin(gs, ids) && sid in ids
    ensures ClustersWithin(AddGroups(gs, refs, sid, pathos), ids)
  {
    if refs != [] {
      AddGroupsWithin(gs, refs[..|refs| - 1], sid, pathos, ids);
      AddGroupWithin(AddGroups(gs, refs[..|refs| - 1], sid, pathos), refs[|refs| - 1], sid, pathos, ids);
    }
  }

  /** The clusters of a topic only hold ids of the topic's own sentences. */
  lemma {:induction false} GroupsOfWithin(h: seq<Sentence>)
    ensures ClustersWithin(GroupsOf(h), Ids(h))
  {
    if h != [] {
      var p, x := h[..|h| - 1], h[|h| - 1];
      GroupsOfWithin(p);
      assert Ids(h) == Ids(p) + [x.id];
      ClustersWithinGrow(GroupsOf(p), Ids(p), [x.id]);
      AddGroupsWithin(GroupsOf(p), GroupRefs(x), x.id, PathosOf(x), Ids(h));
    }
  }

  lemma {:induction false} MeanGroupsWithin(gs: seq<GroupRoleAggregate>, ids: seq<string>)
    requires ClustersWithin(gs, ids)
    ensures ClustersWithin(MeanGroups(gs), ids)
  {
    var r := MeanGroups(gs);
    forall i | 0 <= i < |r| ensures r[i].groupLabel == gs[i].groupLabel && r[i].role == gs[i].role &&
      r[i].sentenceIds == gs[i].sentenceIds
    {
    }
  }

  /** Every actor cluster of every topic has a non-empty label and role and
      holds a non-empty subset of the topic's sentence ids. */
  lemma {:induction false} TopicClusters(ss: seq<Option<Sentence>>, i: nat, j: nat)
    requires i < |Aggregates(Some(ss))| && j < |Aggregates(Some(ss))[i].topics|
    ensures var t := Aggregates(Some(ss))[i].topics[j];
      ClustersWithin(t.groups, t.sentenceIds)
  {
    var a := Aggregates(Some(ss))[i];
    var b := Bucket2(Kept(ss), LabelKey, TopicId);
    AggregateAt(ss, i);
    var h := b[i].1[j].1;
    assert a.topics[j] == MeanTopic(TopicOf(h));
    Bucket2NonEmpty(Kept(ss), LabelKey, TopicId);
    MeanTopicOf(h);
    GroupsOfWithin(h);
    MeanGroupsWithin(GroupsOf(h), Ids(h));
  }

  // ------------------------------------------------------------------ topic ids are global

  function IdOf(t: TopicAggregate): string {
    t.id
  }

  /** The topics of all emotions, emotion by emotion. */
  function AllTopics(es: seq<EmotionAggregate>): seq<TopicAggregate> {
    if es == [] then [] else AllTopics(es[..|es| - 1]) + es[|es| - 1].topics
  }

  /** The index of the first lower-case ASCII letter, or the length. */
  function FirstLower(s: string): (r: nat)
    ensures r <= |s|
    ensures r < |s| ==> 'a' <= s[r] <= 'z'
    ensures forall i :: 0 <= i < r ==> !('a' <= s[i] <= 'z')
  {
    if s == [] then 0 else if 'a' <= s[0] <= 'z' then 0 else 1 + FirstLower(s[1..])
  }

  /** The emotion part of a topic id: everything before the `_` that precedes
      the first lower-case letter. */
  function LabelPart(id: string): string {
    var f := FirstLower(id);
    if f == 0 then "" else id[..f - 1]
  }

  /** Since emotion keys have no lower-case letters, the emotion can be read
      back from any id `emotion + "_topic_" + ...`. */
  lemma LabelPartOf(e: string, id: string)
    requires NoLower(e) && StartsWith(id, e + "_topic_")
    ensures LabelPart(id) == e
  {
    var p := e + "_topic_";
    assert id[..|p|] == p;
    assert id[|e| + 1] == p[|e| + 1] == 't';
    forall i | 0 <= i <= |e| ensures !('a' <= id[i] <= 'z') {
      assert id[i] == p[i];
    }
    assert FirstLower(id) == |e| + 1;
    assert id[..|e|] == p[..|e|] == e;
  }

  lemma LabelKeyNoLower(s: Sentence)
    ensures NoLower(LabelKey(s))
  {
  }

  /** Every emotion key lacks lower-case letters and occurs once, every topic
      id of an emotion starts with that emotion and "_topic_", and no topic id
      repeats inside an emotion. */
  predicate WellKeyed(es: seq<EmotionAggregate>) {
    NoDup(EmotionsOf(es)) &&
    forall i :: 0 <= i < |es| ==>
      NoLower(es[i].emotion) && NoDup(Keys(es[i].topics, IdOf)) &&
      forall j :: 0 <= j < |es[i].topics| ==> StartsWith(es[i].topics[j].id, es[i].emotion + "_topic_")
  }

  lemma {:induction false} AllTopicsLabelled(es: seq<EmotionAggregate>)
    requires WellKeyed(es)
    ensures forall k :: 0 <= k < |AllTopics(es)| ==> LabelPart(AllTopics(es)[k].id) in EmotionsOf(es)
  {
    if es != [] {
      var p, e := es[..|es| - 1], es[|es| - 1];
      assert WellKeyed(p) by {
        assert forall i :: 0 <= i < |p| ==> p[i] == es[i];
        assert EmotionsOf(p) == EmotionsOf(es)[..|p|];
      }
      AllTopicsLabelled(p);
      var a := AllTopics(es);
      forall k | 0 <= k < |a| ensures LabelPart(a[k].id) in EmotionsOf(es) {
        if k < |AllTopics(p)| {
          assert a[k] == AllTopics(p)[k];
          assert LabelPart(a[k].id) in EmotionsOf(p);
          assert EmotionsOf(p) == EmotionsOf(es)[..|p|];
        } else {
          var j := k - |AllTopics(p)|;
          assert a[k] == e.topics[j];
          LabelPartOf(e.emotion, e.topics[j].id);
          assert EmotionsOf(es)[|es| - 1] == e.emotion;
        }
      }
    }
  }

  lemma {:induction false} WellKeyedUnique(es: seq<EmotionAggregate>)
    requires WellKeyed(es)
    ensures NoDup(Keys(AllTopics(es), IdOf))
  {
    if es != [] {
      var p, e := es[..|es| - 1], es[|es| - 1];
      WellKeyedInit(es);
      WellKeyedUnique(p);
      KeysAppend(AllTopics(p), e.topics, IdOf);
      LastTopicsApart(es);
      NoDupAppend(Keys(AllTopics(p), IdOf), Keys(e.topics, IdOf));
    }
  }

  /** Dropping the last emotion keeps the aggregates well keyed, and that
      emotion is not among the others. */
  lemma WellKeyedInit(es: seq<EmotionAggregate>)
    requires WellKeyed(es) && es != []
    ensures WellKeyed(es[..|es| - 1])
    ensures es[|es| - 1].emotion !in EmotionsOf(es[..|es| - 1])
  {
    var p, e := es[..|es| - 1], es[|es| - 1];
    assert EmotionsOf(p) == EmotionsOf(es)[..|p|];
    assert forall i :: 0 <= i < |p| ==> p[i] == es[i];
    forall m | 0 <= m < |p| ensures EmotionsOf(p)[m] != e.emotion {
      assert EmotionsOf(es)[m] != EmotionsOf(es)[|es| - 1];
    }
  }

  /** The last emotion's topic ids differ from all earlier topic ids. */
  lemma {:induction false} LastTopicsApart(es: seq<EmotionAggregate>)
    requires WellKeyed(es) && es != []
    ensures var p, e := es[..|es| - 1], es[|es| - 1];
      forall i, j :: 0 <= i < |Keys(AllTopics(p), IdOf)| && 0 <= j < |Keys(e.topics, IdOf)| ==>
        Keys(AllTopics(p), IdOf)[i] != Keys(e.topics, IdOf)[j]
  {
    var p, e := es[..|es| - 1], es[|es| - 1];
    WellKeyedInit(es);
    AllTopicsLabelled(p);
    var ka, kb := Keys(AllTopics(p), IdOf), Keys(e.topics, IdOf);
    forall i, j | 0 <= i < |ka| && 0 <= j < |kb| ensures ka[i] != kb[j] {
      LabelPartOf(e.emotion, e.topics[j].id);
      assert LabelPart(ka[i]) in EmotionsOf(p);
    }
  }

  /** The aggregates are well keyed. */
  lemma {:induction false} AggregatesWellKeyed(ss: seq<Option<Sentence>>)
    ensures WellKeyed(Aggregates(Some(ss)))
  {
    var r := Aggregates(Some(ss));
    EmotionOrder(ss);
    forall i | 0 <= i < |r|
      ensures NoLower(r[i].emotion) && NoDup(Keys(r[i].topics, IdOf)) &&
        forall j :: 0 <= j < |r[i].topics| ==> StartsWith(r[i].topics[j].id, r[i].emotion + "_topic_")
    {
      EmotionKeyNoLower(ss, i);
      EmotionTopicIdsDistinct(ss, i);
      forall j | 0 <= j < |r[i].topics| ensures StartsWith(r[i].topics[j].id, r[i].emotion + "_topic_") {
        TopicContents(ss, i, j);
      }
    }
  }

  lemma EmotionKeyNoLower(ss: seq<Option<Sentence>>, i: nat)
    requires i < |Aggregates(Some(ss))|
    ensures NoLower(Aggregates(Some(ss))[i].emotion)
  {
    AggregateAt(ss, i);
    DistinctInKeys(Kept(ss), LabelKey, i);
    var x :| x in Kept(ss) && LabelKey(x) == Aggregates(Some(ss))[i].emotion;
    LabelKeyNoLower(x);
  }

  lemma EmotionTopicIdsDistinct(ss: seq<Option<Sentence>>, i: nat)
    requires i < |Aggregates(Some(ss))|
    ensures NoDup(Keys(Aggregates(Some(ss))[i].topics, IdOf))
  {
    var a := Aggregates(Some(ss))[i];
    TopicOrder(ss, i);
    var d := Distinct(Keys(OfEmotion(Kept(ss), a.emotion), TopicId));
    assert Keys(a.topics, IdOf) == d;
  }

  /** Topic ids are unique across the whole result, not only inside an emotion:
      two emotions never produce the same topic id. */
  lemma TopicIdsUnique(ss: seq<Option<Sentence>>)
    ensures NoDup(Keys(AllTopics(Aggregates(Some(ss))), IdOf))
  {
    AggregatesWellKeyed(ss);
    WellKeyedUnique(Aggregates(Some(ss)));
  }
}
