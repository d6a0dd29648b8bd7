/**
 * The pydantic result schemas of the agents (src/structs/schemas.py), with
 * their field constraints as validity predicates, and pydantic's construction
 * `Schema(**parsed)` from a parsed JSON object: required fields must be present
 * with the declared type, missing optional fields take their defaults, extra
 * keys are ignored, and a bound or `Literal` that does not hold is a
 * validation error (None here).
 *
 * `InterviewerGreetingSchema` and `UserIntentSchema` are imported by the agents
 * but not declared in schemas.py; they are declared here from the fields the
 * program reads and writes.
 */
module Schemas {
  import opened Wrappers
  import opened Json

  const AnswerTypes: set<string> :=
    {"correct", "partial", "incorrect", "hallucination", "off_topic", "counter_question"}
  const Grades: set<string> := {"Junior", "Middle", "Senior"}
  const HiringRecommendations: set<string> := {"Hire", "No Hire", "Strong Hire"}
  const Clarities: set<string> := {"отлично", "хорошо", "средне", "плохо"}
  const Honesties: set<string> := {"честный", "уклончивый"}
  const Engagements: set<string> := {"высокая", "средняя", "низкая"}

  datatype MentorAnalysisSchema = MentorAnalysisSchema(
    thinking: string,
    answerType: string,
    factualErrors: seq<string>,
    correctInfo: string,
    confidenceScore: int,
    instructionToInterviewer: string,
    difficultyLevel: int,
    topicRecommendation: string,
    shouldGiveHint: bool)

  datatype InterviewerGreetingSchema = InterviewerGreetingSchema(thinking: string, response: string)

  datatype InterviewerResponseSchema = InterviewerResponseSchema(thinking: string, response: string)

  datatype KnowledgeGap = KnowledgeGap(topic: string, question: string, correctAnswer: string)

  datatype FinalFeedbackSchema = FinalFeedbackSchema(
    thinking: string,
    grade: string,
    hiringRecommendation: string,
    confidenceScore: int,
    confirmedSkills: seq<string>,
    knowledgeGaps: seq<KnowledgeGap>,
    clarity: string,
    honesty: string,
    engagement: string,
    roadmap: seq<string>)

  datatype UserIntentSchema = UserIntentSchema(
    thinking: string,
    wantsToStop: bool,
    stopReason: Option<string>,
    emotionalState: string,
    confidenceLevel: int)

  // ---- validity: the Literal enumerations and the ge/le bounds ----

  predicate ValidMentor(s: MentorAnalysisSchema)
  {
    && s.answerType in AnswerTypes
    && 0 <= s.confidenceScore <= 100
    && 1 <= s.difficultyLevel <= 5
  }

  predicate ValidFeedback(s: FinalFeedbackSchema)
  {
    && s.grade in Grades
    && s.hiringRecommendation in HiringRecommendations
    && 0 <= s.confidenceScore <= 100
    && s.clarity in Clarities
    && s.honesty in Honesties
    && s.engagement in Engagements
  }

  // ---- reading one field of a parsed object ----

  function AsStr(v: Json): Option<string>
  {
    if v.JStr? then Some(v.s) else None
  }

  function AsInt(v: Json): Option<int>
  {
    if v.JInt? then Some(v.n) else None
  }

  function AsBool(v: Json): Option<bool>
  {
    if v.JBool? then Some(v.b) else None
  }

  /** `Optional[str]`: a string or null. */
  function AsOptStr(v: Json): Option<Option<string>>
  {
    match v
    case JNull => Some(None)
    case JStr(s) => Some(Some(s))
    case _ => None
  }

  function StrItems(items: seq<Json>): Option<seq<string>>
  {
    if items == [] then Some([])
    else
      var head :- AsStr(items[0]);
      var tail :- StrItems(items[1..]);
      Some([head] + tail)
  }

  /** `List[str]`. */
  function AsStrList(v: Json): Option<seq<string>>
  {
    if v.JArr? then StrItems(v.items) else None
  }

  function ConstructGap(v: Json): Option<KnowledgeGap>
  {
    if !v.JObj? then None
    else
      var topic :- Required(v.fields, "topic", AsStr);
      var question :- Required(v.fields, "question", AsStr);
      var answer :- Required(v.fields, "correct_answer", AsStr);
      Some(KnowledgeGap(topic, question, answer))
  }

  function GapItems(items: seq<Json>): Option<seq<KnowledgeGap>>
  {
    if items == [] then Some([])
    else
      var head :- ConstructGap(items[0]);
      var tail :- GapItems(items[1..]);
      Some([head] + tail)
  }

  /** `List[KnowledgeGap]`. */
  function AsGapList(v: Json): Option<seq<KnowledgeGap>>
  {
    if v.JArr? then GapItems(v.items) else None
  }

  /** A field without a default: missing or of the wrong type is an error. */
  function Required<T>(fields: seq<(string, Json)>, key: string, read: Json -> Option<T>): Option<T>
  {
    match Get(fields, key)
    case None => None
    case Some(v) => read(v)
  }

  /** A field with a default: missing takes the default, present must have the right type. */
  function Defaulted<T>(fields: seq<(string, Json)>, key: string, read: Json -> Option<T>, default: T): Option<T>
  {
    match Get(fields, key)
    case None => Some(default)
    case Some(v) => read(v)
  }

  // ---- Schema(**parsed) ----

  function ConstructMentor(v: Json): (r: Option<MentorAnalysisSchema>)
    ensures r.Some? ==> ValidMentor(r.value)
  {
    if !v.JObj? then None
    else
      var f := v.fields;
      var thinking :- Required(f, "thinking", AsStr);
      var answerType :- Required(f, "answer_type", AsStr);
      var errors :- Defaulted(f, "factual_errors", AsStrList, []);
      var info :- Defaulted(f, "correct_info", AsStr, "");
      var confidence :- Defaulted(f, "confidence_score", AsInt, 50);
      var instruction :- Required(f, "instruction_to_interviewer", AsStr);
      var difficulty :- Defaulted(f, "difficulty_level", AsInt, 3);
      var topic :- Required(f, "topic_recommendation", AsStr);
      var hint :- Defaulted(f, "should_give_hint", AsBool, false);
      var s := MentorAnalysisSchema(thinking, answerType, errors, info, confidence,
                                    instruction, difficulty, topic, hint);
      if ValidMentor(s) then Some(s) else None
  }

  function ConstructGreeting(v: Json): Option<InterviewerGreetingSchema>
  {
    if !v.JObj? then None
    else
      var thinking :- Required(v.fields, "thinking", AsStr);
      var response :- Required(v.fields, "response", AsStr);
      Some(InterviewerGreetingSchema(thinking, response))
  }

  function ConstructResponse(v: Json): Option<InterviewerResponseSchema>
  {
    if !v.JObj? then None
    else
      var thinking :- Required(v.fields, "thinking", AsStr);
      var response :- Required(v.fields, "response", AsStr);
      Some(InterviewerResponseSchema(thinking, response))
  }

  /** The fields of a final feedback as read from `fields`, before the constraints are checked. */
  function ReadFeedback(f: seq<(string, Json)>): Option<FinalFeedbackSchema>
  {
    var thinking :- Required(f, "thinking", AsStr);
    var grade :- Required(f, "grade", AsStr);
    var hiring :- Required(f, "hiring_recommendation", AsStr);
    var confidence :- Required(f, "confidence_score", AsInt);
    var skills :- Defaulted(f, "confirmed_skills", AsStrList, []);
    var gaps :- Defaulted(f, "knowledge_gaps", AsGapList, []);
    var clarity :- Required(f, "clarity", AsStr);
    var honesty :- Required(f, "honesty", AsStr);
    var engagement :- Required(f, "engagement", AsStr);
    var roadmap :- Defaulted(f, "roadmap", AsStrList, []);
    Some(FinalFeedbackSchema(thinking, grade, hiring, confidence, skills, gaps,
                             clarity, honesty, engagement, roadmap))
  }

  function ConstructFeedback(v: Json): (r: Option<FinalFeedbackSchema>)
    ensures r.Some? ==> ValidFeedback(r.value)
  {
    if !v.JObj? then None
    else
      var s :- ReadFeedback(v.fields);
      if ValidFeedback(s) then Some(s) else None
  }

  function ConstructIntent(v: Json): Option<UserIntentSchema>
  {
    if !v.JObj? then None
    else
      var f := v.fields;
      var thinking :- Required(f, "thinking", AsStr);
      var stop :- Required(f, "wants_to_stop", AsBool);
      var reason :- Defaulted(f, "stop_reason", AsOptStr, None);
      var emotion :- Required(f, "emotional_state", AsStr);
      var level :- Required(f, "confidence_level", AsInt);
      Some(UserIntentSchema(thinking, stop, reason, emotion, level))
  }

  // ---- the JSON object a schema instance serialises to ----

  function StrsToJson(xs: seq<string>): (r: seq<Json>)
    ensures |r| == |xs|
  {
    if xs == [] then [] else [JStr(xs[0])] + StrsToJson(xs[1..])
  }

  function GapToJson(g: KnowledgeGap): Json
  {
    JObj([("topic", JStr(g.topic)), ("question", JStr(g.question)),
          ("correct_answer", JStr(g.correctAnswer))])
  }

  function GapsToJson(gs: seq<KnowledgeGap>): (r: seq<Json>)
    ensures |r| == |gs|
  {
    if gs == [] then [] else [GapToJson(gs[0])] + GapsToJson(gs[1..])
  }

  function MentorToJson(s: MentorAnalysisSchema): Json
  {
    JObj([("thinking", JStr(s.thinking)),
          ("answer_type", JStr(s.answerType)),
          ("factual_errors", JArr(StrsToJson(s.factualErrors))),
          ("correct_info", JStr(s.correctInfo)),
          ("confidence_score", JInt(s.confidenceScore)),
          ("instruction_to_interviewer", JStr(s.instructionToInterviewer)),
          ("difficulty_level", JInt(s.difficultyLevel)),
          ("topic_recommendation", JStr(s.topicRecommendation)),
          ("should_give_hint", JBool(s.shouldGiveHint))])
  }

  function FeedbackToJson(s: FinalFeedbackSchema): Json
  {
    JObj([("thinking", JStr(s.thinking)),
          ("grade", JStr(s.grade)),
          ("hiring_recommendation", JStr(s.hiringRecommendation)),
          ("confidence_score", JInt(s.confidenceScore)),
          ("confirmed_skills", JArr(StrsToJson(s.confirmedSkills))),
          ("knowledge_gaps", JArr(GapsToJson(s.knowledgeGaps))),
          ("clarity", JStr(s.clarity)),
          ("honesty", JStr(s.honesty)),
          ("engagement", JStr(s.engagement)),
          ("roadmap", JArr(StrsToJson(s.roadmap)))])
  }

  function IntentToJson(s: UserIntentSchema): Json
  {
    JObj([("thinking", JStr(s.thinking)),
          ("wants_to_stop", JBool(s.wantsToStop)),
          ("stop_reason", if s.stopReason.Some? then JStr(s.stopReason.value) else JNull),
          ("emotional_state", JStr(s.emotionalState)),
          ("confidence_level", JInt(s.confidenceLevel))])
  }

  // ---- properties ----

  lemma {:induction false} StrItemsRoundTrip(xs: seq<string>)
    ensures StrItems(StrsToJson(xs)) == Some(xs)
  {
    if xs != [] {
      StrItemsRoundTrip(xs[1..]);
      assert [xs[0]] + xs[1..] == xs;
    }
  }

  lemma GapRoundTrip(g: KnowledgeGap)
    ensures ConstructGap(GapToJson(g)) == Some(g)
  {
    var f := GapToJson(g).fields;
    GetAt(f, 0, "topic");
    GetAt(f, 1, "question");
    GetAt(f, 2, "correct_answer");
  }

  lemma {:induction false} GapItemsRoundTrip(gs: seq<KnowledgeGap>)
    ensures GapItems(GapsToJson(gs)) == Some(gs)
  {
    if gs != [] {
      GapRoundTrip(gs[0]);
      GapItemsRoundTrip(gs[1..]);
      assert [gs[0]] + gs[1..] == gs;
    }
  }

  // Each key of a serialised analysis looks up the value it was written with
  // (three keys at a time, to keep each proof small).

  lemma MentorLookupsA(s: MentorAnalysisSchema)
    ensures var f := MentorToJson(s).fields;
            && Get(f, "thinking") == Some(JStr(s.thinking))
            && Get(f, "answer_type") == Some(JStr(s.answerType))
            && Get(f, "factual_errors") == Some(JArr(StrsToJson(s.factualErrors)))
  {
    var f := MentorToJson(s).fields;
    GetAt(f, 0, "thinking");
    GetAt(f, 1, "answer_type");
    GetAt(f, 2, "factual_errors");
  }

  lemma MentorLookupsB(s: MentorAnalysisSchema)
    ensures var f := MentorToJson(s).fields;
            && Get(f, "correct_info") == Some(JStr(s.correctInfo))
            && Get(f, "confidence_score") == Some(JInt(s.confidenceScore))
            && Get(f, "instruction_to_interviewer") == Some(JStr(s.instructionToInterviewer))
  {
    var f := MentorToJson(s).fields;
    GetAt(f, 3, "correct_info");
    GetAt(f, 4, "confidence_score");
    GetAt(f, 5, "instruction_to_interviewer");
  }

  lemma MentorLookupsC(s: MentorAnalysisSchema)
    ensures var f := MentorToJson(s).fields;
            && Get(f, "difficulty_level") == Some(JInt(s.difficultyLevel))
            && Get(f, "topic_recommendation") == Some(JStr(s.topicRecommendation))
            && Get(f, "should_give_hint") == Some(JBool(s.shouldGiveHint))
  {
    var f := MentorToJson(s).fields;
    GetAt(f, 6, "difficulty_level");
    GetAt(f, 7, "topic_recommendation");
    GetAt(f, 8, "should_give_hint");
  }

  /** Serialising an analysis and validating it again gives it back exactly when it satisfies the schema's constraints. */
  lemma MentorRoundTrip(s: MentorAnalysisSchema)
    ensures ConstructMentor(MentorToJson(s)) == if ValidMentor(s) then Some(s) else None
  {
    MentorLookupsA(s);
    MentorLookupsB(s);
    MentorLookupsC(s);
    StrItemsRoundTrip(s.factualErrors);
  }

  /** Reading a feedback succeeds with `s` once every field reads as `s` has it. */
  lemma ReadFeedbackFields(f: seq<(string, Json)>, s: FinalFeedbackSchema)
    requires Required(f, "thinking", AsStr) == Some(s.thinking)
    requires Required(f, "grade", AsStr) == Some(s.grade)
    requires Required(f, "hiring_recommendation", AsStr) == Some(s.hiringRecommendation)
    requires Required(f, "confidence_score", AsInt) == Some(s.confidenceScore)
    requires Defaulted(f, "confirmed_skills", AsStrList, []) == Some(s.confirmedSkills)
    requires Defaulted(f, "knowledge_gaps", AsGapList, []) == Some(s.knowledgeGaps)
    requires Required(f, "clarity", AsStr) == Some(s.clarity)
    requires Required(f, "honesty", AsStr) == Some(s.honesty)
    requires Required(f, "engagement", AsStr) == Some(s.engagement)
    requires Defaulted(f, "roadmap", AsStrList, []) == Some(s.roadmap)
    ensures ReadFeedback(f) == Some(s)
  {
  }

  lemma FeedbackLookupsA(s: FinalFeedbackSchema)
    ensures var f := FeedbackToJson(s).fields;
            && Get(f, "thinking") == Some(JStr(s.thinking))
            && Get(f, "grade") == Some(JStr(s.grade))
            && Get(f, "hiring_recommendation") == Some(JStr(s.hiringRecommendation))
  {
    var f := FeedbackToJson(s).fields;
    GetAt(f, 0, "thinking");
    GetAt(f, 1, "grade");
    GetAt(f, 2, "hiring_recommendation");
  }

  lemma FeedbackLookupsB(s: FinalFeedbackSchema)
    ensures var f := FeedbackToJson(s).fields;
            && Get(f, "confidence_score") == Some(JInt(s.confidenceScore))
            && Get(f, "confirmed_skills") == Some(JArr(StrsToJson(s.confirmedSkills)))
  {
    var f := FeedbackToJson(s).fields;
    GetAt(f, 3, "confidence_score");
    GetAt(f, 4, "confirmed_skills");
  }

  lemma FeedbackLookupsC(s: FinalFeedbackSchema)
    ensures var f := FeedbackToJson(s).fields;
            && Get(f, "knowledge_gaps") == Some(JArr(GapsToJson(s.knowledgeGaps)))
            && Get(f, "clarity") == Some(JStr(s.clarity))
  {
    var f := FeedbackToJson(s).fields;
    GetAt(f, 5, "knowledge_gaps");
    GetAt(f, 6, "clarity");
  }

  lemma FeedbackLookupsD(s: FinalFeedbackSchema)
    ensures var f := FeedbackToJson(s).fields;
            && Get(f, "honesty") == Some(JStr(s.honesty))
            && Get(f, "engagement") == Some(JStr(s.engagement))
  {
    var f := FeedbackToJson(s).fields;
    GetAt(f, 7, "honesty");
    GetAt(f, 8, "engagement");
  }

  lemma FeedbackLookupsE(s: FinalFeedbackSchema)
    ensures var f := FeedbackToJson(s).fields;
            && Get(f, "roadmap") == Some(JArr(StrsToJson(s.roadmap)))
  {
    var f := FeedbackToJson(s).fields;
    GetAt(f, 9, "roadmap");
  }

  lemma FeedbackFieldsRoundTrip(s: FinalFeedbackSchema)
    ensures ReadFeedback(FeedbackToJson(s).fields) == Some(s)
  {
    FeedbackLookupsA(s);
    FeedbackLookupsB(s);
    FeedbackLookupsC(s);
    FeedbackLookupsD(s);
    FeedbackLookupsE(s);
    StrItemsRoundTrip(s.confirmedSkills);
    StrItemsRoundTrip(s.roadmap);
    GapItemsRoundTrip(s.knowledgeGaps);
    ReadFeedbackFields(FeedbackToJson(s).fields, s);
  }

  /** The same for the final feedback, including every knowledge gap. */
  lemma FeedbackRoundTrip(s: FinalFeedbackSchema)
    ensures ConstructFeedback(FeedbackToJson(s)) == if ValidFeedback(s) then Some(s) else None
  {
    FeedbackFieldsRoundTrip(s);
  }

  /** The user-intent schema has no constraints beyond its field types. */
  lemma IntentRoundTrip(s: UserIntentSchema)
    ensures ConstructIntent(IntentToJson(s)) == Some(s)
  {
    var f := IntentToJson(s).fields;
    GetAt(f, 0, "thinking");
    GetAt(f, 1, "wants_to_stop");
    GetAt(f, 2, "stop_reason");
    GetAt(f, 3, "emotional_state");
    GetAt(f, 4, "confidence_level");
  }

  /** An analysis that gives only the required fields gets the declared defaults. */
  lemma MentorDefaults(thinking: string, answerType: string, instruction: string, topic: string)
    ensures ConstructMentor(JObj([("thinking", JStr(thinking)),
                                  ("answer_type", JStr(answerType)),
                                  ("instruction_to_interviewer", JStr(instruction)),
                                  ("topic_recommendation", JStr(topic))]))
         == if answerType in AnswerTypes
            then Some(MentorAnalysisSchema(thinking, answerType, [], "", 50, instruction, 3, topic, false))
            else None
  {
    var f := [("thinking", JStr(thinking)),
              ("answer_type", JStr(answerType)),
              ("instruction_to_interviewer", JStr(instruction)),
              ("topic_recommendation", JStr(topic))];
    GetAt(f, 0, "thinking");
    GetAt(f, 1, "answer_type");
    GetAt(f, 2, "instruction_to_interviewer");
    GetAt(f, 3, "topic_recommendation");
    GetMissing(f, "factual_errors");
    GetMissing(f, "correct_info");
    GetMissing(f, "confidence_score");
    GetMissing(f, "difficulty_level");
    GetMissing(f, "should_give_hint");
  }

  /** A final feedback that gives only the fields without a default. */
  function BareFeedback(thinking: string, grade: string, hiring: string, confidence: int,
                        clarity: string, honesty: string, engagement: string): seq<(string, Json)>
  {
    [("thinking", JStr(thinking)),
     ("grade", JStr(grade)),
     ("hiring_recommendation", JStr(hiring)),
     ("confidence_score", JInt(confidence)),
     ("clarity", JStr(clarity)),
     ("honesty", JStr(honesty)),
     ("engagement", JStr(engagement))]
  }

  lemma BareFeedbackLookupsA(thinking: string, grade: string, hiring: string, confidence: int,
                             clarity: string, honesty: string, engagement: string)
    ensures var f := BareFeedback(thinking, grade, hiring, confidence, clarity, honesty, engagement);
            && Get(f, "thinking") == Some(JStr(thinking))
            && Get(f, "grade") == Some(JStr(grade))
            && Get(f, "hiring_recommendation") == Some(JStr(hiring))
            && Get(f, "confidence_score") == Some(JInt(confidence))
  {
    var f := BareFeedback(thinking, grade, hiring, confidence, clarity, honesty, engagement);
    GetAt(f, 0, "thinking");
    GetAt(f, 1, "grade");
    GetAt(f, 2, "hiring_recommendation");
    GetAt(f, 3, "confidence_score");
  }

  lemma BareFeedbackLookupsB(thinking: string, grade: string, hiring: string, confidence: int,
                             clarity: string, honesty: string, engagement: string)
    ensures var f := BareFeedback(thinking, grade, hiring, confidence, clarity, honesty, engagement);
            && Get(f, "clarity") == Some(JStr(clarity))
            && Get(f, "honesty") == Some(JStr(honesty))
            && Get(f, "engagement") == Some(JStr(engagement))
  {
    var f := BareFeedback(thinking, grade, hiring, confidence, clarity, honesty, engagement);
    GetAt(f, 4, "clarity");
    GetAt(f, 5, "honesty");
    GetAt(f, 6, "engagement");
  }

  lemma BareFeedbackMissing(thinking: string, grade: string, hiring: string, confidence: int,
                            clarity: string, honesty: string, engagement: string)
    ensures var f := BareFeedback(thinking, grade, hiring, confidence, clarity, honesty, engagement);
            && Get(f, "confirmed_skills") == None
            && Get(f, "knowledge_gaps") == None
            && Get(f, "roadmap") == None
  {
    var f := BareFeedback(thinking, grade, hiring, confidence, clarity, honesty, engagement);
    GetMissing(f, "confirmed_skills");
    GetMissing(f, "knowledge_gaps");
    GetMissing(f, "roadmap");
  }

  /** A final feedback without lists gets empty skills, gaps and roadmap. */
  lemma FeedbackDefaults(thinking: string, grade: string, hiring: string, confidence: int,
                         clarity: string, honesty: string, engagement: string)
    ensures (var s := FinalFeedbackSchema(thinking, grade, hiring, confidence, [], [],
                                          clarity, honesty, engagement, []);
             ConstructFeedback(JObj(BareFeedback(thinking, grade, hiring, confidence, clarity, honesty, engagement)))
             == if ValidFeedback(s) then Some(s) else None)
  {
    BareFeedbackLookupsA(thinking, grade, hiring, confidence, clarity, honesty, engagement);
    BareFeedbackLookupsB(thinking, grade, hiring, confidence, clarity, honesty, engagement);
    BareFeedbackMissing(thinking, grade, hiring, confidence, clarity, honesty, engagement);
  }
}
