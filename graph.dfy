/**
 * The interview graph of src/graph/graph.py: the shared state record, the
 * nodes that update it in place, the finish check, the edge table and the
 * run from the entry node to the Manager.
 *
 * Each node is a method of the state class whose new state is given by a
 * step function on a value view of the state; the properties of the run are
 * proved about those step functions. The agents' answers, the console input
 * and the clock are parameters.
 */
module Graph {
  import opened Wrappers
  import opened Text
  import opened Schemas
  import opened Structs
  import opened Agents

  const MaxQuestions: int := 10
  const MaxHallucinations: int := 5
  const InitialDifficulty: int := 3
  const StopWords: set<string> := {"стоп", "stop", "finish", "завершить"}
  const UserStopped: string := "user_stopped"
  const QuestionsExhausted: string := "questions_exhausted"
  const TooManyHallucinations: string := "too_many_hallucinations"
  const DefaultTopic: string := "общее"

  /** A value copy of the whole state, with the turns as records. */
  datatype StateView = StateView(
    participantName: string,
    position: string,
    grade: string,
    experience: string,
    turns: seq<TurnRecord>,
    conversationHistory: seq<Message>,
    currentUserMessage: string,
    currentDifficulty: int,
    questionsAsked: int,
    stepCounter: int,
    topicsCovered: seq<string>,
    questionResults: seq<QuestionResult>,
    detectedHallucinations: seq<string>,
    offTopicAttempts: int,
    observerAnalysis: Option<MentorAnalysis>,
    calibratorRecommendation: Option<CalibrationResult>,
    finalFeedback: Option<FinalFeedback>,
    isFinished: bool,
    stopReason: string)

  /** Each element differs from every element before it. */
  predicate NoDuplicates(xs: seq<string>)
  {
    xs == [] || (NoDuplicates(xs[..|xs| - 1]) && xs[|xs| - 1] !in xs[..|xs| - 1])
  }

  /** `NoDuplicates` is the pairwise statement. */
  lemma {:induction false} NoDuplicatesPairwise(xs: seq<string>)
    ensures NoDuplicates(xs) <==> forall i, j :: 0 <= i < j < |xs| ==> xs[i] != xs[j]
  {
    if xs != [] {
      var init := xs[..|xs| - 1];
      NoDuplicatesPairwise(init);
      if forall i, j :: 0 <= i < j < |xs| ==> xs[i] != xs[j] {
        assert forall i, j :: 0 <= i < j < |init| ==> init[i] != init[j];
        assert xs[|xs| - 1] !in init by {
          forall k | 0 <= k < |init|
            ensures init[k] != xs[|xs| - 1]
          {
            assert init[k] == xs[k];
          }
        }
      }
    }
  }

  /**
   * What every node keeps: one turn per step and per question, numbered
   * from 1; each topic recorded once; the difficulty within 1..5; the
   * finish flag set exactly when a stop reason is.
   */
  predicate ViewValid(v: StateView)
  {
    && |v.turns| == v.stepCounter == v.questionsAsked
    && (forall i :: 0 <= i < |v.turns| ==> v.turns[i].turnId == i + 1)
    && NoDuplicates(v.topicsCovered)
    && 1 <= v.currentDifficulty <= 5
    && (v.isFinished <==> v.stopReason != "")
    && v.offTopicAttempts >= 0
  }

  // ---- the step functions ----

  /** `create_initial_state`. */
  function InitialView(participantName: string, position: string, grade: string, experience: string): StateView
  {
    StateView(participantName, position, grade, experience, [], [], "", InitialDifficulty, 0, 0,
              [], [], [], 0, None, None, None, false, "")
  }

  /** The turn the Interviewer opens with a message: no answer yet, its thinking as the first note. */
  function InterviewerTurn(turnId: int, response: string, thinking: string, timestamp: string): (t: TurnRecord)
  {
    TurnRecord(turnId, response, "", NoteLine("Interviewer thinking", thinking), timestamp)
  }

  /** `start_node`. */
  function StartStep(v: StateView, greeting: InterviewerGreetingSchema, now: string): StateView
  {
    v.(turns := v.turns + [InterviewerTurn(1, greeting.response, greeting.thinking, now)],
       stepCounter := 1,
       questionsAsked := 1)
  }

  /** `user_input_node`. */
  function UserInputStep(v: StateView, answer: string): StateView
  {
    if v.turns == [] then v.(currentUserMessage := answer)
    else
      var n := |v.turns|;
      v.(currentUserMessage := answer,
         turns := v.turns[..n - 1] + [v.turns[n - 1].(userMessage := answer)])
  }

  /** The topic list after `if topic and topic not in topics: topics.append(topic)`. */
  function AddTopic(topics: seq<string>, topic: string): (r: seq<string>)
  {
    if topic != "" && topic !in topics then topics + [topic] else topics
  }

  /** The `QuestionResult` the Mentor step records; the confidence is the integer score. */
  function MakeQuestionResult(a: MentorAnalysis, c: CalibrationResult, question: string, answer: string)
    : QuestionResult
  {
    QuestionResult(if c.topicRecommendation != "" then c.topicRecommendation else DefaultTopic,
                   question, answer,
                   a.answerType in {"correct", "partial"},
                   if a.factualErrors != [] then Some(a.correctInfo) else None,
                   a.confidenceScore)
  }

  /** `turns[-1].add_thought(agent, thought)`. */
  function NoteStep(v: StateView, agent: string, thought: string): StateView
    requires v.turns != []
  {
    var n := |v.turns|;
    var last := v.turns[n - 1];
    v.(turns := v.turns[..n - 1] + [last.(internalThoughts := WithNote(last.internalThoughts, agent, thought))])
  }

  /** What `mentor_node` takes over from the Mentor: the analysis, the calibration, the difficulty and a new topic. */
  function AdviceStep(v: StateView, a: MentorAnalysis, c: CalibrationResult): StateView
  {
    v.(observerAnalysis := Some(a),
       calibratorRecommendation := Some(c),
       currentDifficulty := c.difficultyLevel,
       topicsCovered := AddTopic(v.topicsCovered, c.topicRecommendation))
  }

  /** What `mentor_node` counts: hallucinated facts, off-topic answers and the question result. */
  function TallyStep(v: StateView, a: MentorAnalysis, c: CalibrationResult): StateView
    requires v.turns != []
  {
    v.(detectedHallucinations :=
         if a.answerType == "hallucination" then v.detectedHallucinations + a.factualErrors
         else v.detectedHallucinations,
       offTopicAttempts := if a.answerType == "off_topic" then v.offTopicAttempts + 1 else v.offTopicAttempts,
       questionResults := v.questionResults
         + [MakeQuestionResult(a, c, v.turns[|v.turns| - 1].agentVisibleMessage, v.currentUserMessage)])
  }

  /** The field updates `mentor_node` makes with the analysis and the calibration. */
  function AnalysisStep(v: StateView, a: MentorAnalysis, c: CalibrationResult): StateView
    requires v.turns != []
  {
    TallyStep(AdviceStep(v, a, c), a, c)
  }

  /** `mentor_node`, given what `analyze_and_calibrate` returned: the note first, then the fields. */
  function MentorStep(v: StateView, a: MentorAnalysis, c: CalibrationResult, thinking: string): StateView
    requires v.turns != []
  {
    AnalysisStep(NoteStep(v, "Mentor", thinking), a, c)
  }

  /** `interviewer_node`, given what `generate_response` returned. */
  function InterviewerStep(v: StateView, response: InterviewerResponseSchema, now: string): StateView
  {
    v.(stepCounter := v.stepCounter + 1,
       turns := v.turns + [InterviewerTurn(v.stepCounter + 1, response.response, response.thinking, now)],
       questionsAsked := v.questionsAsked + 1)
  }

  /**
   * The reason `check_finish_node` ends the interview, if any. The checks
   * run in order: a stop word (the whole message, case-insensitive), then
   * the question limit, then the hallucination limit.
   */
  function FinishReason(v: StateView): (r: Option<string>)
    ensures r == Some(UserStopped) <==> Lower(v.currentUserMessage) in StopWords
    ensures r == Some(QuestionsExhausted) <==>
              Lower(v.currentUserMessage) !in StopWords && v.questionsAsked >= MaxQuestions
    ensures r == Some(TooManyHallucinations) <==>
              Lower(v.currentUserMessage) !in StopWords && v.questionsAsked < MaxQuestions
              && |v.detectedHallucinations| >= MaxHallucinations
    ensures r == None <==>
              Lower(v.currentUserMessage) !in StopWords && v.questionsAsked < MaxQuestions
              && |v.detectedHallucinations| < MaxHallucinations
  {
    CheckReason(v.currentUserMessage, v.questionsAsked, |v.detectedHallucinations|)
  }

  /** The three checks of `check_finish_node`, on the message and the two counts they read. */
  function CheckReason(message: string, questionsAsked: int, hallucinations: nat): Option<string>
  {
    if Lower(message) in StopWords then Some(UserStopped)
    else if questionsAsked >= MaxQuestions then Some(QuestionsExhausted)
    else if hallucinations >= MaxHallucinations then Some(TooManyHallucinations)
    else None
  }

  datatype Route = Continue | Finish

  /** The state after `check_finish_node`: the flag and the reason written together, on finish only. */
  function CheckStep(v: StateView): StateView
  {
    match FinishReason(v)
    case Some(reason) => v.(isFinished := true, stopReason := reason)
    case None => v
  }

  /** `manager_node`, given what `generate_feedback` returned. */
  function ManagerStep(v: StateView, feedback: FinalFeedback): StateView
  {
    v.(finalFeedback := Some(feedback))
  }

  // ---- what the steps keep ----

  /** The initial state has empty lists, zero counters, difficulty 3 and no finish. */
  lemma InitialValid(participantName: string, position: string, grade: string, experience: string)
    ensures var v := InitialView(participantName, position, grade, experience);
            && ViewValid(v)
            && v.turns == [] && v.topicsCovered == [] && v.questionResults == [] && v.detectedHallucinations == []
            && v.stepCounter == 0 && v.questionsAsked == 0 && v.offTopicAttempts == 0
            && v.currentDifficulty == 3 && !v.isFinished && v.stopReason == "" && v.finalFeedback == None
  {
  }

  /** Starting from no turns leaves one turn, numbered 1, with no answer, and both counters at 1. */
  lemma StartKeepsValid(v: StateView, greeting: InterviewerGreetingSchema, now: string)
    requires ViewValid(v) && v.turns == []
    ensures var w := StartStep(v, greeting, now);
            && ViewValid(w)
            && |w.turns| == 1 && w.turns[0].turnId == 1 && w.turns[0].userMessage == ""
            && w.turns[0].agentVisibleMessage == greeting.response
            && w.stepCounter == 1 && w.questionsAsked == 1
  {
  }

  /** An answer lands in the scratch field and in the last turn only. */
  lemma UserInputKeepsValid(v: StateView, answer: string)
    requires ViewValid(v)
    ensures var w := UserInputStep(v, answer);
            && ViewValid(w)
            && w.currentUserMessage == answer
            && |w.turns| == |v.turns|
            && (forall i :: 0 <= i < |v.turns| - 1 ==> w.turns[i] == v.turns[i])
            && (v.turns != [] ==> w.turns[|v.turns| - 1] == v.turns[|v.turns| - 1].(userMessage := answer))
            && (v.turns == [] ==> w == v.(currentUserMessage := answer))
  {
  }

  /** A topic is appended only when it is new and non-empty, so the list stays duplicate-free. */
  lemma AddTopicKeepsDistinct(topics: seq<string>, topic: string)
    requires NoDuplicates(topics)
    ensures NoDuplicates(AddTopic(topics, topic))
    ensures forall x :: x in AddTopic(topics, topic) <==> x in topics || (x == topic && topic != "")
    ensures topics <= AddTopic(topics, topic)
  {
    if topic != "" && topic !in topics {
      assert (topics + [topic])[..|topics|] == topics;
    }
  }

  /**
   * The Mentor step, given an analysis and a calibration within the
   * schema's bounds: one more question result, the hallucination list
   * extended by exactly the factual errors of a hallucination, one more
   * off-topic attempt exactly for an off-topic answer, the calibrated
   * difficulty; the counters and turn ids untouched.
   */
  lemma MentorKeepsValid(v: StateView, a: MentorAnalysis, c: CalibrationResult, thinking: string)
    requires ViewValid(v) && v.turns != [] && ValidMentorParts(a, c)
    ensures var w := MentorStep(v, a, c, thinking);
            && ViewValid(w)
            && |w.turns| == |v.turns|
            && (forall i :: 0 <= i < |v.turns| - 1 ==> w.turns[i] == v.turns[i])
            && w.questionResults == v.questionResults + [w.questionResults[|w.questionResults| - 1]]
            && v.detectedHallucinations <= w.detectedHallucinations
            && (a.answerType == "hallucination" ==> w.detectedHallucinations == v.detectedHallucinations + a.factualErrors)
            && (a.answerType != "hallucination" ==> w.detectedHallucinations == v.detectedHallucinations)
            && w.offTopicAttempts == v.offTopicAttempts + (if a.answerType == "off_topic" then 1 else 0)
            && w.currentDifficulty == c.difficultyLevel
  {
    AddTopicKeepsDistinct(v.topicsCovered, c.topicRecommendation);
    var w := MentorStep(v, a, c, thinking);
    assert forall i :: 0 <= i < |w.turns| ==> w.turns[i].turnId == v.turns[i].turnId;
  }

  /** The recorded result: correct exactly for correct or partial answers, an answer exactly when there were errors. */
  lemma QuestionResultFields(a: MentorAnalysis, c: CalibrationResult, question: string, answer: string)
    ensures var q := MakeQuestionResult(a, c, question, answer);
            && (q.isCorrect <==> a.answerType == "correct" || a.answerType == "partial")
            && (q.correctAnswer.Some? <==> a.factualErrors != [])
            && (q.correctAnswer.Some? ==> q.correctAnswer.value == a.correctInfo)
            && (q.topic == if c.topicRecommendation == "" then DefaultTopic else c.topicRecommendation)
            && q.question == question && q.userAnswer == answer
  {
  }

  /** Each Interviewer step adds one turn whose id is the new step count, keeping the counters in lock-step. */
  lemma InterviewerKeepsValid(v: StateView, response: InterviewerResponseSchema, now: string)
    requires ViewValid(v)
    ensures var w := InterviewerStep(v, response, now);
            && ViewValid(w)
            && w.stepCounter == v.stepCounter + 1 && w.questionsAsked == v.questionsAsked + 1
            && w.turns == v.turns + [InterviewerTurn(w.stepCounter, response.response, response.thinking, now)]
  {
  }

  /** The finish check sets both flags or neither. */
  lemma CheckKeepsValid(v: StateView)
    requires ViewValid(v) && !v.isFinished
    ensures var w := CheckStep(v);
            && ViewValid(w)
            && (w.isFinished <==> FinishReason(v).Some?)
            && (!w.isFinished ==> w == v)
            && (w.isFinished ==> w.stopReason in {UserStopped, QuestionsExhausted, TooManyHallucinations})
            && (w.isFinished ==> FinishReason(w) == Some(w.stopReason))
            && FinishReason(w) == FinishReason(v)
  {
  }

  lemma LowerWord(s: string, t: string)
    requires |s| == |t| && forall i :: 0 <= i < |s| ==> LowerChar(s[i]) == t[i]
    ensures Lower(s) == t
  {
  }

  /** A message that lower-cases to a stop word, whatever its case, ends the interview as stopped by the user. */
  lemma StopWordEndsInterview(v: StateView, w: string)
    requires w in StopWords
    requires |v.currentUserMessage| == |w|
    requires forall i :: 0 <= i < |w| ==> LowerChar(v.currentUserMessage[i]) == w[i]
    ensures FinishReason(v) == Some(UserStopped)
  {
    LowerWord(v.currentUserMessage, w);
  }

  // ---- the edge table ----

  datatype Node = Start | UserInput | Mentor | Interviewer | Manager | End

  /** `build_interview_graph`: the node that follows `n`; only the Interviewer's depends on the finish check. */
  function Successor(n: Node, route: Route): Node
  {
    match n
    case Start => UserInput
    case UserInput => Mentor
    case Mentor => Interviewer
    case Interviewer => if route == Continue then UserInput else Manager
    case Manager => End
    case End => End
  }

  /** A run that follows the edges: each node is a successor of the one before. */
  predicate FollowsEdges(trace: seq<Node>)
  {
    forall i :: 0 <= i < |trace| - 1 ==>
      trace[i + 1] == Successor(trace[i], Continue) || trace[i + 1] == Successor(trace[i], Finish)
  }

  /** One pass of the loop, `user_input -> mentor -> interviewer`, extends a run along the edges. */
  lemma PassFollowsEdges(trace: seq<Node>)
    requires trace != [] && FollowsEdges(trace)
    requires trace[|trace| - 1] in {Start, Interviewer}
    ensures FollowsEdges(trace + [UserInput, Mentor, Interviewer])
  {
    var t := trace + [UserInput, Mentor, Interviewer];
    forall i | 0 <= i < |t| - 1
      ensures t[i + 1] == Successor(t[i], Continue) || t[i + 1] == Successor(t[i], Finish)
    {
      if i < |trace| - 1 {
        assert t[i] == trace[i] && t[i + 1] == trace[i + 1];
      }
    }
  }

  /** After the finishing check the Manager comes next. */
  lemma FinishFollowsEdges(trace: seq<Node>)
    requires trace != [] && FollowsEdges(trace)
    requires trace[|trace| - 1] == Interviewer
    ensures FollowsEdges(trace + [Manager])
  {
    var t := trace + [Manager];
    forall i | 0 <= i < |t| - 1
      ensures t[i + 1] == Successor(t[i], Continue) || t[i + 1] == Successor(t[i], Finish)
    {
      if i < |trace| - 1 {
        assert t[i] == trace[i] && t[i + 1] == trace[i + 1];
      }
    }
  }

  // ---- a whole run, from the inputs of each pass ----

  /** The facts `mentor_node` adds to the hallucination list for one analysis. */
  function HallucinatedFacts(a: MentorAnalysis): seq<string>
  {
    if a.answerType == "hallucination" then a.factualErrors else []
  }

  /** The hallucination list after the first `n` passes of a run, pass by pass. */
  function HallucinationsUpTo(mentor: nat -> (MentorAnalysis, CalibrationResult, string), n: nat): seq<string>
  {
    if n == 0 then [] else HallucinationsUpTo(mentor, n - 1) + HallucinatedFacts(mentor(n - 1).0)
  }

  /**
   * The reason the check finds after pass `p` (counted from 0): it reads the
   * answer of that pass, the `p + 2` questions asked by then (the greeting
   * is the first) and the hallucinations recorded in passes `0..p`.
   */
  function PassReason(answer: nat -> string, mentor: nat -> (MentorAnalysis, CalibrationResult, string), p: nat)
    : Option<string>
  {
    CheckReason(answer(p), p + 2, |HallucinationsUpTo(mentor, p + 1)|)
  }

  /**
   * The reasons after each of the nine passes a run can have; the question
   * limit makes the check after the ninth always find one.
   */
  function PassReasons(answer: nat -> string, mentor: nat -> (MentorAnalysis, CalibrationResult, string))
    : (rs: seq<Option<string>>)
    ensures |rs| == MaxQuestions - 1 && rs[|rs| - 1].Some?
    ensures forall p :: 0 <= p < |rs| ==> rs[p] == PassReason(answer, mentor, p)
  {
    seq(MaxQuestions - 1, p requires 0 <= p => PassReason(answer, mentor, p))
  }

  /** The number of passes of a run that has gone through `0..p-1`: up to the first reason from `p` on. */
  function PassesFrom(rs: seq<Option<string>>, p: nat): (n: nat)
    requires p < |rs| && rs[|rs| - 1].Some?
    ensures p < n <= |rs|
    decreases |rs| - p
  {
    if rs[p].Some? then p + 1 else PassesFrom(rs, p + 1)
  }

  /** The last pass counted is the first from `p` on that has a reason. */
  lemma {:induction false} PassesFromFirst(rs: seq<Option<string>>, p: nat)
    requires p < |rs| && rs[|rs| - 1].Some?
    ensures rs[PassesFrom(rs, p) - 1].Some?
    ensures forall q :: p <= q < PassesFrom(rs, p) - 1 ==> rs[q] == None
    decreases |rs| - p
  {
    if rs[p] == None {
      PassesFromFirst(rs, p + 1);
    }
  }

  /** The number of passes of a whole run: it ends after the first pass whose check finds a reason. */
  function RunLength(answer: nat -> string, mentor: nat -> (MentorAnalysis, CalibrationResult, string)): (n: nat)
    ensures 1 <= n <= MaxQuestions - 1
  {
    PassesFrom(PassReasons(answer, mentor), 0)
  }

  /** A run is `n` passes long exactly when pass `n - 1` is the first whose check finds a reason. */
  lemma RunLengthFirst(answer: nat -> string, mentor: nat -> (MentorAnalysis, CalibrationResult, string), n: nat)
    requires 1 <= n <= MaxQuestions - 1
    ensures RunLength(answer, mentor) == n <==>
              PassReason(answer, mentor, n - 1).Some?
              && forall q :: 0 <= q < n - 1 ==> PassReason(answer, mentor, q) == None
  {
    var rs := PassReasons(answer, mentor);
    PassesFromFirst(rs, 0);
    var m := RunLength(answer, mentor);
    assert rs[m - 1] == PassReason(answer, mentor, m - 1);
    assert rs[n - 1] == PassReason(answer, mentor, n - 1);
  }

  /** The check after pass `p` reads exactly what the run has produced by then. */
  lemma PassReasonOfView(v: StateView, answer: nat -> string,
                         mentor: nat -> (MentorAnalysis, CalibrationResult, string), p: nat)
    requires v.currentUserMessage == answer(p) && v.questionsAsked == p + 2
    requires v.detectedHallucinations == HallucinationsUpTo(mentor, p + 1)
    ensures FinishReason(v) == PassReason(answer, mentor, p)
  {
  }

  /** What a pass whose check finds no reason tells about that pass. */
  lemma NoReasonAt(answer: nat -> string, mentor: nat -> (MentorAnalysis, CalibrationResult, string), p: nat)
    requires PassReason(answer, mentor, p) == None
    ensures Lower(answer(p)) !in StopWords && p + 2 < MaxQuestions
    ensures |HallucinationsUpTo(mentor, p + 1)| < MaxHallucinations
  {
  }

  /**
   * Every pass before the last one finds no reason to stop: its answer is
   * no stop word and fewer than five hallucinations are recorded after it.
   */
  lemma EarlierPassesGoOn(answer: nat -> string, mentor: nat -> (MentorAnalysis, CalibrationResult, string), n: nat)
    requires n == RunLength(answer, mentor)
    ensures forall p :: 0 <= p < n - 1 ==> Lower(answer(p)) !in StopWords
    ensures forall p :: 1 <= p < n ==> |HallucinationsUpTo(mentor, p)| < MaxHallucinations
  {
    RunLengthFirst(answer, mentor, n);
    forall p | 0 <= p < n - 1
      ensures Lower(answer(p)) !in StopWords
    {
      NoReasonAt(answer, mentor, p);
    }
    forall p | 1 <= p < n
      ensures |HallucinationsUpTo(mentor, p)| < MaxHallucinations
    {
      NoReasonAt(answer, mentor, p - 1);
    }
  }

  /** A stop word as the first answer ends the run after one pass, as stopped by the user. */
  lemma StopAtFirstAnswer(answer: nat -> string, mentor: nat -> (MentorAnalysis, CalibrationResult, string))
    requires Lower(answer(0)) in StopWords
    ensures RunLength(answer, mentor) == 1
    ensures PassReason(answer, mentor, 0) == Some(UserStopped)
  {
    RunLengthFirst(answer, mentor, 1);
  }

  /** With no hallucinated answer, nothing is ever recorded. */
  lemma {:induction false} NoHallucinationsRecorded(mentor: nat -> (MentorAnalysis, CalibrationResult, string), n: nat)
    requires forall p :: mentor(p).0.answerType != "hallucination"
    ensures HallucinationsUpTo(mentor, n) == []
  {
    if n > 0 {
      NoHallucinationsRecorded(mentor, n - 1);
    }
  }

  /** With no stop word and no hallucination, the run asks all ten questions: nine passes. */
  lemma QuietRunExhausts(answer: nat -> string, mentor: nat -> (MentorAnalysis, CalibrationResult, string))
    requires forall p :: Lower(answer(p)) !in StopWords && mentor(p).0.answerType != "hallucination"
    ensures RunLength(answer, mentor) == MaxQuestions - 1
    ensures PassReason(answer, mentor, MaxQuestions - 2) == Some(QuestionsExhausted)
  {
    forall q | 0 <= q < MaxQuestions - 2
      ensures PassReason(answer, mentor, q) == None
    {
      NoHallucinationsRecorded(mentor, q + 1);
    }
    RunLengthFirst(answer, mentor, MaxQuestions - 1);
  }

  /** With one hallucinated fact per answer, `n` passes record `n` facts. */
  lemma {:induction false} OneFactPerPass(mentor: nat -> (MentorAnalysis, CalibrationResult, string), n: nat)
    requires forall p :: mentor(p).0.answerType == "hallucination" && |mentor(p).0.factualErrors| == 1
    ensures |HallucinationsUpTo(mentor, n)| == n
  {
    if n > 0 {
      OneFactPerPass(mentor, n - 1);
    }
  }

  /**
   * With one hallucinated fact per answer and no stop word, the fifth
   * hallucination ends the run after five passes.
   */
  lemma HallucinatingRunStops(answer: nat -> string, mentor: nat -> (MentorAnalysis, CalibrationResult, string))
    requires forall p :: Lower(answer(p)) !in StopWords
    requires forall p :: mentor(p).0.answerType == "hallucination" && |mentor(p).0.factualErrors| == 1
    ensures RunLength(answer, mentor) == MaxHallucinations
    ensures PassReason(answer, mentor, MaxHallucinations - 1) == Some(TooManyHallucinations)
  {
    forall n | 1 <= n <= MaxHallucinations
      ensures |HallucinationsUpTo(mentor, n)| == n
    {
      OneFactPerPass(mentor, n);
    }
    RunLengthFirst(answer, mentor, MaxHallucinations);
  }

  // ---- the state record ----

  /**
   * The `InterviewState` dict the graph threads through its nodes. Each node
   * updates it in place; the turns are held as records, and the two in-place
   * edits of the last `Turn` (its answer and its notes) replace that record.
   */
  class InterviewState {
    const participantName: string
    const position: string
    const grade: string
    const experience: string
    var turns: seq<TurnRecord>
    var conversationHistory: seq<Message>
    var currentUserMessage: string
    var currentDifficulty: int
    var questionsAsked: int
    var stepCounter: int
    var topicsCovered: seq<string>
    var questionResults: seq<QuestionResult>
    var detectedHallucinations: seq<string>
    var offTopicAttempts: int
    var observerAnalysis: Option<MentorAnalysis>
    var calibratorRecommendation: Option<CalibrationResult>
    var finalFeedback: Option<FinalFeedback>
    var isFinished: bool
    var stopReason: string

    function View(): StateView
      reads this
    {
      StateView(participantName, position, grade, experience, turns, conversationHistory,
                currentUserMessage, currentDifficulty, questionsAsked, stepCounter, topicsCovered,
                questionResults, detectedHallucinations, offTopicAttempts, observerAnalysis,
                calibratorRecommendation, finalFeedback, isFinished, stopReason)
    }

    predicate Valid()
      reads this
    {
      ViewValid(View())
    }

    /** `create_initial_state`. */
    constructor (participantName: string, position: string, grade: string, experience: string)
      ensures View() == InitialView(participantName, position, grade, experience)
      ensures Valid()
    {
      this.participantName := participantName;
      this.position := position;
      this.grade := grade;
      this.experience := experience;
      turns := [];
      conversationHistory := [];
      currentUserMessage := "";
      currentDifficulty := InitialDifficulty;
      questionsAsked := 0;
      stepCounter := 0;
      topicsCovered := [];
      questionResults := [];
      detectedHallucinations := [];
      offTopicAttempts := 0;
      observerAnalysis := None;
      calibratorRecommendation := None;
      finalFeedback := None;
      isFinished := false;
      stopReason := "";
      InitialValid(participantName, position, grade, experience);
    }

    /** `start_node`: the greeting becomes turn 1. */
    method StartNode(greeting: InterviewerGreetingSchema, now: string)
      requires Valid() && turns == []
      modifies this
      ensures View() == StartStep(old(View()), greeting, now)
      ensures Valid()
    {
      turns := turns + [InterviewerTurn(1, greeting.response, greeting.thinking, now)];
      stepCounter := 1;
      questionsAsked := 1;
      StartKeepsValid(old(View()), greeting, now);
    }

    /** `user_input_node`: the console answer is a parameter. */
    method UserInputNode(answer: string)
      requires Valid()
      modifies this
      ensures View() == UserInputStep(old(View()), answer)
      ensures Valid()
    {
      currentUserMessage := answer;
      if turns != [] {
        var n := |turns|;
        turns := turns[..n - 1] + [turns[n - 1].(userMessage := currentUserMessage)];
      }
      UserInputKeepsValid(old(View()), answer);
    }

    /** `mentor_node`, given the analysis, the calibration and the thinking the Mentor returned. */
    method MentorNode(analysis: MentorAnalysis, calibration: CalibrationResult, thinking: string)
      requires Valid() && turns != [] && ValidMentorParts(analysis, calibration)
      modifies this
      ensures View() == MentorStep(old(View()), analysis, calibration, thinking)
      ensures Valid()
    {
      NoteOnLastTurn("Mentor", thinking);
      ApplyAnalysis(analysis, calibration);
      MentorKeepsValid(old(View()), analysis, calibration, thinking);
    }

    /** `turns[-1].add_thought(agent, thought)`. */
    method NoteOnLastTurn(agent: string, thought: string)
      requires turns != []
      modifies this
      ensures View() == NoteStep(old(View()), agent, thought)
    {
      var n := |turns|;
      var current := turns[n - 1];
      turns := turns[..n - 1] + [current.(internalThoughts := WithNote(current.internalThoughts, agent, thought))];
    }

    /** The field updates of `mentor_node`. */
    method ApplyAnalysis(analysis: MentorAnalysis, calibration: CalibrationResult)
      requires turns != []
      modifies this
      ensures View() == AnalysisStep(old(View()), analysis, calibration)
    {
      AdoptAdvice(analysis, calibration);
      TallyAnswer(analysis, calibration);
    }

    method AdoptAdvice(analysis: MentorAnalysis, calibration: CalibrationResult)
      modifies this
      ensures View() == AdviceStep(old(View()), analysis, calibration)
    {
      observerAnalysis := Some(analysis);
      calibratorRecommendation := Some(calibration);
      currentDifficulty := calibration.difficultyLevel;
      topicsCovered := AddTopic(topicsCovered, calibration.topicRecommendation);
    }

    method TallyAnswer(analysis: MentorAnalysis, calibration: CalibrationResult)
      requires turns != []
      modifies this
      ensures View() == TallyStep(old(View()), analysis, calibration)
    {
      if analysis.answerType == "hallucination" {
        detectedHallucinations := detectedHallucinations + analysis.factualErrors;
      }
      if analysis.answerType == "off_topic" {
        offTopicAttempts := offTopicAttempts + 1;
      }
      var result := MakeQuestionResult(analysis, calibration, turns[|turns| - 1].agentVisibleMessage, currentUserMessage);
      questionResults := questionResults + [result];
    }

    /** `interviewer_node`, given the response the Interviewer returned. */
    method InterviewerNode(response: InterviewerResponseSchema, now: string)
      requires Valid()
      modifies this
      ensures View() == InterviewerStep(old(View()), response, now)
      ensures Valid()
    {
      stepCounter := stepCounter + 1;
      turns := turns + [InterviewerTurn(stepCounter, response.response, response.thinking, now)];
      questionsAsked := questionsAsked + 1;
      InterviewerKeepsValid(old(View()), response, now);
    }

    /** `check_finish_node`: the route to take, with the flags written on finish. */
    method CheckFinish() returns (route: Route)
      requires Valid() && !isFinished
      modifies this
      ensures View() == CheckStep(old(View()))
      ensures route == if FinishReason(old(View())).Some? then Finish else Continue
      ensures Valid()
    {
      CheckKeepsValid(View());
      if Lower(currentUserMessage) in StopWords {
        isFinished := true;
        stopReason := UserStopped;
        return Finish;
      }
      if questionsAsked >= MaxQuestions {
        isFinished := true;
        stopReason := QuestionsExhausted;
        return Finish;
      }
      if |detectedHallucinations| >= MaxHallucinations {
        isFinished := true;
        stopReason := TooManyHallucinations;
        return Finish;
      }
      return Continue;
    }

    /**
     * One pass of the loop, `user_input -> mentor -> interviewer`, and the
     * finishing check that decides where the graph goes next.
     */
    method Pass(answer: string, analysis: MentorAnalysis, calibration: CalibrationResult, thinking: string,
                response: InterviewerResponseSchema, now: string) returns (route: Route)
      requires Valid() && turns != [] && !isFinished && ValidMentorParts(analysis, calibration)
      modifies this
      ensures Valid() && questionsAsked == old(questionsAsked) + 1 && |turns| == |old(turns)| + 1
      ensures route == Finish <==> isFinished
      ensures route == Finish ==> stopReason in {UserStopped, QuestionsExhausted, TooManyHallucinations}
      ensures route == Continue ==> questionsAsked < MaxQuestions
      ensures currentUserMessage == answer
      ensures detectedHallucinations == old(detectedHallucinations)
                + (if analysis.answerType == "hallucination" then analysis.factualErrors else [])
      ensures route == if FinishReason(View()).Some? then Finish else Continue
      ensures route == Finish ==> FinishReason(View()) == Some(stopReason)
    {
      UserInputNode(answer);
      MentorNode(analysis, calibration, thinking);
      InterviewerNode(response, now);
      ghost var before := View();
      route := CheckFinish();
      CheckKeepsValid(before);
    }

    /** `manager_node`: the feedback is stored. */
    method ManagerNode(feedback: FinalFeedback)
      requires Valid()
      modifies this
      ensures View() == ManagerStep(old(View()), feedback)
      ensures Valid()
    {
      finalFeedback := Some(feedback);
    }
  }

  /** Pass `p` of a run, with the answer, the agents' results and the time of that pass. */
  method RunPass(state: InterviewState, answer: nat -> string,
                 mentor: nat -> (MentorAnalysis, CalibrationResult, string),
                 response: nat -> InterviewerResponseSchema, clock: nat -> string, p: nat)
    returns (route: Route)
    requires state.Valid() && state.turns != [] && !state.isFinished
    requires state.questionsAsked == p + 1 && state.detectedHallucinations == HallucinationsUpTo(mentor, p)
    requires ValidMentorParts(mentor(p).0, mentor(p).1)
    modifies state
    ensures state.Valid() && state.questionsAsked == p + 2 && |state.turns| == |old(state.turns)| + 1
    ensures state.currentUserMessage == answer(p)
    ensures state.detectedHallucinations == HallucinationsUpTo(mentor, p + 1)
    ensures route == Finish <==> state.isFinished
    ensures route == if PassReason(answer, mentor, p).Some? then Finish else Continue
    ensures route == Finish ==> PassReason(answer, mentor, p) == Some(state.stopReason)
  {
    var (analysis, calibration, thinking) := mentor(p);
    route := state.Pass(answer(p), analysis, calibration, thinking, response(p), clock(p + 1));
    PassReasonOfView(state.View(), answer, mentor, p);
  }

  /**
   * The loop of the graph, from the state `start_node` leaves up to the
   * first pass whose check finds a reason; the trace is the node sequence
   * from `start` to that pass's Interviewer.
   */
  method RunPasses(state: InterviewState, answer: nat -> string,
                   mentor: nat -> (MentorAnalysis, CalibrationResult, string),
                   response: nat -> InterviewerResponseSchema, clock: nat -> string)
    returns (passes: nat, trace: seq<Node>)
    requires state.Valid() && |state.turns| == 1 && state.questionsAsked == 1 && !state.isFinished
    requires state.detectedHallucinations == []
    requires forall p :: ValidMentorParts(mentor(p).0, mentor(p).1)
    modifies state
    ensures state.Valid() && state.isFinished
    ensures passes == RunLength(answer, mentor)
    ensures state.questionsAsked == passes + 1 && |state.turns| == passes + 1
    ensures state.currentUserMessage == answer(passes - 1)
    ensures state.detectedHallucinations == HallucinationsUpTo(mentor, passes)
    ensures PassReason(answer, mentor, passes - 1) == Some(state.stopReason)
    ensures |trace| == 3 * passes + 1 && trace[0] == Start && trace[|trace| - 1] == Interviewer
    ensures FollowsEdges(trace)
  {
    ghost var rs := PassReasons(answer, mentor);
    trace := [Start];
    passes := 0;
    while true
      invariant state.Valid() && |state.turns| >= 1 && !state.isFinished
      invariant state.questionsAsked == passes + 1 < MaxQuestions
      invariant |trace| == 3 * passes + 1 && trace[0] == Start && FollowsEdges(trace)
      invariant trace[|trace| - 1] == if passes == 0 then Start else Interviewer
      invariant state.detectedHallucinations == HallucinationsUpTo(mentor, passes)
      invariant PassesFrom(rs, passes) == PassesFrom(rs, 0)
      decreases MaxQuestions - state.questionsAsked
    {
      var route := RunPass(state, answer, mentor, response, clock, passes);
      passes := passes + 1;
      PassFollowsEdges(trace);
      trace := trace + [UserInput, Mentor, Interviewer];
      if route == Finish {
        return;
      }
    }
  }

  /**
   * A whole interview from `create_initial_state` to the Manager. The
   * answers, the agents' results and the clock are indexed by pass. The
   * loop runs the Interviewer at most nine times, since the question count
   * starts at 1 and the check finishes once it reaches 10.
   */
  method RunInterview(participantName: string, position: string, grade: string, experience: string,
                      greeting: InterviewerGreetingSchema,
                      answer: nat -> string,
                      mentor: nat -> (MentorAnalysis, CalibrationResult, string),
                      response: nat -> InterviewerResponseSchema,
                      feedback: FinalFeedback,
                      clock: nat -> string)
    returns (state: InterviewState, passes: nat, trace: seq<Node>)
    requires forall p :: ValidMentorParts(mentor(p).0, mentor(p).1)
    ensures fresh(state) && state.Valid()
    ensures 1 <= passes <= MaxQuestions - 1
    ensures state.questionsAsked == passes + 1 && |state.turns| == passes + 1
    ensures state.isFinished && state.stopReason in {UserStopped, QuestionsExhausted, TooManyHallucinations}
    ensures state.finalFeedback == Some(feedback)
    ensures FinishReason(state.View()) == Some(state.stopReason)
    ensures passes == RunLength(answer, mentor)
    ensures PassReason(answer, mentor, passes - 1) == Some(state.stopReason)
    ensures state.currentUserMessage == answer(passes - 1)
    ensures state.stopReason == UserStopped <==> Lower(answer(passes - 1)) in StopWords
    ensures forall p :: 0 <= p < passes - 1 ==> Lower(answer(p)) !in StopWords
    ensures state.detectedHallucinations == HallucinationsUpTo(mentor, passes)
    ensures (forall p :: Lower(answer(p)) !in StopWords && mentor(p).0.answerType != "hallucination") ==>
              passes == MaxQuestions - 1 && state.stopReason == QuestionsExhausted
    ensures |trace| == 3 * passes + 2
    ensures trace[0] == Start && trace[|trace| - 1] == Manager && FollowsEdges(trace)
  {
    state := new InterviewState(participantName, position, grade, experience);
    state.StartNode(greeting, clock(0));
    passes, trace := RunPasses(state, answer, mentor, response, clock);
    PassReasonOfView(state.View(), answer, mentor, passes - 1);
    EarlierPassesGoOn(answer, mentor, passes);
    if forall p :: Lower(answer(p)) !in StopWords && mentor(p).0.answerType != "hallucination" {
      QuietRunExhausts(answer, mentor);
    }
    state.ManagerNode(feedback);
    FinishFollowsEdges(trace);
    trace := trace + [Manager];
  }
}
