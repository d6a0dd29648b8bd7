/**
 * The records of src/structs/structs.py: the `Turn` dataclass, whose
 * `user_message` and `internal_thoughts` are updated in place, and the plain
 * records `QuestionResult` and `LogUnit`. `MentorAnalysis`, `CalibrationResult`
 * and `FinalFeedback` are imported from that file by the agents but not
 * declared there; they are declared here with the fields the agents fill in.
 */
module Structs {
  import opened Wrappers
  import opened Text

  /** A value copy of a turn: what `dataclasses.asdict(turn)` yields. */
  datatype TurnRecord = TurnRecord(
    turnId: int,
    agentVisibleMessage: string,
    userMessage: string,
    internalThoughts: string,
    timestamp: string)

  /** One entry of the agents' private notes: `[agent]: thought`. */
  function NoteLine(agentName: string, thought: string): string
  {
    "[" + agentName + "]: " + thought
  }

  /** The notes field after a sequence of notes has been added to an empty one. */
  function RenderNotes(notes: seq<(string, string)>): string
  {
    Join(seq(|notes|, i requires 0 <= i < |notes| => NoteLine(notes[i].0, notes[i].1)), "\n")
  }

  /** The new value `add_thought` gives the notes field. */
  function WithNote(notes: string, agentName: string, thought: string): (r: string)
    ensures notes <= r && |r| > |notes|
    ensures notes == "" ==> r == NoteLine(agentName, thought)
    ensures notes != "" ==> r[|notes|..] == "\n" + NoteLine(agentName, thought)
  {
    if notes != "" then notes + "\n" + NoteLine(agentName, thought)
    else NoteLine(agentName, thought)
  }

  lemma {:induction false} JoinSnoc(xs: seq<string>, x: string, sep: string)
    requires |xs| >= 1
    ensures Join(xs + [x], sep) == Join(xs, sep) + sep + x
  {
    if |xs| == 1 {
      assert (xs + [x])[1..] == [x];
    } else {
      assert (xs + [x])[1..] == xs[1..] + [x];
      JoinSnoc(xs[1..], x, sep);
    }
  }

  /**
   * Adding a note to rendered notes renders the longer sequence: the notes
   * field is always the entries added so far, in order, one per line.
   */
  lemma WithNoteRenders(notes: seq<(string, string)>, agentName: string, thought: string)
    ensures WithNote(RenderNotes(notes), agentName, thought) == RenderNotes(notes + [(agentName, thought)])
  {
    var lines := seq(|notes|, i requires 0 <= i < |notes| => NoteLine(notes[i].0, notes[i].1));
    var more := notes + [(agentName, thought)];
    var lines' := seq(|more|, i requires 0 <= i < |more| => NoteLine(more[i].0, more[i].1));
    assert lines' == lines + [NoteLine(agentName, thought)];
    if notes == [] {
      assert lines' == [NoteLine(agentName, thought)];
    } else {
      assert |NoteLine(notes[0].0, notes[0].1)| > 0;
      assert Join(lines, "\n") != "" by {
        JoinFirst(lines, "\n");
      }
      JoinSnoc(lines, NoteLine(agentName, thought), "\n");
    }
  }

  lemma JoinFirst(xs: seq<string>, sep: string)
    requires |xs| >= 1
    ensures xs[0] <= Join(xs, sep)
  {
  }

  /**
   * A turn of the interview. The id, the interviewer's message and the
   * creation time never change; the user's answer and the notes are written
   * after creation.
   */
  class Turn {
    const turnId: int
    const agentVisibleMessage: string
    var userMessage: string
    var internalThoughts: string
    /** `datetime.now().isoformat()` at creation; the clock read is the caller's. */
    const timestamp: string

    constructor (turnId: int, agentVisibleMessage: string, timestamp: string,
                 userMessage: string := "", internalThoughts: string := "")
      ensures this.turnId == turnId && this.agentVisibleMessage == agentVisibleMessage
      ensures this.timestamp == timestamp
      ensures this.userMessage == userMessage && this.internalThoughts == internalThoughts
    {
      this.turnId := turnId;
      this.agentVisibleMessage := agentVisibleMessage;
      this.timestamp := timestamp;
      this.userMessage := userMessage;
      this.internalThoughts := internalThoughts;
    }

    function Record(): TurnRecord
      reads this
    {
      TurnRecord(turnId, agentVisibleMessage, userMessage, internalThoughts, timestamp)
    }

    /** Appends an attributed note; nothing but the notes changes, and the old notes stay a prefix. */
    method AddThought(agentName: string, thought: string)
      modifies this`internalThoughts
      ensures internalThoughts == WithNote(old(internalThoughts), agentName, thought)
      ensures old(internalThoughts) <= internalThoughts
      ensures Record() == old(Record()).(internalThoughts := internalThoughts)
    {
      if internalThoughts != "" {
        internalThoughts := internalThoughts + "\n" + NoteLine(agentName, thought);
      } else {
        internalThoughts := NoteLine(agentName, thought);
      }
    }
  }

  /** The outcome of one answered question; `confidence` is kept as the integer score 0..100. */
  datatype QuestionResult = QuestionResult(
    topic: string,
    question: string,
    userAnswer: string,
    isCorrect: bool,
    correctAnswer: Option<string>,
    confidence: int)

  /** `QuestionResult(topic, question, user_answer, is_correct)` with its defaults. */
  function NewQuestionResult(topic: string, question: string, userAnswer: string, isCorrect: bool): (q: QuestionResult)
    ensures q.topic == topic && q.question == question && q.userAnswer == userAnswer && q.isCorrect == isCorrect
    ensures q.correctAnswer == None && q.confidence == 0
  {
    QuestionResult(topic, question, userAnswer, isCorrect, None, 0)
  }

  datatype MentorAnalysis = MentorAnalysis(
    answerType: string,
    factualErrors: seq<string>,
    correctInfo: string,
    confidenceScore: int,
    instructionToInterviewer: string)

  datatype CalibrationResult = CalibrationResult(
    difficultyLevel: int,
    topicRecommendation: string,
    shouldGiveHint: bool)

  /** One knowledge gap as the Manager stores it: a dict with three keys. */
  datatype GapEntry = GapEntry(topic: string, question: string, correctAnswer: string)

  datatype FinalFeedback = FinalFeedback(
    grade: string,
    hiringRecommendation: string,
    confidenceScore: int,
    confirmedSkills: seq<string>,
    knowledgeGaps: seq<GapEntry>,
    clarity: string,
    honesty: string,
    engagement: string,
    roadmap: seq<string>)

  /** The snapshot the session log keeps. */
  datatype LogUnit = LogUnit(
    participantName: string,
    turns: seq<TurnRecord>,
    finalFeedback: Option<FinalFeedback>)

  /** `LogUnit(participant_name)` with its defaults. */
  function NewLogUnit(participantName: string): (u: LogUnit)
    ensures u.participantName == participantName
    ensures u.turns == [] && u.finalFeedback == None
  {
    LogUnit(participantName, [], None)
  }
}
