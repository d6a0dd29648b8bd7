/**
 * The agents of src/agents/agents.py: how each assembles the message list it
 * sends to the language model, and how it turns the model's answer into a
 * validated schema value (a schema-constrained call, then a free-text
 * fallback, inside a bounded retry loop).
 *
 * The model is an oracle: for each attempt the caller supplies what the
 * constrained call returned (a parsed JSON value, or nothing when it raised)
 * and what the free call returned (its text, or nothing when it raised).
 * `json.loads` is a parameter; the prompt texts, which come from builders
 * outside this model, are parameters too.
 */
module Agents {
  import opened Wrappers
  import opened Text
  import opened Json
  import opened Schemas
  import opened Structs
  import opened Salvage

  datatype Message =
    | SystemMessage(content: string)
    | HumanMessage(content: string)
    | AiMessage(content: string)

  // ---- conversation history ----

  /** `turns[-3:] if turns else []`. */
  function Recent(turns: seq<TurnRecord>): (r: seq<TurnRecord>)
    ensures |r| == if |turns| < 3 then |turns| else 3
    ensures r == turns[|turns| - |r|..]
  {
    if |turns| <= 3 then turns else turns[|turns| - 3..]
  }

  /** What one turn contributes: the interviewer's message, then the answer if there is one. */
  function TurnMessages(t: TurnRecord): seq<Message>
  {
    [AiMessage(t.agentVisibleMessage)] + (if t.userMessage != "" then [HumanMessage(t.userMessage)] else [])
  }

  /** The messages of a run of turns, in order. */
  function HistoryOf(turns: seq<TurnRecord>): seq<Message>
  {
    if turns == [] then [] else HistoryOf(turns[..|turns| - 1]) + TurnMessages(turns[|turns| - 1])
  }

  /** The contents of the AI messages of `ms`, in order. */
  function AiTexts(ms: seq<Message>): seq<string>
  {
    if ms == [] then []
    else AiTexts(ms[..|ms| - 1]) + (if ms[|ms| - 1].AiMessage? then [ms[|ms| - 1].content] else [])
  }

  /** The contents of the human messages of `ms`, in order. */
  function HumanTexts(ms: seq<Message>): seq<string>
  {
    if ms == [] then []
    else HumanTexts(ms[..|ms| - 1]) + (if ms[|ms| - 1].HumanMessage? then [ms[|ms| - 1].content] else [])
  }

  /** The interviewer's message of every turn. */
  function AgentMessages(turns: seq<TurnRecord>): (r: seq<string>)
    ensures |r| == |turns|
  {
    seq(|turns|, i requires 0 <= i < |turns| => turns[i].agentVisibleMessage)
  }

  /** The non-empty answers of the turns, in order. */
  function UserAnswers(turns: seq<TurnRecord>): seq<string>
  {
    if turns == [] then []
    else UserAnswers(turns[..|turns| - 1])
         + (if turns[|turns| - 1].userMessage != "" then [turns[|turns| - 1].userMessage] else [])
  }

  lemma {:induction false} TextsConcat(a: seq<Message>, b: seq<Message>)
    ensures AiTexts(a + b) == AiTexts(a) + AiTexts(b)
    ensures HumanTexts(a + b) == HumanTexts(a) + HumanTexts(b)
    ensures |AiTexts(a + b)| + |HumanTexts(a + b)| <= |a + b|
    decreases |b|
  {
    if b == [] {
      assert a + b == a;
      TextsBound(a);
    } else {
      var b' := b[..|b| - 1];
      assert (a + b)[..|a + b| - 1] == a + b';
      TextsConcat(a, b');
    }
  }

  lemma {:induction false} TextsBound(ms: seq<Message>)
    ensures |AiTexts(ms)| + |HumanTexts(ms)| <= |ms|
  {
    if ms != [] {
      TextsBound(ms[..|ms| - 1]);
    }
  }

  lemma TurnTexts(t: TurnRecord)
    ensures AiTexts(TurnMessages(t)) == [t.agentVisibleMessage]
    ensures HumanTexts(TurnMessages(t)) == if t.userMessage != "" then [t.userMessage] else []
  {
    var ms := TurnMessages(t);
    assert AiTexts([AiMessage(t.agentVisibleMessage)]) == [t.agentVisibleMessage] by {
      assert [AiMessage(t.agentVisibleMessage)][..0] == [];
    }
    assert HumanTexts([AiMessage(t.agentVisibleMessage)]) == [] by {
      assert [AiMessage(t.agentVisibleMessage)][..0] == [];
    }
    if t.userMessage != "" {
      assert ms[..1] == [AiMessage(t.agentVisibleMessage)];
    } else {
      assert ms == [AiMessage(t.agentVisibleMessage)];
    }
  }

  /**
   * The history holds exactly one AI message per turn, carrying that turn's
   * interviewer message, and one human message per non-empty answer; nothing
   * else, so it has between one and two messages per turn.
   */
  lemma {:induction false} HistoryContents(turns: seq<TurnRecord>)
    ensures AiTexts(HistoryOf(turns)) == AgentMessages(turns)
    ensures HumanTexts(HistoryOf(turns)) == UserAnswers(turns)
    ensures |turns| <= |HistoryOf(turns)| <= 2 * |turns|
  {
    if turns != [] {
      var init := turns[..|turns| - 1];
      var t := turns[|turns| - 1];
      var h := HistoryOf(init);
      var tm := TurnMessages(t);
      assert HistoryOf(turns) == h + tm;
      HistoryContents(init);
      TextsConcat(h, tm);
      TurnTexts(t);
      assert AiTexts(HistoryOf(turns)) == AgentMessages(turns) by {
        assert AgentMessages(turns) == AgentMessages(init) + [t.agentVisibleMessage];
      }
    }
  }

  /** Turns before the last three never reach the Mentor's or the Interviewer's history. */
  lemma OnlyRecentTurns(older: seq<TurnRecord>, last3: seq<TurnRecord>)
    requires |last3| == 3
    ensures HistoryOf(Recent(older + last3)) == HistoryOf(last3)
  {
    assert (older + last3)[|older|..] == last3;
  }

  /** `for turn in turns: messages.append(AIMessage(...)); if turn.user_message: messages.append(HumanMessage(...))`. */
  method AppendHistory(messages: seq<Message>, turns: seq<TurnRecord>) returns (r: seq<Message>)
    ensures r == messages + HistoryOf(turns)
  {
    r := messages;
    for i := 0 to |turns|
      invariant r == messages + HistoryOf(turns[..i])
    {
      assert turns[..i + 1][..i] == turns[..i];
      r := r + [AiMessage(turns[i].agentVisibleMessage)];
      if turns[i].userMessage != "" {
        r := r + [HumanMessage(turns[i].userMessage)];
      }
    }
    assert turns[..|turns|] == turns;
  }

  // ---- message lists of the five agent calls ----

  /** `Mentor.analyze_and_calibrate`: persona, the last three turns, the pending answer if any, the request. */
  method MentorMessages(persona: string, turns: seq<TurnRecord>, currentUserMessage: string, request: string)
    returns (messages: seq<Message>)
    ensures messages == [SystemMessage(persona)] + HistoryOf(Recent(turns))
                        + (if currentUserMessage != "" then [HumanMessage(currentUserMessage)] else [])
                        + [HumanMessage(request)]
  {
    messages := [SystemMessage(persona)];
    var recent := if turns != [] then Recent(turns) else [];
    messages := AppendHistory(messages, recent);
    if currentUserMessage != "" {
      messages := messages + [HumanMessage(currentUserMessage)];
    }
    messages := messages + [HumanMessage(request)];
  }

  /** `Interviewer.generate_greeting`: persona, candidate card, request; no history. */
  method GreetingMessages(persona: string, userInfo: string, request: string) returns (messages: seq<Message>)
    ensures messages == [SystemMessage(persona), SystemMessage(userInfo), HumanMessage(request)]
  {
    messages := [SystemMessage(persona)];
    messages := messages + [SystemMessage(userInfo)];
    messages := messages + [HumanMessage(request)];
  }

  /** `Interviewer.generate_response`: persona, the last three turns, the request. */
  method ResponseMessages(persona: string, turns: seq<TurnRecord>, request: string) returns (messages: seq<Message>)
    ensures messages == [SystemMessage(persona)] + HistoryOf(Recent(turns)) + [HumanMessage(request)]
  {
    messages := [SystemMessage(persona)];
    var recent := if turns != [] then Recent(turns) else [];
    messages := AppendHistory(messages, recent);
    messages := messages + [HumanMessage(request)];
  }

  /** `Manager.generate_feedback`: persona, candidate statistics, every turn, the request. */
  method FeedbackMessages(persona: string, context: string, turns: seq<TurnRecord>, request: string)
    returns (messages: seq<Message>)
    ensures messages == [SystemMessage(persona), SystemMessage(context)] + HistoryOf(turns) + [HumanMessage(request)]
  {
    messages := [SystemMessage(persona)];
    messages := messages + [SystemMessage(context)];
    messages := AppendHistory(messages, turns);
    messages := messages + [HumanMessage(request)];
  }

  /** The request line of `VibeMaster.analyze_vibe`, with the candidate's answer quoted. */
  function VibeRequest(request: string, userMessage: string): string
  {
    request + "\n\nОтвет кандидата: \"" + userMessage + "\""
  }

  /** `VibeMaster.analyze_vibe`: persona, the context as an AI message if given, the request. */
  method VibeMessages(persona: string, context: string, request: string, userMessage: string)
    returns (messages: seq<Message>)
    ensures messages == [SystemMessage(persona)]
                        + (if context != "" then [AiMessage(context)] else [])
                        + [HumanMessage(VibeRequest(request, userMessage))]
  {
    messages := [SystemMessage(persona)];
    if context != "" {
      messages := messages + [AiMessage(context)];
    }
    messages := messages + [HumanMessage(VibeRequest(request, userMessage))];
  }

  // ---- resolving a structured answer ----

  const MaxRetries: nat := 3

  /** What the model returned on one attempt. */
  datatype Attempt = Attempt(constrained: Option<Json>, free: Option<string>)

  /** `with_structured_output(Schema).ainvoke(...)`: the parsed answer, validated. */
  function Constrained<S>(a: Attempt, build: Json -> Option<S>): Option<S>
  {
    match a.constrained
    case Some(v) => build(v)
    case None => None
  }

  /**
   * The free-text path: fences stripped, parsed, a dict-valued `thinking`
   * flattened, validated. Anything but a JSON object fails, since `.get`
   * does not exist on it.
   */
  function ParseFree<S>(content: string, loads: string -> Option<Json>, build: Json -> Option<S>): Option<S>
  {
    match loads(StripFences(content))
    case Some(JObj(f)) => build(JObj(FlattenThinking(f)))
    case _ => None
  }

  function Fallback<S>(a: Attempt, loads: string -> Option<Json>, build: Json -> Option<S>): Option<S>
  {
    match a.free
    case None => None
    case Some(content) => ParseFree(content, loads, build)
  }

  /** How a retry loop ends: its value, the constrained calls made and the free calls made. */
  datatype Outcome<S> = Outcome(value: Option<S>, attempts: nat, freeCalls: nat)

  /**
   * The retry loop from attempt `i` on: a constrained success returns; on
   * failure every attempt but the last tries the free-text path; when all
   * attempts fail there is no value.
   */
  function ResolveFrom<S>(script: seq<Attempt>, i: nat, loads: string -> Option<Json>, build: Json -> Option<S>)
    : (o: Outcome<S>)
    requires |script| == MaxRetries && i <= MaxRetries
    ensures i <= o.attempts <= MaxRetries && o.freeCalls < MaxRetries && o.freeCalls <= o.attempts
    ensures o.value.None? ==> o.attempts == MaxRetries && o.freeCalls == MaxRetries - 1
    ensures o.value.Some? ==> i < o.attempts
    decreases MaxRetries - i
  {
    if i == MaxRetries then Outcome(None, MaxRetries, MaxRetries - 1)
    else
      var a := script[i];
      match Constrained(a, build)
      case Some(v) => Outcome(Some(v), i + 1, i)
      case None =>
        if i < MaxRetries - 1 then
          match Fallback(a, loads, build)
          case Some(v) => Outcome(Some(v), i + 1, i + 1)
          case None => ResolveFrom(script, i + 1, loads, build)
        else ResolveFrom(script, i + 1, loads, build)
  }

  /**
   * A value comes from the last attempt made: from its constrained call,
   * after one free call per earlier attempt, or from its free-text path,
   * which the last attempt never takes.
   */
  ghost predicate FromLastAttempt<S>(o: Outcome<S>, script: seq<Attempt>, loads: string -> Option<Json>, build: Json -> Option<S>)
    requires |script| == MaxRetries && 1 <= o.attempts <= MaxRetries
  {
    var a := script[o.attempts - 1];
    || (o.value == Constrained(a, build) && o.freeCalls == o.attempts - 1)
    || (o.value == Fallback(a, loads, build) && o.attempts < MaxRetries && o.freeCalls == o.attempts)
  }

  lemma {:induction false} ResolveSource<S>(script: seq<Attempt>, i: nat, loads: string -> Option<Json>, build: Json -> Option<S>)
    requires |script| == MaxRetries && i <= MaxRetries
    ensures var o := ResolveFrom(script, i, loads, build);
            o.value.Some? ==> FromLastAttempt(o, script, loads, build)
    decreases MaxRetries - i
  {
    if i < MaxRetries {
      var a := script[i];
      match Constrained(a, build)
      case Some(v) =>
        assert ResolveFrom(script, i, loads, build) == Outcome(Some(v), i + 1, i);
      case None =>
        var f := if i < MaxRetries - 1 then Fallback(a, loads, build) else None;
        if f.Some? {
          assert ResolveFrom(script, i, loads, build) == Outcome(f, i + 1, i + 1);
        } else {
          assert ResolveFrom(script, i, loads, build) == ResolveFrom(script, i + 1, loads, build);
          ResolveSource(script, i + 1, loads, build);
        }
    }
  }

  /**
   * The loop returns on the first success: every attempt before the one it
   * stops at failed, both its constrained call and, where it was made, its
   * free-text fallback.
   */
  lemma {:induction false} EarlierFailed<S>(script: seq<Attempt>, i: nat, loads: string -> Option<Json>, build: Json -> Option<S>)
    requires |script| == MaxRetries && i <= MaxRetries
    ensures var o := ResolveFrom(script, i, loads, build);
            forall k :: i <= k < o.attempts - 1 ==>
              Constrained(script[k], build).None? && (k < MaxRetries - 1 ==> Fallback(script[k], loads, build).None?)
    decreases MaxRetries - i
  {
    if i < MaxRetries {
      EarlierFailed(script, i + 1, loads, build);
    }
  }

  /** The `for attempt in range(MAX_RETRIES)` loop with its early returns. */
  method Resolve<S>(script: seq<Attempt>, loads: string -> Option<Json>, build: Json -> Option<S>)
    returns (value: Option<S>, attempts: nat, freeCalls: nat)
    requires |script| == MaxRetries
    ensures Outcome(value, attempts, freeCalls) == ResolveFrom(script, 0, loads, build)
  {
    attempts := 0;
    freeCalls := 0;
    for attempt := 0 to MaxRetries
      invariant attempts == attempt && freeCalls == attempt - (if attempt == MaxRetries then 1 else 0)
      invariant ResolveFrom(script, 0, loads, build) == ResolveFrom(script, attempt, loads, build)
    {
      attempts := attempts + 1;
      var a := script[attempt];
      match a.constrained {
        case Some(v) =>
          var r := build(v);
          if r.Some? {
            return r, attempts, freeCalls;
          }
        case None =>
      }
      if attempt < MaxRetries - 1 {
        freeCalls := freeCalls + 1;
        match a.free {
          case Some(content) =>
            var r := ParseFree(content, loads, build);
            if r.Some? {
              return r, attempts, freeCalls;
            }
          case None =>
        }
      }
    }
    value := None;
  }

  /** A first constrained success is returned at once, without any free call. */
  lemma FirstSuccess<S>(script: seq<Attempt>, loads: string -> Option<Json>, build: Json -> Option<S>)
    requires |script| == MaxRetries
    requires Constrained(script[0], build).Some?
    ensures ResolveFrom(script, 0, loads, build) == Outcome(Constrained(script[0], build), 1, 0)
  {
  }

  /**
   * The loop gives up exactly when all three constrained calls fail and the
   * free-text path fails on the first two attempts.
   */
  lemma ExhaustedIff<S>(script: seq<Attempt>, loads: string -> Option<Json>, build: Json -> Option<S>)
    requires |script| == MaxRetries
    ensures ResolveFrom(script, 0, loads, build).value.None? <==>
              (forall i :: 0 <= i < MaxRetries ==> Constrained(script[i], build).None?)
              && (forall i :: 0 <= i < MaxRetries - 1 ==> Fallback(script[i], loads, build).None?)
  {
    var o1 := ResolveFrom(script, 1, loads, build);
    var o2 := ResolveFrom(script, 2, loads, build);
    assert ResolveFrom(script, 3, loads, build).value.None?;
  }

  /** The free answer of the last attempt is never looked at. */
  lemma LastFreeIgnored<S>(script: seq<Attempt>, free: Option<string>,
                           loads: string -> Option<Json>, build: Json -> Option<S>)
    requires |script| == MaxRetries
    ensures ResolveFrom(script[2 := script[2].(free := free)], 0, loads, build)
            == ResolveFrom(script, 0, loads, build)
  {
    var s' := script[2 := script[2].(free := free)];
    assert ResolveFrom(s', 2, loads, build) == ResolveFrom(script, 2, loads, build);
  }

  /**
   * A fenced free answer whose `thinking` is an object is salvaged: the
   * other fields are read as they are and `thinking` becomes its lines.
   */
  lemma FencedSalvage<S>(body: string, f: seq<(string, Json)>,
                         loads: string -> Option<Json>, build: Json -> Option<S>)
    requires body != [] && !IsSpace(body[0]) && !Contains(body, OpenFence)
    requires loads(body + "\n") == Some(JObj(f))
    ensures ParseFree(Fenced(body), loads, build) == build(JObj(FlattenThinking(f)))
  {
    FencedRoundTrip(body);
  }

  // ---- the agents ----

  const GreetingError: string := "Failed to generate greeting after 3 attempts"
  const ResponseError: string := "Failed to generate response after 3 attempts"
  const FeedbackError: string := "Failed to generate feedback after 3 attempts"

  function OrRaise<S>(v: Option<S>, error: string): (r: Result<S, string>)
    ensures v.Some? <==> r.Success?
    ensures r.Success? ==> r.value == v.value
    ensures r.Failure? ==> r.error == error
  {
    match v
    case Some(x) => Success(x)
    case None => Failure(error)
  }

  /** `Interviewer.generate_greeting`: the greeting, or an exception after three failed attempts. */
  method GenerateGreeting(persona: string, userInfo: string, request: string,
                          script: seq<Attempt>, loads: string -> Option<Json>)
    returns (messages: seq<Message>, r: Result<InterviewerGreetingSchema, string>)
    requires |script| == MaxRetries
    ensures messages == [SystemMessage(persona), SystemMessage(userInfo), HumanMessage(request)]
    ensures r == OrRaise(ResolveFrom(script, 0, loads, ConstructGreeting).value, GreetingError)
  {
    messages := GreetingMessages(persona, userInfo, request);
    var v, _, _ := Resolve(script, loads, ConstructGreeting);
    r := OrRaise(v, GreetingError);
  }

  /** `Interviewer.generate_response`. */
  method GenerateResponse(persona: string, turns: seq<TurnRecord>, request: string,
                          script: seq<Attempt>, loads: string -> Option<Json>)
    returns (messages: seq<Message>, r: Result<InterviewerResponseSchema, string>)
    requires |script| == MaxRetries
    ensures messages == [SystemMessage(persona)] + HistoryOf(Recent(turns)) + [HumanMessage(request)]
    ensures r == OrRaise(ResolveFrom(script, 0, loads, ConstructResponse).value, ResponseError)
  {
    messages := ResponseMessages(persona, turns, request);
    var v, _, _ := Resolve(script, loads, ConstructResponse);
    r := OrRaise(v, ResponseError);
  }

  /** The `FinalFeedback` the Manager builds from a validated schema: every gap kept, in order. */
  function ToFinalFeedback(s: FinalFeedbackSchema): (f: FinalFeedback)
  {
    FinalFeedback(s.grade, s.hiringRecommendation, s.confidenceScore, s.confirmedSkills,
                  seq(|s.knowledgeGaps|, i requires 0 <= i < |s.knowledgeGaps| =>
                        GapEntry(s.knowledgeGaps[i].topic, s.knowledgeGaps[i].question,
                                 s.knowledgeGaps[i].correctAnswer)),
                  s.clarity, s.honesty, s.engagement, s.roadmap)
  }

  /** The schema back from the stored feedback and the discarded `thinking`. */
  function FromFinalFeedback(f: FinalFeedback, thinking: string): (s: FinalFeedbackSchema)
  {
    FinalFeedbackSchema(thinking, f.grade, f.hiringRecommendation, f.confidenceScore, f.confirmedSkills,
                        seq(|f.knowledgeGaps|, i requires 0 <= i < |f.knowledgeGaps| =>
                              KnowledgeGap(f.knowledgeGaps[i].topic, f.knowledgeGaps[i].question,
                                           f.knowledgeGaps[i].correctAnswer)),
                        f.clarity, f.honesty, f.engagement, f.roadmap)
  }

  /** Only `thinking` is lost: the feedback determines every other field of the schema and back. */
  lemma FeedbackConversion(s: FinalFeedbackSchema, f: FinalFeedback)
    ensures FromFinalFeedback(ToFinalFeedback(s), s.thinking) == s
    ensures ToFinalFeedback(FromFinalFeedback(f, "")) == f
  {
    assert FromFinalFeedback(ToFinalFeedback(s), s.thinking).knowledgeGaps == s.knowledgeGaps;
    assert ToFinalFeedback(FromFinalFeedback(f, "")).knowledgeGaps == f.knowledgeGaps;
  }

  /** The constraints of `FinalFeedbackSchema`, read on the stored feedback. */
  predicate ValidFinalFeedback(f: FinalFeedback)
  {
    && f.grade in Grades
    && f.hiringRecommendation in HiringRecommendations
    && 0 <= f.confidenceScore <= 100
    && f.clarity in Clarities
    && f.honesty in Honesties
    && f.engagement in Engagements
  }

  /** `Manager.generate_feedback`: every turn is sent; a returned feedback satisfies the schema. */
  method GenerateFeedback(persona: string, context: string, turns: seq<TurnRecord>, request: string,
                          script: seq<Attempt>, loads: string -> Option<Json>)
    returns (messages: seq<Message>, r: Result<FinalFeedback, string>)
    requires |script| == MaxRetries
    ensures messages == [SystemMessage(persona), SystemMessage(context)] + HistoryOf(turns) + [HumanMessage(request)]
    ensures var o := ResolveFrom(script, 0, loads, ConstructFeedback).value;
            r == if o.Some? then Success(ToFinalFeedback(o.value)) else Failure(FeedbackError)
    ensures r.Success? ==> ValidFinalFeedback(r.value)
  {
    messages := FeedbackMessages(persona, context, turns, request);
    var v, attempts, _ := Resolve(script, loads, ConstructFeedback);
    if v.Some? {
      ResolvedFeedbackValid(script, loads);
      r := Success(ToFinalFeedback(v.value));
    } else {
      r := Failure(FeedbackError);
    }
  }

  /** Whatever a retry loop returns was built from some JSON value by the schema's constructor. */
  lemma ResolvedBuilt<S>(script: seq<Attempt>, loads: string -> Option<Json>, build: Json -> Option<S>)
    requires |script| == MaxRetries
    ensures var o := ResolveFrom(script, 0, loads, build);
            o.value.Some? ==> exists v :: build(v) == o.value
  {
    var o := ResolveFrom(script, 0, loads, build);
    ResolveSource(script, 0, loads, build);
    if o.value.Some? {
      var a := script[o.attempts - 1];
      if o.value == Constrained(a, build) {
        assert build(a.constrained.value) == o.value;
      } else {
        match loads(StripFences(a.free.value))
        case Some(JObj(fs)) =>
          assert build(JObj(FlattenThinking(fs))) == o.value;
      }
    }
  }

  /** Whatever the Manager's loop returns passed `FinalFeedbackSchema`'s validation. */
  lemma ResolvedFeedbackValid(script: seq<Attempt>, loads: string -> Option<Json>)
    requires |script| == MaxRetries
    ensures var o := ResolveFrom(script, 0, loads, ConstructFeedback);
            o.value.Some? ==> ValidFeedback(o.value.value)
  {
    var o := ResolveFrom(script, 0, loads, ConstructFeedback);
    ResolvedBuilt(script, loads, ConstructFeedback);
    if o.value.Some? {
      var v :| ConstructFeedback(v) == o.value;
    }
  }

  /** What `VibeMaster.analyze_vibe` answers when every attempt fails: carry on with the interview. */
  function VibeDefault(): (d: UserIntentSchema)
    ensures !d.wantsToStop && d.stopReason == None && d.emotionalState == "neutral" && d.confidenceLevel == 0
  {
    UserIntentSchema("Не удалось определить намерение, продолжаем интервью по умолчанию", false, None, "neutral", 0)
  }

  /** `VibeMaster.analyze_vibe`: never raises; gives the default when the loop gives up. */
  method AnalyzeVibe(persona: string, context: string, request: string, userMessage: string,
                     script: seq<Attempt>, loads: string -> Option<Json>)
    returns (messages: seq<Message>, r: UserIntentSchema)
    requires |script| == MaxRetries
    ensures messages == [SystemMessage(persona)]
                        + (if context != "" then [AiMessage(context)] else [])
                        + [HumanMessage(VibeRequest(request, userMessage))]
    ensures var o := ResolveFrom(script, 0, loads, ConstructIntent).value;
            r == if o.Some? then o.value else VibeDefault()
  {
    messages := VibeMessages(persona, context, request, userMessage);
    var v, _, _ := Resolve(script, loads, ConstructIntent);
    r := if v.Some? then v.value else VibeDefault();
  }

  /** When nothing the model says can be read, the candidate is taken to want to go on. */
  lemma VibeNeverStopsOnFailure(script: seq<Attempt>, loads: string -> Option<Json>)
    requires |script| == MaxRetries
    requires forall i :: 0 <= i < MaxRetries ==> Constrained(script[i], ConstructIntent).None?
    requires forall i :: 0 <= i < MaxRetries - 1 ==> Fallback(script[i], loads, ConstructIntent).None?
    ensures ResolveFrom(script, 0, loads, ConstructIntent).value.None?
  {
    ExhaustedIff(script, loads, ConstructIntent);
  }

  // ---- the Mentor ----

  /** The analysis the Mentor falls back on when no JSON object can be found in the answer. */
  function MentorDefault(currentDifficulty: int): (s: MentorAnalysisSchema)
    ensures s.answerType == "partial" && s.factualErrors == [] && s.correctInfo == ""
    ensures s.confidenceScore == 50 && s.difficultyLevel == currentDifficulty && !s.shouldGiveHint
    ensures ValidMentor(s) <==> 1 <= currentDifficulty <= 5
  {
    MentorAnalysisSchema("Не удалось распарсить ответ", "partial", [], "", 50,
                         "Продолжай интервью", currentDifficulty, "общие вопросы", false)
  }

  const MentorCallError: string := "model call failed"
  const MentorDecodeError: string := "JSONDecodeError"
  const MentorShapeError: string := "parsed JSON is not an object"
  const MentorValidationError: string := "ValidationError"

  /** `MentorAnalysisSchema(**parsed)` after flattening, with the exception each failure raises. */
  function MentorFromParsed(parsed: Json): (r: Result<MentorAnalysisSchema, string>)
    ensures r.Success? ==> parsed.JObj? && Some(r.value) == ConstructMentor(JObj(FlattenThinking(parsed.fields)))
    ensures parsed.JObj? && ConstructMentor(JObj(FlattenThinking(parsed.fields))).Some? ==>
              r == Success(ConstructMentor(JObj(FlattenThinking(parsed.fields))).value)
    ensures parsed.JObj? && ConstructMentor(JObj(FlattenThinking(parsed.fields))).None? ==>
              r == Failure(MentorValidationError)
    ensures !parsed.JObj? ==> r == Failure(MentorShapeError)
  {
    match parsed
    case JObj(f) =>
      (match ConstructMentor(JObj(FlattenThinking(f)))
       case Some(s) => Success(s)
       case None => Failure(MentorValidationError))
    case _ => Failure(MentorShapeError)
  }

  /**
   * `Mentor.analyze_and_calibrate` up to the schema: one constrained call;
   * on failure one free call, whose text is parsed whole, else its greedy
   * `{...}` span is parsed, else the default stands in. Every exception
   * inside the fallback but a decode error of the whole text escapes.
   */
  function ResolveMentor(a: Attempt, loads: string -> Option<Json>, currentDifficulty: int)
    : (r: Result<MentorAnalysisSchema, string>)
    ensures r.Success? ==> ValidMentor(r.value)
  {
    match Constrained(a, ConstructMentor)
    case Some(s) => Success(s)
    case None =>
      match a.free
      case None => Failure(MentorCallError)
      case Some(content) =>
        var c := StripFences(content);
        match loads(c)
        case Some(parsed) => MentorFromParsed(parsed)
        case None =>
          match BraceSpan(c)
          case Some(span) =>
            (match loads(span)
             case Some(parsed) => MentorFromParsed(parsed)
             case None => Failure(MentorDecodeError))
          case None =>
            var d := MentorDefault(currentDifficulty);
            if ValidMentor(d) then Success(d) else Failure(MentorValidationError)
  }

  /** A constrained answer the schema accepts is the Mentor's answer; no free call is looked at. */
  lemma MentorConstrainedFirst(a: Attempt, loads: string -> Option<Json>, currentDifficulty: int, s: MentorAnalysisSchema)
    requires Constrained(a, ConstructMentor) == Some(s)
    ensures ResolveMentor(a, loads, currentDifficulty) == Success(s)
  {
  }

  /** A free answer whose whole stripped text parses is read as it is, never as a brace span. */
  lemma MentorParsesWhole(a: Attempt, loads: string -> Option<Json>, currentDifficulty: int, parsed: Json)
    requires Constrained(a, ConstructMentor).None? && a.free.Some?
    requires loads(StripFences(a.free.value)) == Some(parsed)
    ensures ResolveMentor(a, loads, currentDifficulty) == MentorFromParsed(parsed)
  {
  }

  /** A constrained call that fails with no free answer lets the error escape. */
  lemma MentorCallFails(a: Attempt, loads: string -> Option<Json>, currentDifficulty: int)
    requires Constrained(a, ConstructMentor).None? && a.free.None?
    ensures ResolveMentor(a, loads, currentDifficulty) == Failure(MentorCallError)
  {
  }

  /** With no braces to salvage the Mentor answers with its default, at the current difficulty. */
  lemma MentorDefaultWhenNoBraces(a: Attempt, loads: string -> Option<Json>, currentDifficulty: int)
    requires 1 <= currentDifficulty <= 5
    requires Constrained(a, ConstructMentor).None? && a.free.Some?
    requires loads(StripFences(a.free.value)).None?
    requires forall i, j :: 0 <= i < j < |StripFences(a.free.value)| ==>
               !(StripFences(a.free.value)[i] == '{' && StripFences(a.free.value)[j] == '}')
    ensures ResolveMentor(a, loads, currentDifficulty) == Success(MentorDefault(currentDifficulty))
  {
  }

  /** A decode error on the whole text with a `{...}` span in it parses that span instead. */
  lemma MentorSalvagesSpan(a: Attempt, loads: string -> Option<Json>, currentDifficulty: int,
                           i: nat, j: nat)
    requires Constrained(a, ConstructMentor).None? && a.free.Some?
    requires loads(StripFences(a.free.value)).None?
    requires i < j < |StripFences(a.free.value)|
    requires StripFences(a.free.value)[i] == '{' && StripFences(a.free.value)[j] == '}'
    ensures BraceSpan(StripFences(a.free.value)).Some?
    ensures var span := BraceSpan(StripFences(a.free.value)).value;
            ResolveMentor(a, loads, currentDifficulty) ==
              match loads(span)
              case Some(parsed) => MentorFromParsed(parsed)
              case None => Failure(MentorDecodeError)
  {
  }

  /** `MentorAnalysis` and `CalibrationResult` copied out of one schema value, with its `thinking`. */
  function SplitMentor(s: MentorAnalysisSchema): (r: (MentorAnalysis, CalibrationResult, string))
  {
    (MentorAnalysis(s.answerType, s.factualErrors, s.correctInfo, s.confidenceScore, s.instructionToInterviewer),
     CalibrationResult(s.difficultyLevel, s.topicRecommendation, s.shouldGiveHint),
     s.thinking)
  }

  function JoinMentor(a: MentorAnalysis, c: CalibrationResult, thinking: string): MentorAnalysisSchema
  {
    MentorAnalysisSchema(thinking, a.answerType, a.factualErrors, a.correctInfo, a.confidenceScore,
                         a.instructionToInterviewer, c.difficultyLevel, c.topicRecommendation, c.shouldGiveHint)
  }

  /** Splitting loses nothing and adds nothing: the two halves and the thinking are the schema. */
  lemma SplitMentorInverse(s: MentorAnalysisSchema, a: MentorAnalysis, c: CalibrationResult, t: string)
    ensures JoinMentor(SplitMentor(s).0, SplitMentor(s).1, SplitMentor(s).2) == s
    ensures SplitMentor(JoinMentor(a, c, t)) == (a, c, t)
  {
  }

  /** The analysis and the calibration of a valid schema keep its bounds. */
  predicate ValidMentorParts(a: MentorAnalysis, c: CalibrationResult)
  {
    a.answerType in AnswerTypes && 0 <= a.confidenceScore <= 100 && 1 <= c.difficultyLevel <= 5
  }

  /** `Mentor.analyze_and_calibrate`. */
  method AnalyzeAndCalibrate(persona: string, turns: seq<TurnRecord>, currentUserMessage: string,
                             request: string, currentDifficulty: int,
                             call: Attempt, loads: string -> Option<Json>)
    returns (messages: seq<Message>, r: Result<(MentorAnalysis, CalibrationResult, string), string>)
    ensures messages == [SystemMessage(persona)] + HistoryOf(Recent(turns))
                        + (if currentUserMessage != "" then [HumanMessage(currentUserMessage)] else [])
                        + [HumanMessage(request)]
    ensures var s := ResolveMentor(call, loads, currentDifficulty);
            r == if s.Success? then Success(SplitMentor(s.value)) else Failure(s.error)
    ensures r.Success? ==> ValidMentorParts(r.value.0, r.value.1)
  {
    messages := MentorMessages(persona, turns, currentUserMessage, request);
    var s := ResolveMentor(call, loads, currentDifficulty);
    if s.Success? {
      r := Success(SplitMentor(s.value));
    } else {
      r := Failure(s.error);
    }
  }
}
