# InterviewAgent: the interview loop and its agents, in Dafny

InterviewAgent runs a mock technical interview as a graph of nodes over one
shared state record. The Interviewer greets the candidate. Then each pass
reads the candidate's answer, lets the Mentor analyse it and calibrate the
next question, and lets the Interviewer ask the next question. A finish check
after each pass decides whether to go round again or hand over to the
Manager, who writes the final feedback.

Each agent asks a language model for an answer shaped like a pydantic schema.
It tries a schema-constrained call first, then a free-text call whose text is
cleaned up and parsed by hand. Interviewer, Manager and VibeMaster do this in
a bounded retry loop.

This project models:

- **The graph (`graph.dfy`, module `Graph`).** The state record is the class
  `InterviewState`. Each node is a method that updates the record in place.
  Each method's new state is given by a step function on a value view of the
  record, and the invariants of the interview are proved about those step
  functions. `RunInterview` drives a whole interview from the initial state
  to the Manager.
- **The agents (`agents.dfy`, `Agents`; `salvage.dfy`, `Salvage`).** This
  covers:
  - how each agent assembles its message list from the turns;
  - the retry loop, both as a loop and as a recursive specification of it;
  - the free-text salvage: fence stripping, flattening a dict-valued
    `thinking`, and the Mentor's greedy `{...}` span and default analysis;
  - the copying of schema values into the records the graph stores.
- **The records (`structs.dfy`, `Structs`).** The `Turn` class with its
  in-place `add_thought`, and the plain records with their defaults.
- **The result schemas (`schemas.dfy`, `Schemas`).** Their `Literal` sets and
  bounds are validity predicates. `Schema(**parsed)` is a partial function
  from a parsed JSON object:
  - a required field must be present with the right type;
  - a missing optional field takes its default;
  - extra keys are ignored;
  - a violated constraint fails.
  Each schema also has a serialisation, and the round trips through it are
  proved.
- **Shared helpers.** `text.dfy` (Python's `\s`, `str.lower` on the letters
  the stop words use, join and split), `json.dfy` (parsed JSON values, dict
  lookup and update, `str()`) and `wrappers.dfy` (`Option`, `Result`).

Some parts of the program are parameters of the model:

- the language model, scripted per attempt as what the constrained call
  returned and what the free call returned (either may have failed);
- `json.loads`;
- the prompt texts;
- the console answers;
- the clock.

## Model

| member | source | states |
|---|---|---|
| Graph.InitialValid | src/graph/graph.py:255-282 | the initial state has empty turns, topics, results and hallucinations, zero counters, difficulty 3, no finish, no reason, no feedback, and satisfies the state invariant, whose parts are: as many turns as steps and as questions, turn ids 1, 2, …, distinct topics, difficulty in 1..5, and the finish flag set exactly with a reason |
| Graph.InterviewState.constructor | src/graph/graph.py:255-282 | the new record is the initial state and is valid |
| Graph.StartKeepsValid | src/graph/graph.py:35-45 | starting from no turns leaves exactly one turn, with id 1, the greeting as its message and no answer; both counters are 1 and the invariant holds |
| Graph.InterviewState.StartNode | src/graph/graph.py:23-52 | the record after `start_node` is the start step of the record before, and stays valid |
| Graph.UserInputKeepsValid | src/graph/graph.py:59-64 | the answer goes to the scratch field and to the last turn's answer only; earlier turns are unchanged; with no turns only the scratch field changes |
| Graph.InterviewState.UserInputNode | src/graph/graph.py:55-68 | the record after `user_input_node` is the user-input step of the record before, and stays valid |
| Graph.AddTopicKeepsDistinct | src/graph/graph.py:91-92 | adding a recommended topic keeps the topic list free of duplicates and keeps the old list as a prefix; a topic is added exactly when it is non-empty and new |
| Graph.NoDuplicatesPairwise | src/graph/graph.py:91-92 | "no duplicates", stated element by element, is the pairwise statement that no two positions hold equal topics |
| Graph.MentorKeepsValid | src/graph/graph.py:79-111 | given an analysis and a calibration within the schema's bounds, the Mentor step adds exactly one question result; it extends the hallucination list by exactly the factual errors for a hallucination and leaves it alone otherwise; it counts one more off-topic attempt exactly for an off-topic answer; it takes the calibrated difficulty; it keeps the turn count, the earlier turns and the invariant |
| Graph.QuestionResultFields | src/graph/graph.py:103-111 | the recorded result is correct exactly for a correct or partial answer and carries the correct information exactly when there were factual errors; its topic is "общее" when no topic was recommended |
| Graph.InterviewState.MentorNode | src/graph/graph.py:71-120 | given Mentor results within the schema's bounds (which every Mentor success has), the record after `mentor_node` is the Mentor step (note first, then the analysis fields) of the record before, and stays valid |
| Graph.InterviewState.NoteOnLastTurn | src/graph/graph.py:79-80 | only the notes of the last turn change, by `add_thought` |
| Graph.InterviewState.AdoptAdvice | src/graph/graph.py:83-92 | the analysis, the calibration and the difficulty are stored, and the recommended topic is added if new |
| Graph.InterviewState.TallyAnswer | src/graph/graph.py:95-111 | the hallucination list, the off-topic count and the question results are updated as the Mentor step says |
| Graph.InterviewState.ApplyAnalysis | src/graph/graph.py:83-111 | the field updates of `mentor_node`, in source order |
| Graph.InterviewerKeepsValid | src/graph/graph.py:138-147 | the Interviewer step adds one to both counters and appends exactly one turn whose id is the new step count, so turn count, step count and question count stay equal and the turn ids stay 1, 2, … |
| Graph.InterviewState.InterviewerNode | src/graph/graph.py:123-154 | the record after `interviewer_node` is the Interviewer step of the record before, and stays valid |
| Graph.FinishReason | src/graph/graph.py:157-182 | the checks apply in order: a stop word (whole message, any case) gives "user_stopped"; otherwise 10 or more questions give "questions_exhausted"; otherwise 5 or more hallucinations give "too_many_hallucinations"; otherwise there is no reason; each case is an if-and-only-if |
| Graph.CheckKeepsValid | src/graph/graph.py:165-182 | the check sets the finish flag and the reason together, exactly when there is a reason, and the reason it stores is that reason; otherwise the state is unchanged; the check does not change the reason itself |
| Graph.InterviewState.CheckFinish | src/graph/graph.py:157-182 | the route is finish exactly when there is a finish reason; the record after the check is the check step of the record before, and stays valid |
| Graph.StopWordEndsInterview | src/graph/graph.py:165-168 | any message that lower-cases, character by character, to one of the four stop words, in whatever case it was typed, ends the interview as stopped by the user |
| Graph.InterviewState.ManagerNode | src/graph/graph.py:185-195 | only the final feedback changes, to the Manager's result |
| Graph.InterviewState.Pass | src/graph/graph.py:235-247 | one pass `user_input -> mentor -> interviewer -> check` adds one question and one turn; it leaves the answer as the pending message and extends the hallucinations by the factual errors of a hallucination only; the route is finish exactly when the new state has a finish reason, and that reason is the stored one; continuing means fewer than 10 questions |
| Graph.PassFollowsEdges | src/graph/graph.py:235-247 | a pass extends a run that follows the edge table by `user_input, mentor, interviewer` and keeps it following the edges |
| Graph.FinishFollowsEdges | src/graph/graph.py:240-250 | the Manager may follow the Interviewer at the end of a run |
| Graph.RunLength | src/graph/graph.py:157-182 | a run has between 1 and 9 passes, since the check after the ninth pass always finds the question limit |
| Graph.PassesFrom | src/graph/graph.py:240-247 | counting from pass `p`, the run ends at some pass after `p` and within the nine possible |
| Graph.PassesFromFirst | src/graph/graph.py:240-247 | the pass the count ends at is the first from `p` on whose check finds a reason; every earlier one finds none and the run goes on |
| Graph.RunLengthFirst | src/graph/graph.py:157-247 | a run is `n` passes long exactly when the check after the `n`-th pass finds a reason and the check after every earlier pass finds none |
| Graph.PassReasonOfView | src/graph/graph.py:165-182 | the check after a pass reads that pass's answer, the question count and the hallucinations recorded so far, and nothing else |
| Graph.EarlierPassesGoOn | src/graph/graph.py:165-180 | in every pass before the last, the answer is no stop word and fewer than five hallucinations are recorded after it |
| Graph.StopAtFirstAnswer | src/graph/graph.py:165-168 | a stop word as the first answer ends the run after one pass, as stopped by the user |
| Graph.QuietRunExhausts | src/graph/graph.py:171-174 | with no stop word and no hallucinated answer, the run lasts nine passes and ends with "questions_exhausted" |
| Graph.HallucinatingRunStops | src/graph/graph.py:177-180 | with no stop word and one hallucinated fact per answer, the fifth pass ends the run with "too_many_hallucinations" |
| Graph.RunPass | src/graph/graph.py:235-247 | pass `p` leaves that pass's answer pending and the hallucinations of passes `0..p` recorded, and goes to the Manager exactly when the check after pass `p` finds a reason, which it stores |
| Graph.RunPasses | src/graph/graph.py:235-247 | the loop runs exactly as many passes as the run length, stopping at the first pass whose check finds a reason; the last answer is pending, the hallucinations of every pass are recorded and that reason is stored |
| Graph.RunInterview | src/graph/graph.py:218-252 | given Mentor results within the schema's bounds, a whole interview runs exactly as many passes as the run length, ending at the first pass whose check finds a reason. That reason is the stored one and the one the final state gives. The last answer is pending; it is a stop word exactly when the user stopped, and no earlier answer is one. The hallucinations of every pass are recorded and the feedback is stored. With no stop word and no hallucinated answer, it lasts 9 passes and ends with "questions_exhausted". It holds as many turns as questions asked, and its node trace starts at `start`, ends at `manager` and follows the edges |
| Structs.WithNote | src/structs/structs.py:18-21 | a note on empty notes is exactly `[agent]: thought`; otherwise `\n[agent]: thought` is appended, so the old notes stay a prefix and the field grows |
| Structs.WithNoteRenders | src/structs/structs.py:14-21 | the notes field is always the notes added so far, in order, one per line |
| Structs.Turn.AddThought | src/structs/structs.py:14-21 | `add_thought` changes the notes only, as `WithNote` says; id, messages and timestamp are unchanged |
| Structs.Turn.constructor | src/structs/structs.py:6-12 | a new turn has the given fields, with the answer and the notes empty by default |
| Structs.NewQuestionResult | src/structs/structs.py:23-30 | a question result has no correct answer and zero confidence by default |
| Structs.NewLogUnit | src/structs/structs.py:32-38 | a log unit starts with no turns and no feedback |
| Schemas.ConstructMentor | src/structs/schemas.py:5-39 | every analysis pydantic accepts has an answer type from the six allowed, confidence in 0..100 and difficulty in 1..5 |
| Schemas.MentorDefaults | src/structs/schemas.py:5-39 | an analysis that gives only its required fields gets no errors, empty correct information, confidence 50, difficulty 3 and no hint; it is accepted exactly when its answer type is allowed |
| Schemas.MentorRoundTrip | src/structs/schemas.py:5-39 | serialising an analysis and reading it back gives it again exactly when it is valid, and fails otherwise |
| Schemas.ConstructFeedback | src/structs/schemas.py:65-100 | every feedback pydantic accepts has a grade, a recommendation, clarity, honesty and engagement from their sets, and confidence in 0..100 |
| Schemas.FeedbackDefaults | src/structs/schemas.py:65-100 | a feedback that gives only its required fields gets empty skills, gaps and roadmap; it is accepted exactly when valid |
| Schemas.FeedbackRoundTrip | src/structs/schemas.py:59-100 | serialising a feedback and reading it back gives it again exactly when it is valid |
| Schemas.GapRoundTrip | src/structs/schemas.py:59-62 | a knowledge gap survives serialising and reading back |
| Schemas.GapItemsRoundTrip | src/structs/schemas.py:83-86 | a list of knowledge gaps survives serialising and reading back, in order |
| Schemas.IntentRoundTrip | src/agents/agents.py:477-483 | a user-intent value survives serialising and reading back |
| Salvage.OpenFenceOfFenced | src/agents/agents.py:103 | in a fenced reply, the first substitution removes the opening fence and the line break after it, and nothing else |
| Salvage.NoOpenFenceUnchanged | src/agents/agents.py:103 | text without an opening fence passes the first substitution unchanged |
| Salvage.StripCloseFence | src/agents/agents.py:104 | the result is a prefix of the input; what it drops starts at the leftmost closing fence that only whitespace follows; without such a fence nothing is dropped |
| Salvage.CloseFenceOfBody | src/agents/agents.py:104 | a closing fence after a final line break is removed, and only it |
| Salvage.FencedRoundTrip | src/agents/agents.py:103-104 | stripping both fences from a fenced block gives back its body and the line break before the closing fence |
| Salvage.BraceSpan | src/agents/agents.py:118 | a span is found exactly when some `{` comes before some `}`; the span starts with `{`, ends with `}`, and has no `{` before it and no `}` after it |
| Salvage.FlattenThinking | src/agents/agents.py:111-113 | a dict-valued `thinking` becomes its `key: value` lines joined by line breaks; every other key and the key order are unchanged; any other `thinking` is left alone |
| Salvage.FlattenIdempotent | src/agents/agents.py:111-113 | flattening twice is flattening once |
| Salvage.FlattenedLines | src/agents/agents.py:111-113 | splitting the flattened text at line breaks gives one `key: value` line per entry, in the dict's order, when no entry has a line break of its own |
| Json.PutKeepsDistinct | src/agents/agents.py:113 | assigning to a key of a dict with distinct keys leaves its keys distinct |
| Salvage.FlattenKeepsDistinct | src/agents/agents.py:111-113 | flattening `thinking` keeps the keys of a dict distinct |
| Json.Put | src/agents/agents.py:113 | assigning to a key keeps the key order (a new key is added last), sets that key and leaves every other key's value unchanged |
| Text.Lower | src/graph/graph.py:165 | lower-casing keeps the length and maps each character by itself |
| Agents.Recent | src/agents/agents.py:73 | the recent turns are the last three turns, or all turns when there are fewer |
| Agents.HistoryContents | src/agents/agents.py:74-77 | the history holds one AI message per turn with that turn's message, and one human message per non-empty answer, in order; so it has between one and two messages per turn |
| Agents.OnlyRecentTurns | src/agents/agents.py:73-77 | turns before the last three never reach the history |
| Agents.AppendHistory | src/agents/agents.py:74-77 | the append loop adds exactly the history of the turns to the messages |
| Agents.MentorMessages | src/agents/agents.py:67-89 | the Mentor sends: persona; the recent history; the pending answer if non-empty; the request |
| Agents.GreetingMessages | src/agents/agents.py:170-177 | the greeting call sends persona, candidate card and request, and no history |
| Agents.ResponseMessages | src/agents/agents.py:236-250 | the response call sends persona, the recent history and the request |
| Agents.FeedbackMessages | src/agents/agents.py:322-344 | the Manager sends persona, candidate statistics, the history of every turn and the request |
| Agents.VibeMessages | src/agents/agents.py:428-435 | VibeMaster sends persona, the context as an AI message only when non-empty, and the request quoting the answer |
| Agents.ResolveFrom | src/agents/agents.py:180-214 | the retry loop makes at most 3 constrained attempts and fewer free calls than that, never more free calls than attempts; giving up means 3 attempts and 2 free calls |
| Agents.EarlierFailed | src/agents/agents.py:180-214 | the loop returns on the first success: every attempt before the one it stops at failed, both its constrained call and, where it was made, its free-text fallback |
| Agents.ResolveSource | src/agents/agents.py:180-214 | a returned value comes from the last attempt made: either its constrained call, after one free call per earlier attempt, or its free-text path on an attempt before the third |
| Agents.Resolve | src/agents/agents.py:180-214 | the `for attempt in range(MAX_RETRIES)` loop with its early returns yields the value, attempt count and free-call count of the recursive specification |
| Agents.FirstSuccess | src/agents/agents.py:186-187 | a first constrained success is returned at once, after one attempt and no free call |
| Agents.ExhaustedIff | src/agents/agents.py:180-217 | the loop gives up exactly when all three constrained calls fail and the free-text path fails on the first two attempts |
| Agents.LastFreeIgnored | src/agents/agents.py:193 | what the free call would say on the third attempt never matters |
| Agents.FencedSalvage | src/agents/agents.py:196-208 | a fenced free answer is parsed as its body, with a dict-valued `thinking` flattened |
| Agents.ResolvedBuilt | src/agents/agents.py:186-210 | whatever the loop returns was accepted by the schema's constructor |
| Agents.OrRaise | src/agents/agents.py:216-217 | a failed loop becomes the error with the fixed message; a success passes its value through |
| Agents.GenerateGreeting | src/agents/agents.py:169-217 | the greeting messages, and the loop's value or the "Failed to generate greeting after 3 attempts" error |
| Agents.GenerateResponse | src/agents/agents.py:229-292 | the response messages, and the loop's value or the "Failed to generate response after 3 attempts" error |
| Agents.GenerateFeedback | src/agents/agents.py:320-416 | the feedback messages, the loop's value converted to the stored feedback or the "Failed to generate feedback after 3 attempts" error; returned feedback satisfies the schema's constraints |
| Agents.ResolvedFeedbackValid | src/agents/agents.py:346-409 | a feedback the Manager's loop returns satisfies `FinalFeedbackSchema`'s constraints |
| Agents.FeedbackConversion | src/agents/agents.py:354-367 | converting to the stored feedback keeps every gap's topic, question and answer, in order, and every other field; only `thinking` is lost, and converting back restores the schema |
| Agents.VibeDefault | src/agents/agents.py:477-483 | the default intent does not want to stop, has no stop reason, is "neutral" and has confidence 0 |
| Agents.AnalyzeVibe | src/agents/agents.py:422-483 | VibeMaster never fails: it gives the loop's value, or the default when the loop gives up |
| Agents.VibeNeverStopsOnFailure | src/agents/agents.py:475-483 | when no attempt can be read, the loop gives up, so the candidate is taken to want to go on |
| Agents.MentorDefault | src/agents/agents.py:130-140 | the default analysis is partial, with no errors, empty correct information, confidence 50, the current difficulty and no hint; it is valid exactly when the difficulty is in 1..5 |
| Agents.MentorFromParsed | src/agents/agents.py:108-115 | a parsed answer is accepted exactly when it is an object that the schema accepts after flattening `thinking`, and then it is that schema value; an object the schema rejects is a validation error, and anything but an object a shape error |
| Agents.MentorConstrainedFirst | src/agents/agents.py:91-96 | a constrained answer the schema accepts is the Mentor's answer, whatever the free call would say |
| Agents.MentorParsesWhole | src/agents/agents.py:99-115 | a free answer whose whole stripped text parses is read as it is, never as a brace span |
| Agents.MentorCallFails | src/agents/agents.py:97-99 | when the constrained call fails and the free call raises, the error escapes |
| Agents.ResolveMentor | src/agents/agents.py:91-140 | whatever the Mentor resolves to is a valid analysis |
| Agents.MentorDefaultWhenNoBraces | src/agents/agents.py:116-140 | when the free text cannot be parsed and has no `{` before a `}`, the Mentor uses its default at the current difficulty |
| Agents.MentorSalvagesSpan | src/agents/agents.py:116-127 | when the free text cannot be parsed but has a `{` before a `}`, the Mentor parses the greedy span instead, and a decode error there escapes |
| Agents.SplitMentorInverse | src/agents/agents.py:143-158 | the analysis, the calibration and the thinking together are exactly the schema value: splitting loses and adds nothing |
| Agents.AnalyzeAndCalibrate | src/agents/agents.py:58-158 | the Mentor's messages and, on success, the schema split into analysis, calibration and thinking, within the schema's bounds |

## Left out

- Language model calls, `json.loads`, the prompt builders and `clean_surrogate_characters` are not part of this model. The model calls are scripted per attempt. `json.loads` and the prompt texts are parameters. Dafny strings hold no surrogates, so surrogate cleaning is the identity here.
- Json.Get: the parser parameter may return an object with a repeated key, which `json.loads` never does (it keeps the last value). On such an object `Get` reads the first entry. `Json.DistinctKeys` is not required of the parameter, so the agents' results are proved for a wider set of parsers that includes the real one.
- `async`/`await`, `asyncio.sleep` between attempts, logging, console printing and input, the session logger and its file writes: timing and I/O. Console answers and clock readings are parameters.
- The graph runtime is not modelled. That covers LangGraph's compilation and `app.invoke` (main.py:33-37), and in particular its step limit (`recursion_limit`) when no config is passed. `Graph.RunInterview` follows the edge semantics of `build_interview_graph` alone. Its bound of at most 9 passes, that is 3 × passes + 2 node steps, is a property of the edges and the finish check. Whether the runtime lets a run with that many steps reach the Manager, or raises a recursion error first, is outside the model.
- The model takes every write a node or the finish check makes to the record as kept for the later nodes. This covers `is_finished` and `stop_reason`, which `check_finish_node` writes although the graph uses it as a routing function (graph.py:240-247), and `step_counter`, which graph.py:44 and :138 write although src/graph/state.py does not declare it. Whether the graph runtime keeps such writes is outside the model.
- The graph calls the agents' coroutines without awaiting them. The model treats each call as returning its result.
- An exception raised by an agent ends the run in the program. The graph model takes each agent's result as a successful value; the agents model the error paths. The Mentor's analysis and calibration are taken within the schema's bounds, which `Agents.AnalyzeAndCalibrate` proves of every Mentor success; this is what keeps the difficulty in 1..5.
- `_get_user_info` and `_get_user_context` only format text. Their results are parameters.
- `conversation_history` is part of the state but no node writes it. It stays empty.
- VibeMaster is declared but no node calls it. It is modelled on its own.
- `QuestionResult.confidence` is the float `score / 100.0` in the program. The model keeps the integer score. JSON numbers other than integers are not modelled.
- Pydantic is modelled in strict mode. Lax coercions, such as a numeric string accepted as an integer, are not modelled.
- `str.lower` is modelled on the Basic Latin and basic Cyrillic capitals only. Those are the letters of the stop words.
- `repr` of strings inside a flattened `thinking` does not escape characters.
- Graph.InterviewState: the turns are held as `TurnRecord` values. The two in-place edits of the last `Turn` (its answer and its notes) replace that record, so aliasing of `Turn` objects is not modelled. `Structs.Turn.AddThought` models `add_thought` on an object.
- Graph.InterviewState.Pass: states the pending answer, the hallucinations, the counters, the route and the invariant, not the whole new state. Each node method it calls states its own new state.
- Salvage.StripOpenFences: proved only for text without an opening fence and for a fenced reply, not for every input.
- The record's `final_feedback` holds the feedback value rather than `asdict(feedback)`.
- `GreetingResponse` and `FeedbackFromInterviewer` in schemas.py are not used by the agents and are not modelled. `InterviewerGreetingSchema` and `UserIntentSchema` are imported by the agents but not declared in schemas.py. They are declared from the fields the program reads and writes.
