# Scripted interview service — Dafny model

This project models the core of a small interview service. A candidate goes through three
fixed rounds: screening, technical and scenario. In each round they answer a fixed list of
questions. The answers of a round are assembled into a transcript. An external language-model
scorer grades the transcript, and the service thresholds the scorer's average into a pass/fail
flag. The three flags then combine into one final decision, with a fixed precedence.

The model covers:

- the in-memory session store and its four state-changing endpoints (`initialize_interview`,
  `submit_answer`, `evaluate_round_endpoint`, `get_final_decision`), as the class
  `Server.InterviewService` over a `map<string, Session>`;
- the read-only `get_questions` endpoint, as a function;
- the transcript rules, as a step function and a replay of the answer list (module `Transcript`);
- the local post-processing of a scorer reply (`evaluate_round`, module `Agent`);
- the decision precedence (module `Decision`);
- the question catalog and thresholds (modules `Prompts`, `Rubrics`);
- Python's `str(int)` used in the `Q{n}`/`A{n}` labels (module `Decimal`).

The class invariant `Valid()` says two things about every session in the store:

- each round's transcript equals the replay of that round's answer list;
- each stored result is tagged with its round, and its `passed` flag equals "average ≥ threshold".

Every endpoint method preserves this invariant.

Inputs the model cannot compute become parameters:

- the session id that `uuid.uuid4()` draws is passed in, with the precondition that it is not
  yet in the store;
- the scorer's reply, already parsed from JSON, is passed to `EvaluateRoundEndpoint` as an `OracleReply`:
  not JSON, JSON but not an object, or an object with optional `scores`, `average`, `pass`,
  `summary` keys.

Error replies are `Reply.Error(message)`, carrying the service's exact messages. An exception
that escapes an endpoint is `Reply.Raised(exception)`.

Negative question indices are modelled as Python evaluates them:

- an index in `-n .. -1` (with `n` the number of questions) wraps around to the end of the list,
  and is written with labels such as `Q0:`;
- an index below `-n` raises `IndexError` after the answer has already been appended to the
  answer list.

So "the transcript is non-empty" means "some submitted index could be looked up in the question
list", negative ones included.

In particular, an answer with index 1 alone already makes the transcript non-empty, with no
header; `Transcript.ReplayNonEmpty` states the exact condition.

## Model

| member | source | states |
|---|---|---|
| `Rounds.Parse` | server.py:99-100 | exactly the three round names are recognised; a recognised name is the name of the round returned |
| `Rounds.ParseName` | server.py:75-79 | the three round names are distinct and each parses back to its round |
| `Prompts.Questions` | prompts.py:3-30 | the catalog has 7 screening, 7 technical and 6 scenario questions |
| `Rubrics.Threshold` | rubrics.py:23-27 | screening passes at exactly 2.5, technical and scenario at exactly 3.0 |
| `Rubrics.ThresholdOf` | server.py:158-162 | the threshold lookup by name succeeds exactly for the three round names, so the "Invalid round for evaluation" refusal is unreachable |
| `Decimal.NatToStringValue` | server.py:130-131 | a label number is rendered as a non-empty digit string that denotes the number, with no leading zero (0 is rendered as exactly `0`) |
| `Decimal.IntToString` | server.py:130-131 | a label number is rendered with a leading minus sign exactly when it is negative, followed by digits only; `Decimal.IntToStringRoundTrip` and `Decimal.IntToStringInjective` specify it fully |
| `Decimal.IntToStringRoundTrip` | server.py:130-131 | reading a rendered label number back gives the number, negative ones included |
| `Decimal.IntToStringInjective` | server.py:130-131 | different question indices get different labels |
| `Transcript.At` | server.py:130 | `questions[i]` for an index Python accepts is the question at position `i` modulo the list length, so a negative index counts from the end |
| `Transcript.Step` | server.py:121-132 | a non-zero index never removes text, and changes the transcript exactly when it can be looked up in the question list; index 0 leaves a transcript that starts with the header; `Transcript.StepCases` gives the full case table |
| `Transcript.StepCases` | server.py:121-132 | the transcript step case by case: index 0 resets to the header and appends the first pair, an index inside the list (negative ones counted from the end) appends its pair, any other index leaves the text unchanged |
| `Transcript.QABlockInjective` | server.py:130-131 | different question indices give different question/answer pairs, because the `Q` label up to the first colon reads back as the index plus one |
| `Transcript.ReplaySnoc` | server.py:121-132 | the transcript after one more answer is one transcript step applied to the previous transcript |
| `Transcript.ReplayFromAppend` | server.py:121-132 | replaying two batches of answers in turn is replaying their concatenation |
| `Transcript.ResetDiscardsEarlier` | server.py:121-125 | after an index-0 answer the transcript depends only on the answers from that one on; earlier text is erased |
| `Transcript.ResetForgetsPrefix` | server.py:121-125 | two answer histories that agree from an index-0 answer on have the same transcript |
| `Transcript.ReplayNonEmpty` | server.py:121-132 | the transcript is non-empty iff some submitted index could be looked up in the question list (an index-1 answer alone suffices) |
| `Transcript.InOrderTranscript` | server.py:121-132 | answering questions 0..k-1 in order gives the header followed by exactly those k pairs in ascending order |
| `Agent.EvaluateRound` | agent.py:40-43 | `passed` is average ≥ threshold and `round` is the round name; scores, average, pass and summary are kept unchanged; not-JSON, non-object and missing-average replies raise and give no result |
| `Agent.OraclePassIgnored` | agent.py:40-41 | the scorer's own `pass` field has no influence on `passed` |
| `Agent.PassedMonotone` | agent.py:41 | an average equal to the threshold passes, and raising the average never turns a pass into a fail |
| `Decision.Text` | server.py:197-204 | the decision text starts with ✅ exactly for "move to human panel" and with ❌ for each rejection; `Decision.TextInjective` adds that the four texts are distinct |
| `Decision.Decide` | server.py:197-204 | the candidate moves on exactly when all three pass flags are true, and is rejected for screening exactly when screening failed; `Decision.DecideIsFirstFailure` gives the full precedence |
| `Decision.FirstFailure` | server.py:197-204 | reference definition: the position of the first failed flag, with all flags before it passed |
| `Decision.DecideIsFirstFailure` | server.py:197-204 | the decision moves the candidate on when no round failed, else rejects at the first failed of screening, technical, scenario |
| `Decision.TextInjective` | server.py:197-204 | the four decision texts are pairwise distinct |
| `Server.Session.Put` | server.py:102-103 | writing one round's entries leaves the other rounds, the name and the decision unchanged |
| `Server.PassFlag` | server.py:193-195 | a round never evaluated counts as failed, and an evaluated round counts with its stored `passed` flag; `Server.DecisionFromAverages` uses it |
| `Server.ContextOf` | server.py:114-119 | every round's transcript is built against a non-empty question list |
| `Server.GetQuestions` | server.py:72-87 | the three round names give their catalog, with `total` equal to its length; any other name gives "Invalid round name" |
| `Server.DecisionFromAverages` | server.py:189-204 | in a consistent session the verdict depends only on the stored averages against the thresholds (a missing result counts as failed) and never on the scorer's `pass` |
| `Server.DecidedIdempotent` | server.py:206 | recording the decision a second time changes nothing and reports the same text |
| `Server.NewSessionConsistent` | server.py:56-68 | a new session satisfies the store invariant |
| `Server.SubmitKeepsConsistent` | server.py:102-132 | appending an answer and stepping the transcript keeps the session invariant |
| `Server.ResultKeepsConsistent` | server.py:171-172 | storing a round-tagged, thresholded result keeps the session invariant |
| `Server.DecisionKeepsConsistent` | server.py:206 | recording a decision keeps the session invariant |
| `Server.StoreKeepsConsistent` | server.py:34 | replacing one session by a consistent one keeps the whole store consistent |
| `Server.InterviewService.constructor` | server.py:34 | the store starts empty and satisfies its invariant |
| `Server.InterviewService.InitializeInterview` | server.py:52-69 | exactly one new session is added: the given name, empty answer lists and transcripts, no results, no decision; existing sessions unchanged |
| `Server.InterviewService.SubmitAnswer` | server.py:90-134 | unknown session or round name: the matching error and no change. Otherwise the round's answer list grows by exactly this answer, whatever the index; the transcript becomes one `Transcript.Step` of the old one; nothing else changes; an index below -count raises after the answer was appended |
| `Server.InterviewService.EvaluateRoundEndpoint` | server.py:137-179 | unknown session: error, no change. "No transcript for this round" exactly when the name is no round or its transcript is empty, equivalently when no indexable index was submitted. "Invalid round for evaluation" is never returned. A scorer failure raises and stores nothing. Otherwise only that round's result is overwritten, and round, passed, average and summary are echoed |
| `Server.InterviewService.GetFinalDecision` | server.py:182-213 | unknown session: error, no change. Otherwise only the final decision is written, and it is returned with the three stored results verbatim |

## Left out

- HTTP transport: the FastAPI app, the CORS middleware, pydantic request validation and routing
  (server.py:22-50). Each endpoint is a method returning `Reply`. The body of an uncaught
  exception (a server error response) is represented only by `Reply.Raised`.
- The language-model client and its call (agent.py:15-19, 33-38). It is a network call. The
  parsed reply is an input to `EvaluateRoundEndpoint`, so the model does not relate the reply to the
  transcript.
- Prompt templating (`EVALUATOR_PROMPT`, `json.dumps(rubric)`) and the rubric guideline texts
  (rubrics.py:4-20). They are text handed to the scorer only.
- JSON parsing of the reply (agent.py:40). Only its outcome is modelled: not JSON, not an
  object, or an object.
- Agent.EvaluateRound: the model types `average` as a number, so two cases are not modelled.
  A JSON boolean `average` compares as 1 or 0 at agent.py:41, so the round fails; the boolean
  is stored (server.py:172) and echoed as `average_score` (server.py:177). A string, null,
  list or object `average` raises `TypeError` at that comparison.
- Agent.EvaluateRound: the model keeps only the `scores`, `average`, `pass` and `summary` keys
  of the reply. The service also stores any other keys the scorer adds, and those are not
  modelled. A `passed` or `round` key sent by the scorer is overwritten in the service, so
  dropping it changes nothing.
- Floating point: `average` and the thresholds are exact reals. Rounding during float parsing
  is not modelled.
- `uuid.uuid4()` (server.py:55): it is random. The fresh id is a parameter with a "not yet in
  the store" precondition.
- Concurrency: the store has no locking, and racing requests on one session are not modelled.
  The model is sequential.
- Server.InterviewService.SubmitAnswer: the service writes the answer list and then the
  transcript in two steps. The model writes both in one update, which differs only in an
  intermediate state no sequential caller can observe.
- Server.InterviewService.EvaluateRoundEndpoint: the endpoint reads `session_id` and
  `round_name` from an untyped request body (server.py:140-141). The model takes both as
  strings. An absent or non-string round name is rendered into a key that holds no transcript
  (server.py:147-151), so it is refused like a string that names no round. An absent session id
  (`None`) behaves like an unknown one. A `session_id` that is a JSON list or object is not
  modelled: it is unhashable, so the membership test at server.py:143 raises `TypeError`.
- Agent.EvaluateRound: the reply's `scores` is typed `map<string, int>`, `pass` `bool` and
  `summary` `string`. JSON values of other types in those keys are not modelled. `average`
  cannot be `NaN` or `Infinity`, although Python's `json.loads` accepts both and `NaN >= t` is
  `False`. A JSON `null` summary and a missing one both become `None` in the model. The service
  returns the stored dictionary verbatim from `get_final_decision`, where the two differ.
