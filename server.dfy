/** The interview service: an in-memory store of sessions and the endpoints that read and
    update it. Session ids are chosen by the caller of `InitializeInterview`, which must
    pick one not yet in use (the service draws a random UUID). */
module Server {
  import opened Outcomes
  import opened Rounds
  import opened Prompts
  import opened Rubrics
  import opened Transcript
  import opened Agent
  import opened Decision

  const INVALID_SESSION := "Invalid session ID"
  const INVALID_ROUND := "Invalid round name"
  const NO_TRANSCRIPT := "No transcript for this round"
  const INVALID_ROUND_FOR_EVALUATION := "Invalid round for evaluation"
  const SESSION_INITIALIZED := "Interview session initialized"
  const ANSWER_SAVED := "answer_saved"

  /** An endpoint's outcome: a response body, an `{"error": message}` body, or an exception
      that escaped the endpoint. */
  datatype Reply<+T> = Ok(value: T) | Error(message: string) | Raised(exception: Exception)

  datatype Initialized = Initialized(sessionId: string, message: string)
  datatype QuestionList = QuestionList(round: string, questions: seq<string>, total: nat)
  datatype Saved = Saved(status: string, questionIndex: int)
  datatype Evaluation = Evaluation(round: string, passed: bool, averageScore: real, summary: Option<string>)
  datatype Report = Report(finalDecision: string, screening: Option<RoundResult>,
                           technical: Option<RoundResult>, scenario: Option<RoundResult>)

  /** The `{round}_answers`, `{round}_transcript` and `{round}_result` entries of a session. */
  datatype RoundRecord = RoundRecord(answers: seq<Answer>, transcript: string, result: Option<RoundResult>)

  datatype Session = Session(candidateName: string, screening: RoundRecord, technical: RoundRecord,
                             scenario: RoundRecord, finalDecision: Option<string>)
  {
    function Get(rd: Round): RoundRecord
    {
      match rd
      case Screening => screening
      case Technical => technical
      case Scenario => scenario
    }

    /** The session with the entries of one round replaced and nothing else changed. */
    function Put(rd: Round, rec: RoundRecord): (s: Session)
      ensures s.Get(rd) == rec
      ensures forall other :: other != rd ==> s.Get(other) == Get(other)
      ensures s.candidateName == candidateName && s.finalDecision == finalDecision
    {
      match rd
      case Screening => this.(screening := rec)
      case Technical => this.(technical := rec)
      case Scenario => this.(scenario := rec)
    }
  }

  /** `result and result.get("passed", False)`: a round never evaluated counts as failed. */
  function PassFlag(result: Option<RoundResult>): (r: bool)
    ensures result.None? ==> !r
    ensures result.Some? ==> r == result.value.passed
  {
    result.Some? && result.value.passed
  }

  /** The verdict `get_final_decision` reaches for a session. */
  function VerdictOf(s: Session): Verdict
  {
    Decide(PassFlag(s.screening.result), PassFlag(s.technical.result), PassFlag(s.scenario.result))
  }

  /** The decision text `get_final_decision` records for a session. */
  function DecisionOf(s: Session): string
  {
    Text(VerdictOf(s))
  }

  /** The session once its final decision has been recorded. */
  function Decided(s: Session): Session
  {
    s.(finalDecision := Some(DecisionOf(s)))
  }

  /** What the transcript of round `rd` of session `s` is built from. */
  function ContextOf(s: Session, rd: Round): (c: RoundContext)
    ensures |c.questions| > 0
  {
    RoundContext(s.candidateName, Name(rd), Questions(rd))
  }

  /** What every stored round satisfies: its transcript is the replay of its answers, and a
      stored result is tagged with the round and passed exactly when its average reaches the
      round's threshold. */
  ghost predicate RoundConsistent(s: Session, rd: Round)
  {
    var rec := s.Get(rd);
    && rec.transcript == Replay(ContextOf(s, rd), rec.answers)
    && (rec.result.Some? ==>
          rec.result.value.round == Name(rd) && rec.result.value.passed == (rec.result.value.average >= Threshold(rd)))
  }

  ghost predicate Consistent(s: Session)
  {
    RoundConsistent(s, Screening) && RoundConsistent(s, Technical) && RoundConsistent(s, Scenario)
  }

  /** `get_questions`: the catalog of a named round with its size; any other name is refused. */
  function GetQuestions(roundName: string): (r: Reply<QuestionList>)
    ensures r.Ok? <==> Parse(roundName).Some?
    ensures r.Ok? ==> r.value.round == roundName && r.value.questions == Questions(Parse(roundName).value)
    ensures r.Ok? ==> r.value.total == |r.value.questions| > 0
    ensures !r.Ok? ==> r == Error(INVALID_ROUND)
  {
    match Parse(roundName)
    case None => Error(INVALID_ROUND)
    case Some(rd) =>
      var questions := Questions(rd);
      Ok(QuestionList(roundName, questions, |questions|))
  }

  /** A round is cleared when it has a result whose average reaches the round's threshold. */
  predicate Cleared(s: Session, rd: Round)
  {
    s.Get(rd).result.Some? && s.Get(rd).result.value.average >= Threshold(rd)
  }

  /** For a consistent session the decision depends only on the stored averages, never on the
      scorer's own `pass` opinion: the candidate moves on exactly when all three rounds are
      cleared, and is otherwise rejected at the first round of screening, technical,
      scenario that is not cleared (a round never evaluated included). */
  lemma DecisionFromAverages(s: Session)
    requires Consistent(s)
    ensures VerdictOf(s) == MoveToHumanPanel <==> Cleared(s, Screening) && Cleared(s, Technical) && Cleared(s, Scenario)
    ensures VerdictOf(s) == FailedScreening <==> !Cleared(s, Screening)
    ensures VerdictOf(s) == FailedTechnical <==> Cleared(s, Screening) && !Cleared(s, Technical)
    ensures VerdictOf(s) == FailedScenario <==> Cleared(s, Screening) && Cleared(s, Technical) && !Cleared(s, Scenario)
  {
    assert PassFlag(s.Get(Screening).result) == Cleared(s, Screening);
    assert PassFlag(s.Get(Technical).result) == Cleared(s, Technical);
    assert PassFlag(s.Get(Scenario).result) == Cleared(s, Scenario);
  }

  /** Recording the decision again changes nothing, and the report is the same each time. */
  lemma DecidedIdempotent(s: Session)
    ensures Decided(Decided(s)) == Decided(s)
    ensures DecisionOf(Decided(s)) == DecisionOf(s)
  {
  }

  /** One more answer keeps a round consistent when the new transcript is the step from the old one. */
  lemma SubmitKeepsConsistent(s: Session, rd: Round, a: Answer, transcript: string)
    requires Consistent(s)
    requires transcript == Step(ContextOf(s, rd), s.Get(rd).transcript, a)
    ensures Consistent(s.Put(rd, RoundRecord(s.Get(rd).answers + [a], transcript, s.Get(rd).result)))
  {
    var answers := s.Get(rd).answers + [a];
    ReplaySnoc(ContextOf(s, rd), s.Get(rd).answers, a);
    var s' := s.Put(rd, RoundRecord(answers, transcript, s.Get(rd).result));
    assert ContextOf(s', rd) == ContextOf(s, rd);
    assert RoundConsistent(s', rd);
  }

  /** A fresh session is consistent: no answers, no text, no results. */
  lemma NewSessionConsistent(name: string)
    ensures Consistent(Session(name, RoundRecord([], "", None), RoundRecord([], "", None), RoundRecord([], "", None), None))
  {
  }

  /** Storing a result tagged with its round and thresholded for it keeps the session consistent. */
  lemma ResultKeepsConsistent(s: Session, rd: Round, res: RoundResult)
    requires Consistent(s)
    requires res.round == Name(rd) && res.passed == (res.average >= Threshold(rd))
    ensures Consistent(s.Put(rd, s.Get(rd).(result := Some(res))))
  {
    var s' := s.Put(rd, s.Get(rd).(result := Some(res)));
    assert ContextOf(s', rd) == ContextOf(s, rd);
    assert RoundConsistent(s', rd);
  }

  /** Recording a decision touches no round, so it keeps the session consistent. */
  lemma DecisionKeepsConsistent(s: Session, d: Option<string>)
    requires Consistent(s)
    ensures Consistent(s.(finalDecision := d))
  {
    var s' := s.(finalDecision := d);
    assert s'.Get(Screening) == s.Get(Screening) && s'.Get(Technical) == s.Get(Technical) && s'.Get(Scenario) == s.Get(Scenario);
  }

  ghost predicate StoreConsistent(m: map<string, Session>)
  {
    forall id :: id in m ==> Consistent(m[id])
  }

  /** Replacing one session by a consistent one keeps the whole store consistent. */
  lemma StoreKeepsConsistent(m: map<string, Session>, id: string, s: Session)
    requires StoreConsistent(m)
    requires Consistent(s)
    ensures StoreConsistent(m[id := s])
  {
  }

  /** The session store (`interview_sessions`) with one method per endpoint that changes it. */
  class InterviewService {
    var sessions: map<string, Session>

    ghost predicate Valid()
      reads this
    {
      StoreConsistent(sessions)
    }

    constructor ()
      ensures Valid() && sessions == map[]
    {
      sessions := map[];
    }

    /** `initialize_interview`: one new session with the candidate's name and everything else
        empty; the existing sessions are untouched. */
    method InitializeInterview(sessionId: string, candidateName: string) returns (r: Initialized)
      requires Valid()
      requires sessionId !in sessions
      modifies this
      ensures Valid()
      ensures sessions.Keys == old(sessions).Keys + {sessionId}
      ensures forall id :: id in old(sessions) ==> sessions[id] == old(sessions)[id]
      ensures var s := sessions[sessionId];
              && s.candidateName == candidateName && s.finalDecision == None
              && forall rd :: s.Get(rd) == RoundRecord([], "", None)
      ensures r == Initialized(sessionId, SESSION_INITIALIZED)
    {
      var empty := RoundRecord([], "", None);
      NewSessionConsistent(candidateName);
      StoreKeepsConsistent(sessions, sessionId, Session(candidateName, empty, empty, empty, None));
      sessions := sessions[sessionId := Session(candidateName, empty, empty, empty, None)];
      r := Initialized(sessionId, SESSION_INITIALIZED);
    }

    /** `submit_answer`: the answer is always recorded; question 0 resets the transcript to the
        header first; an index the question list accepts appends its pair; an index past the
        end changes no text; an index below `-|questions|` raises after the answer was
        already recorded. */
    method SubmitAnswer(sessionId: string, roundName: string, questionIndex: int, answer: string)
      returns (r: Reply<Saved>)
      requires Valid()
      modifies this
      ensures Valid()
      ensures sessionId !in old(sessions) ==> r == Error(INVALID_SESSION) && sessions == old(sessions)
      ensures sessionId in old(sessions) && Parse(roundName).None? ==>
                r == Error(INVALID_ROUND) && sessions == old(sessions)
      ensures sessionId in old(sessions) && Parse(roundName).Some? ==>
                var rd := Parse(roundName).value;
                var s := old(sessions)[sessionId];
                var rec := s.Get(rd);
                var qs := Questions(rd);
                var transcript := Step(ContextOf(s, rd), rec.transcript, Answer(questionIndex, answer));
                && sessions == old(sessions)[sessionId := s.Put(rd, RoundRecord(rec.answers + [Answer(questionIndex, answer)], transcript, rec.result))]
                && r == if questionIndex < -|qs| then Raised(IndexError) else Ok(Saved(ANSWER_SAVED, questionIndex))
    {
      if sessionId !in sessions {
        return Error(INVALID_SESSION);
      }
      var session := sessions[sessionId];
      var parsed := Parse(roundName);
      if parsed.None? {
        return Error(INVALID_ROUND);
      }
      var rd := parsed.value;
      var rec := session.Get(rd);
      var a := Answer(questionIndex, answer);
      var answers := rec.answers + [a];
      var questions := Questions(rd);
      StepCases(ContextOf(session, rd), rec.transcript, questionIndex, answer);
      if questionIndex < -|questions| {
        // The answer is recorded before the question lookup raises.
        SubmitKeepsConsistent(session, rd, a, rec.transcript);
        StoreKeepsConsistent(sessions, sessionId, session.Put(rd, rec.(answers := answers)));
        sessions := sessions[sessionId := session.Put(rd, rec.(answers := answers))];
        return Raised(IndexError);
      }
      var transcript := rec.transcript;
      if questionIndex == 0 {
        transcript := Header(session.candidateName, roundName);
      }
      if questionIndex < |questions| {
        var q := if questionIndex < 0 then questions[questionIndex + |questions|] else questions[questionIndex];
        transcript := transcript + QABlock(questionIndex, q, answer);
      }
      SubmitKeepsConsistent(session, rd, a, transcript);
      StoreKeepsConsistent(sessions, sessionId, session.Put(rd, RoundRecord(answers, transcript, rec.result)));
      sessions := sessions[sessionId := session.Put(rd, RoundRecord(answers, transcript, rec.result))];
      r := Ok(Saved(ANSWER_SAVED, questionIndex));
    }

    /** `evaluate_round_endpoint` with the scorer's parsed reply as input: a round without
        transcript text (or a name that is no round) is refused; otherwise the reply is
        thresholded and stored as the round's result, replacing any earlier one. A reply that
        cannot be used raises before anything is stored. */
    method EvaluateRoundEndpoint(sessionId: string, roundName: string, oracle: OracleReply) returns (r: Reply<Evaluation>)
      requires Valid()
      modifies this
      ensures Valid()
      ensures r != Error(INVALID_ROUND_FOR_EVALUATION)
      ensures !r.Ok? ==> sessions == old(sessions)
      ensures sessionId !in old(sessions) ==> r == Error(INVALID_SESSION)
      ensures sessionId in old(sessions) ==>
                (r == Error(NO_TRANSCRIPT) <==>
                   Parse(roundName).None? || old(sessions)[sessionId].Get(Parse(roundName).value).transcript == "")
      ensures sessionId in old(sessions) ==>
                (r == Error(NO_TRANSCRIPT) <==>
                   Parse(roundName).None? || !SomeIndexable(ContextOf(old(sessions)[sessionId], Parse(roundName).value),
                                                    old(sessions)[sessionId].Get(Parse(roundName).value).answers))
      ensures sessionId in old(sessions) && Parse(roundName).Some? ==>
                var rd := Parse(roundName).value;
                var s := old(sessions)[sessionId];
                var rec := s.Get(rd);
                rec.transcript != "" ==>
                  match EvaluateRound(oracle, Threshold(rd), roundName)
                  case Failure(e) => r == Raised(e)
                  case Success(res) =>
                    && sessions == old(sessions)[sessionId := s.Put(rd, rec.(result := Some(res)))]
                    && r == Ok(Evaluation(roundName, res.passed, res.average, res.summary))
    {
      if sessionId !in sessions {
        return Error(INVALID_SESSION);
      }
      var session := sessions[sessionId];
      // Only the three round names have a `{round}_transcript` entry.
      var parsed := Parse(roundName);
      if parsed.None? {
        return Error(NO_TRANSCRIPT);
      }
      var rd := parsed.value;
      var rec := session.Get(rd);
      ReplayNonEmpty(ContextOf(session, rd), rec.answers);
      if rec.transcript == "" {
        return Error(NO_TRANSCRIPT);
      }
      // Every round name has a rubric and a threshold, so the service's
      // "Invalid round for evaluation" refusal is never reached.
      var threshold := ThresholdOf(roundName);
      var outcome := EvaluateRound(oracle, threshold.value, roundName);
      if outcome.Failure? {
        return Raised(outcome.exception);
      }
      var result := outcome.value;
      ResultKeepsConsistent(session, rd, result);
      StoreKeepsConsistent(sessions, sessionId, session.Put(rd, rec.(result := Some(result))));
      sessions := sessions[sessionId := session.Put(rd, rec.(result := Some(result)))];
      r := Ok(Evaluation(roundName, result.passed, result.average, result.summary));
    }

    /** `get_final_decision`: records the decision for the session's current results and
        reports it with the three results as stored. */
    method GetFinalDecision(sessionId: string) returns (r: Reply<Report>)
      requires Valid()
      modifies this
      ensures Valid()
      ensures sessionId !in old(sessions) ==> r == Error(INVALID_SESSION) && sessions == old(sessions)
      ensures sessionId in old(sessions) ==>
                var s := old(sessions)[sessionId];
                && sessions == old(sessions)[sessionId := Decided(s)]
                && r == Ok(Report(DecisionOf(s), s.screening.result, s.technical.result, s.scenario.result))
    {
      if sessionId !in sessions {
        return Error(INVALID_SESSION);
      }
      var session := sessions[sessionId];
      var screening := session.screening.result;
      var technical := session.technical.result;
      var scenario := session.scenario.result;
      var decision := Text(Decide(PassFlag(screening), PassFlag(technical), PassFlag(scenario)));
      DecisionKeepsConsistent(session, Some(decision));
      StoreKeepsConsistent(sessions, sessionId, session.(finalDecision := Some(decision)));
      sessions := sessions[sessionId := session.(finalDecision := Some(decision))];
      r := Ok(Report(decision, screening, technical, scenario));
    }
  }
}
