/** The local post-processing of a round evaluation: the scorer's reply is parsed elsewhere,
    this module thresholds its average and tags it with the round. */
module Agent {
  import opened Outcomes

  /** What parsing the scorer's text produced. Only the keys the service reads are kept;
      `None` marks a key the object does not have. */
  datatype OracleReply =
    | NotJson      // the text is not JSON
    | NotObject    // JSON, but not an object (a list, a string, a number, ...)
    | JsonObject(scores: Option<map<string, int>>, average: Option<real>,
                 pass: Option<bool>, summary: Option<string>)

  /** The stored result of a round: the scorer's object plus `passed` and `round`. */
  datatype RoundResult = RoundResult(scores: Option<map<string, int>>, average: real,
                                     pass: Option<bool>, summary: Option<string>,
                                     passed: bool, round: string)

  /** The scorer's object a result was built from (what remains once `passed` and `round` are dropped). */
  function ParsedReply(res: RoundResult): OracleReply
  {
    JsonObject(res.scores, Some(res.average), res.pass, res.summary)
  }

  /** `evaluate_round` once the scorer has answered: `passed` is computed locally from the
      average and the threshold, `round` is the round's name, everything else is kept. */
  function EvaluateRound(reply: OracleReply, threshold: real, roundName: string): (r: Result<RoundResult>)
    ensures r.Success? <==> reply.JsonObject? && reply.average.Some?
    ensures reply.NotJson? ==> r == Failure(JsonDecodeError)
    ensures reply.NotObject? ==> r == Failure(TypeError)
    ensures reply.JsonObject? && reply.average.None? ==> r == Failure(KeyError)
    ensures r.Success? ==> ParsedReply(r.value) == reply
    ensures r.Success? ==> r.value.passed == (reply.average.value >= threshold)
    ensures r.Success? ==> r.value.round == roundName
  {
    match reply
    case NotJson => Failure(JsonDecodeError)
    case NotObject => Failure(TypeError)
    case JsonObject(scores, average, pass, summary) =>
      match average
      case None => Failure(KeyError)
      case Some(avg) => Success(RoundResult(scores, avg, pass, summary, avg >= threshold, roundName))
  }

  /** The scorer's own `pass` opinion never changes the local verdict. */
  lemma OraclePassIgnored(reply: OracleReply, p: Option<bool>, threshold: real, roundName: string)
    requires reply.JsonObject?
    ensures var r1 := EvaluateRound(reply, threshold, roundName);
            var r2 := EvaluateRound(reply.(pass := p), threshold, roundName);
            r1.Success? == r2.Success? && (r1.Success? ==> r1.value.passed == r2.value.passed)
  {
  }

  /** A higher average never turns a pass into a fail; the threshold itself passes. */
  lemma PassedMonotone(reply: OracleReply, better: real, threshold: real, roundName: string)
    requires reply.JsonObject? && reply.average.Some? && reply.average.value <= better
    ensures reply.average.value == threshold ==> EvaluateRound(reply, threshold, roundName).value.passed
    ensures EvaluateRound(reply, threshold, roundName).value.passed ==>
            EvaluateRound(reply.(average := Some(better)), threshold, roundName).value.passed
  {
  }
}
