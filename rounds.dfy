/** The three fixed interview rounds and their names on the wire. */
module Rounds {
  import opened Outcomes

  datatype Round = Screening | Technical | Scenario

  /** The name a client uses for a round in requests and session keys. */
  function Name(rd: Round): string
  {
    match rd
    case Screening => "screening"
    case Technical => "technical"
    case Scenario => "scenario"
  }

  /** Recognises a round name; anything else is not a round. */
  function Parse(s: string): (r: Option<Round>)
    ensures r.Some? ==> Name(r.value) == s
    ensures r.None? ==> forall rd :: Name(rd) != s
  {
    if s == "screening" then Some(Screening)
    else if s == "technical" then Some(Technical)
    else if s == "scenario" then Some(Scenario)
    else None
  }

  /** Naming a round and parsing the name back gives the round: the names are distinct. */
  lemma ParseName(rd: Round)
    ensures Parse(Name(rd)) == Some(rd)
  {
  }
}
