/** The final verdict from the three round verdicts, with its fixed precedence. */
module Decision {
  import opened Outcomes

  datatype Verdict = MoveToHumanPanel | FailedScreening | FailedTechnical | FailedScenario

  /** The text stored as the session's final decision. */
  function Text(v: Verdict): (r: string)
    ensures |r| > 0 && (r[0] == '✅' <==> v == MoveToHumanPanel)
    ensures v != MoveToHumanPanel ==> r[0] == '❌'
  {
    match v
    case MoveToHumanPanel => "✅ MOVE TO HUMAN PANEL (Passed all rounds)"
    case FailedScreening => "❌ REJECTED – failed screening"
    case FailedTechnical => "❌ REJECTED – failed technical round"
    case FailedScenario => "❌ REJECTED – failed scenario round"
  }

  /** The decision from the pass flags of screening, technical and scenario (a round never
      evaluated comes in as `false`). */
  function Decide(screening: bool, technical: bool, scenario: bool): (v: Verdict)
    ensures v == MoveToHumanPanel <==> screening && technical && scenario
    ensures v == FailedScreening <==> !screening
  {
    if screening && technical && scenario then MoveToHumanPanel
    else if !screening then FailedScreening
    else if !technical then FailedTechnical
    else FailedScenario
  }

  /** Reference definition: the position of the first failed round in interview order. */
  function FirstFailure(flags: seq<bool>): (r: Option<nat>)
    ensures r.Some? ==> r.value < |flags| && !flags[r.value]
    ensures r.Some? ==> forall k :: 0 <= k < r.value ==> flags[k]
    ensures r.None? ==> forall k :: 0 <= k < |flags| ==> flags[k]
    decreases |flags|
  {
    if flags == [] then None
    else if !flags[0] then Some(0)
    else match FirstFailure(flags[1..])
      case None => None
      case Some(k) => Some(k + 1)
  }

  /** The verdict moves the candidate on when no round failed, and otherwise rejects at the
      first failed round of screening, technical, scenario. */
  lemma DecideIsFirstFailure(screening: bool, technical: bool, scenario: bool)
    ensures Decide(screening, technical, scenario)
         == match FirstFailure([screening, technical, scenario])
            case None => MoveToHumanPanel
            case Some(0) => FailedScreening
            case Some(1) => FailedTechnical
            case Some(_) => FailedScenario
  {
    var flags := [screening, technical, scenario];
    var f := FirstFailure(flags);
    assert flags[1..] == [technical, scenario] && flags[1..][1..] == [scenario];
    if !screening {
      assert f == Some(0);
    } else if !technical {
      assert FirstFailure(flags[1..]) == Some(0);
      assert f == Some(1);
    } else if !scenario {
      assert FirstFailure(flags[1..][1..]) == Some(0);
      assert FirstFailure(flags[1..]) == Some(1);
      assert f == Some(2);
    } else {
      assert f == None;
    }
  }

  /** The four decision texts are distinct, so the stored text identifies the verdict. */
  lemma TextInjective(v: Verdict, w: Verdict)
    ensures Text(v) == Text(w) <==> v == w
  {
  }
}
