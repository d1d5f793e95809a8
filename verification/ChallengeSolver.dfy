/** The chain of challenge solvers, tried in order until one succeeds. */
module ChallengeSolver {
  import opened Basics

  /** The credentials of a solved challenge that the client keeps using. */
  datatype Solution = Solution(ua: string)

  /** What one solver would say about the challenge at hand. */
  datatype Answer = Answer(supports: bool, solution: Option<Solution>, error: Option<string>)
  {
    predicate Wins() {
      supports && error == None && solution.Some?
    }
  }

  datatype Verdict =
    | Solved(solution: Solution)
    | AllFailed(error: string)
    | NoneRegistered

  /** The position of the first winner, or the number of answers. */
  function FirstWinner(answers: seq<Answer>): (k: nat)
    ensures k <= |answers|
    ensures k < |answers| ==> answers[k].Wins()
    ensures forall j :: 0 <= j < k ==> !answers[j].Wins()
  {
    if answers == [] || answers[0].Wins() then 0
    else
      var k := FirstWinner(answers[1..]);
      assert forall j :: 0 < j <= k ==> answers[j] == answers[1..][j - 1] || j == |answers|;
      1 + k
  }

  /** What the last solver that took part said went wrong. */
  function LastError(answers: seq<Answer>): Option<string> {
    if answers == [] then None
    else
      var last := answers[|answers| - 1];
      if last.supports then last.error else LastError(answers[..|answers| - 1])
  }

  function Outcome(answers: seq<Answer>): Verdict {
    var k := FirstWinner(answers);
    if k < |answers| then Solved(answers[k].solution.value)
    else
      match LastError(answers)
      case Some(e) => AllFailed(e)
      case None => NoneRegistered
  }

  method Supports(answers: seq<Answer>) returns (any: bool)
    ensures any <==> exists a :: a in answers && a.supports
  {
    for k := 0 to |answers|
      invariant forall j :: 0 <= j < k ==> !answers[j].supports
    {
      if answers[k].supports {
        return true;
      }
    }
    return false;
  }

  /** The solver loop: it skips the solvers that do not support the signal, returns the first
      success, and otherwise remembers only what the last one said. */
  method Solve(answers: seq<Answer>) returns (v: Verdict)
    ensures v == Outcome(answers)
    ensures v.Solved? <==> exists a :: a in answers && a.Wins()
  {
    var lastErr: Option<string> := None;
    assert answers[..|answers|] == answers;
    for k := 0 to |answers|
      invariant forall j :: 0 <= j < k ==> !answers[j].Wins()
      invariant lastErr == LastError(answers[..k])
    {
      assert answers[..k + 1][..k] == answers[..k];
      var a := answers[k];
      if a.supports {
        if a.error == None && a.solution.Some? {
          return Solved(a.solution.value);
        }
        lastErr := a.error;
      }
    }
    return match lastErr case Some(e) => AllFailed(e) case None => NoneRegistered;
  }

  /** The position of the last solver that took part, or -1. */
  function LastSupporting(answers: seq<Answer>): (k: int)
    ensures -1 <= k < |answers|
    ensures k >= 0 ==> answers[k].supports && LastError(answers) == answers[k].error
    ensures k < 0 ==> LastError(answers) == None
    ensures forall j :: k < j < |answers| ==> !answers[j].supports
  {
    if answers == [] then -1
    else if answers[|answers| - 1].supports then |answers| - 1
    else LastSupporting(answers[..|answers| - 1])
  }

  /** The chain says that no solver is registered for a signal, although one is, exactly when nobody
      wins and the last solver that took part returned neither a solution nor an error; it then
      drops the errors of the solvers before it. */
  lemma MissingSolverMisreported(answers: seq<Answer>)
    ensures Outcome(answers) == NoneRegistered && (exists a :: a in answers && a.supports)
            <==> (&& (forall a :: a in answers ==> !a.Wins())
                  && LastSupporting(answers) >= 0
                  && answers[LastSupporting(answers)].error == None)
  {
    var k := FirstWinner(answers);
    if k < |answers| {
      assert answers[k] in answers;
    }
    if a :| a in answers && a.supports && LastSupporting(answers) < 0 {
      assert false;
    }
  }
}
