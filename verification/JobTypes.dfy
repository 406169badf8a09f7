/** pkg/types/job.go: the status type and the documented transition table. */
module JobTypes {

  datatype JobStatus = Pending | Dispatched | Running | Success | Failed | Cancelled

  predicate IsTerminal(s: JobStatus) {
    s.Success? || s.Failed? || s.Cancelled?
  }

  const VALID_TRANSITIONS: map<JobStatus, seq<JobStatus>> := map[
    Pending := [Dispatched, Failed],
    Dispatched := [Running, Failed, Cancelled],
    Running := [Success, Failed, Cancelled],
    Success := [],
    Failed := [],
    Cancelled := []
  ]

  predicate CanTransitionTo(s: JobStatus, next: JobStatus) {
    s in VALID_TRANSITIONS && next in VALID_TRANSITIONS[s]
  }

  // Position in the lifecycle: pending < dispatched < running < terminal.
  function Rank(s: JobStatus): nat {
    match s
    case Pending => 0
    case Dispatched => 1
    case Running => 2
    case _ => 3
  }

  // A status history that follows the documented table.
  predicate ValidPath(path: seq<JobStatus>) {
    forall i | 0 < i < |path| :: CanTransitionTo(path[i - 1], path[i])
  }

  lemma TableRows(s: JobStatus, next: JobStatus)
    ensures CanTransitionTo(s, next) <==>
              match s
              case Pending => next.Dispatched? || next.Failed?
              case Dispatched => next.Running? || next.Failed? || next.Cancelled?
              case Running => IsTerminal(next)
              case _ => false
  {
  }

  // The table moves strictly upwards and ends at the terminal statuses.
  lemma TableClimbs(s: JobStatus, next: JobStatus)
    ensures CanTransitionTo(s, next) ==> Rank(s) < Rank(next)
    ensures IsTerminal(s) <==> forall n :: !CanTransitionTo(s, n)
  {
    if !IsTerminal(s) {
      assert CanTransitionTo(s, Failed);
    }
  }

  // So a history that follows it has at most three transitions.
  lemma {:induction false} ValidPathShort(path: seq<JobStatus>)
    requires path != [] && ValidPath(path)
    ensures |path| - 1 <= Rank(path[|path| - 1]) - Rank(path[0])
    ensures |path| <= 4
  {
    if |path| > 1 {
      var n := |path| - 1;
      ValidPathShort(path[..n]);
      TableClimbs(path[n - 1], path[n]);
    }
  }
}
