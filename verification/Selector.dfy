/** controller/selector/leastbusy.go: the fewest in-flight jobs, ties to the latest heartbeat. */
module Selector {
  import opened Wrappers
  import opened Jobs

  // a's heartbeat is strictly later than b's; an agent that never reported comes last.
  predicate Fresher(a: Option<Time>, b: Option<Time>) {
    a.Some? && (b.None? || a.value > b.value)
  }

  predicate Better(a: Agent, b: Agent) {
    a.runningJobs < b.runningJobs
    || (a.runningJobs == b.runningJobs && Fresher(a.lastHeartbeatAt, b.lastHeartbeatAt))
  }

  // No more jobs; with as many, no earlier heartbeat, which one that never reported has.
  predicate AtLeast(a: Agent, b: Agent) {
    || a.runningJobs < b.runningJobs
    || (a.runningJobs == b.runningJobs && b.lastHeartbeatAt.None?)
    || (a.runningJobs == b.runningJobs && a.lastHeartbeatAt.Some? && b.lastHeartbeatAt.Some?
        && a.lastHeartbeatAt.value >= b.lastHeartbeatAt.value)
  }

  // The first agent that no other is better than.
  predicate FirstBest(agents: seq<Agent>, i: int) {
    0 <= i < |agents|
    && (forall k | 0 <= k < |agents| :: !Better(agents[k], agents[i]))
    && (forall k | 0 <= k < i :: Better(agents[i], agents[k]))
  }

  // Select; None is the "no agents available" error.
  method Select(available: seq<Agent>) returns (r: Option<Agent>)
    ensures r.None? <==> available == []
    ensures r.Some? ==> exists i :: FirstBest(available, i) && r.value == available[i]
    ensures r.Some? ==>
              exists i ::
                && 0 <= i < |available| && r.value == available[i]
                && (forall k | 0 <= k < |available| :: AtLeast(available[i], available[k]))
                && (forall k | 0 <= k < i :: !AtLeast(available[k], available[i]))
    ensures r.Some? ==> r.value == Choose(available)
  {
    if |available| == 0 {
      return None;
    }
    var best := 0;
    for i := 1 to |available|
      invariant 0 <= best < i
      invariant FirstBest(available[..i], best)
    {
      var a, b := available[i], available[best];
      ghost var prior := best;
      if a.runningJobs < b.runningJobs {
        best := i;
        continue;
      }
      if a.runningJobs == b.runningJobs {
        if a.lastHeartbeatAt.Some? && (b.lastHeartbeatAt.None? || a.lastHeartbeatAt.value > b.lastHeartbeatAt.value) {
          best := i;
        }
      }
      assert available[..i + 1][prior] == b && available[..i + 1][i] == a;
    }
    assert available[..|available|] == available;
    FirstBestUnique(available, best, BestIndex(available));
    r := Some(available[best]);
  }

  lemma FirstBestUnique(agents: seq<Agent>, i: int, k: int)
    requires FirstBest(agents, i) && FirstBest(agents, k)
    ensures i == k
  {
    var a, b := agents[i], agents[k];
    assert !Better(a, b) && !Better(b, a);
  }

  // What Select computes, as a function of the list.
  function BestIndex(agents: seq<Agent>): (i: nat)
    requires agents != []
    ensures FirstBest(agents, i)
  {
    var n := |agents| - 1;
    if n == 0 then 0
    else
      var i := BestIndex(agents[..n]);
      assert forall k | 0 <= k < n :: agents[..n][k] == agents[k];
      if Better(agents[n], agents[i]) then n else i
  }

  function Choose(agents: seq<Agent>): Agent
    requires agents != []
  {
    agents[BestIndex(agents)]
  }

  // On a list in the order the store returns, the choice is the first element, so that every
  // job of one batch is offered to the same agent.
  lemma OrderedChoice(agents: seq<Agent>)
    requires agents != [] && forall i, k | 0 <= i < k < |agents| :: Precedes(agents[i], agents[k])
    ensures Choose(agents) == agents[0]
  {
    var i := BestIndex(agents);
    assert i > 0 ==> Precedes(agents[0], agents[i]);
  }
}
