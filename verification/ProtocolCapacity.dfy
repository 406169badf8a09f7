/**
 How far an agent can be over-committed. A controller offers a whole batch on one snapshot of the
 agents, so capacity is not a bound on the jobs in flight; capacity - 1 + 50 per controller is.
 */
module ProtocolCapacity {
  import opened Sets
  import opened JobTypes
  import opened Jobs
  import opened Selector
  import opened Protocol
  import opened ProtocolInvariant
  import opened ProtocolTheorems

  // The claims a controller may still make for the agent on the snapshot it holds.
  function Outstanding(pc: Controller, a: AgentId): nat {
    if pc.Working? && pc.agents != [] && Choose(pc.agents).id == a && pc.next < |pc.batch|
    then |pc.batch| - pc.next - if pc.at == Offer then 0 else 1
    else 0
  }

  function Committed(pcs: seq<Controller>, a: AgentId): nat {
    if pcs == [] then 0 else Committed(pcs[..|pcs| - 1], a) + Outstanding(pcs[|pcs| - 1], a)
  }

  lemma {:induction false} CommittedMove(pcs: seq<Controller>, c: nat, pc: Controller, a: AgentId)
    requires c < |pcs|
    ensures Committed(pcs[c := pc], a) + Outstanding(pcs[c], a) == Committed(pcs, a) + Outstanding(pc, a)
  {
    var n := |pcs| - 1;
    if c == n {
      assert pcs[c := pc][..n] == pcs[..n];
    } else {
      assert pcs[c := pc][..n] == pcs[..n][c := pc];
      CommittedMove(pcs[..n], c, pc, a);
    }
  }

  lemma {:induction false} CommittedBound(pcs: seq<Controller>, a: AgentId)
    requires forall c | 0 <= c < |pcs| :: Outstanding(pcs[c], a) <= BATCH_LIMIT
    ensures Committed(pcs, a) <= BATCH_LIMIT * |pcs|
  {
    if pcs != [] {
      CommittedBound(pcs[..|pcs| - 1], a);
    }
  }

  lemma OutstandingBound(k: Config, s: State, a: AgentId)
    requires Inv(k, s)
    ensures forall c | 0 <= c < |s.controllers| :: Outstanding(s.controllers[c], a) <= BATCH_LIMIT
  {
    forall c | 0 <= c < |s.controllers|
      ensures Outstanding(s.controllers[c], a) <= BATCH_LIMIT
    {
      assert CtrlOk(k, s, s.controllers[c]);
    }
  }

  // Jobs in flight together with claims still possible; an unregistered agent has neither.
  predicate CapacityOk(s: State, a: AgentId) {
    if a in s.agents
    then s.agents[a].capacity >= 1
         && RunningJobs(s.jobs, a) + Committed(s.controllers, a)
            <= s.agents[a].capacity - 1 + BATCH_LIMIT * |s.controllers|
    else RunningJobs(s.jobs, a) == 0 && Committed(s.controllers, a) == 0
  }

  // Jobs in flight -----------------------------------------------------------------------------

  lemma NoMoreInFlight(jobs: JobTable, jobs': JobTable, a: AgentId)
    requires forall id :: id in jobs' && InFlight(jobs'[id], a) ==> id in jobs && InFlight(jobs[id], a)
    ensures RunningJobs(jobs', a) <= RunningJobs(jobs, a)
  {
    SubsetSize(InFlightJobs(jobs', a), InFlightJobs(jobs, a));
  }

  lemma ClaimInFlight(s: State, job: JobId, agent: AgentId, a: AgentId)
    requires JobOk(s, job)
    ensures RunningJobs(TakeClaim(s, job, agent).jobs, a) <= RunningJobs(s.jobs, a) + if a == agent then 1 else 0
  {
    var t := TakeClaim(s, job, agent);
    if a == agent {
      SubsetSize(InFlightJobs(t.jobs, a), InFlightJobs(s.jobs, a) + {job});
    } else {
      NoMoreInFlight(s.jobs, t.jobs, a);
    }
  }

  lemma FailInFlight(s: State, job: JobId, from: JobStatus, reason: string, a: AgentId)
    requires JobOk(s, job)
    ensures RunningJobs(Fail(s, job, from, reason).jobs, a) <= RunningJobs(s.jobs, a)
  {
    NoMoreInFlight(s.jobs, Fail(s, job, from, reason).jobs, a);
  }

  // A controller's action never adds more to the jobs in flight than it takes from what the
  // controller had outstanding, except when a new snapshot is taken.
  lemma ActionBalance(k: Config, s: State, pc: Controller, act: Action, a: AgentId)
    requires TablesOk(s) && CtrlOk(k, s, pc) && CanAct(k, s, pc, act) && !act.ReadAgents?
    ensures RunningJobs(Effect(s, pc, act).jobs, a) + Outstanding(NextPlace(s, pc, act), a)
         <= RunningJobs(s.jobs, a) + Outstanding(pc, a)
  {
    match act
    case TryClaim =>
      assert JobOk(s, Current(pc));
      ClaimInFlight(s, Current(pc), Choose(pc.agents).id, a);
    case ClaimFails(_) =>
      assert JobOk(s, Current(pc));
      ClaimInFlight(s, Current(pc), Choose(pc.agents).id, a);
    case Revert(_, _) =>
      assert JobOk(s, Current(pc));
      FailInFlight(s, Current(pc), Dispatched, AGENT_ERROR, a);
    case FailPending(_, _) =>
      assert JobOk(s, Current(pc));
      FailInFlight(s, Current(pc), Pending, DISPATCH_ERROR, a);
    case FailStuck(_, _) =>
      assert JobOk(s, pc.stuck[pc.done]);
      FailInFlight(s, pc.stuck[pc.done], pc.status, StuckReason(pc.status), a);
    case _ =>
  }

  lemma ActCapacity(k: Config, s: State, c: nat, act: Action, a: AgentId)
    requires Inv(k, s) && Enabled(k, s, Act(c, act)) && CapacityOk(s, a)
    ensures CapacityOk(Apply(k, s, Act(c, act)), a)
  {
    var pc, t := s.controllers[c], Apply(k, s, Act(c, act));
    EffectFrame(s, pc, act);
    assert CtrlOk(k, s, pc);
    CommittedMove(s.controllers, c, NextPlace(s, pc, act), a);
    if !act.ReadAgents? {
      ActionBalance(k, s, pc, act, a);
    } else {
      SnapshotCapacity(k, s, c, act.list, a);
    }
  }

  // A snapshot shows the chosen agent below its capacity.
  lemma SnapshotCapacity(k: Config, s: State, c: nat, list: seq<Agent>, a: AgentId)
    requires Inv(k, s) && Enabled(k, s, Act(c, ReadAgents(list))) && CapacityOk(s, a)
    ensures CapacityOk(Apply(k, s, Act(c, ReadAgents(list))), a)
  {
    var pc, t := s.controllers[c], Apply(k, s, Act(c, ReadAgents(list)));
    assert t.jobs == s.jobs && t.agents == s.agents;
    assert CtrlOk(k, s, pc);
    CommittedMove(s.controllers, c, NextPlace(s, pc, ReadAgents(list)), a);
    if list != [] && Choose(list).id == a {
      assert IsAvailable(s.jobs, s.agents, list[BestIndex(list)].id, k.heartbeatTTL, s.clock);
      ActStep(k, s, c, ReadAgents(list));
      OutstandingBound(k, t, a);
      CommittedBound(t.controllers, a);
    }
  }

  lemma FinishCapacity(k: Config, s: State, r: nat, a: AgentId)
    requires Inv(k, s) && Enabled(k, s, Finish(r)) && CapacityOk(s, a)
    ensures CapacityOk(Apply(k, s, Finish(r)), a)
  {
    var req := s.requests[r];
    assert ReqOk(s, req) && JobOk(s, req.job);
    NoMoreInFlight(s.jobs, Written(s, req).jobs, a);
  }

  lemma StepCapacity(k: Config, s: State, step: Step, a: AgentId)
    requires Inv(k, s) && Enabled(k, s, step) && CapacityOk(s, a)
    ensures CapacityOk(Apply(k, s, step), a)
  {
    match step
    case Act(c, act) => ActCapacity(k, s, c, act, a);
    case Finish(r) => FinishCapacity(k, s, r, a);
    case Create(job) => NoMoreInFlight(s.jobs, Apply(k, s, step).jobs, a);
    case _ =>
  }

  lemma NothingCommitted(pcs: seq<Controller>, a: AgentId)
    requires forall c | 0 <= c < |pcs| :: pcs[c].Idle?
    ensures Committed(pcs, a) == 0
  {
  }

  lemma {:induction false} CapacityKept(k: Config, s: State, steps: seq<Step>, m: nat, a: AgentId)
    requires Init(s) && IsRun(k, s, steps) && m <= |steps|
    ensures CapacityOk(StateAt(k, s, steps, m), a)
    ensures |StateAt(k, s, steps, m).controllers| == |s.controllers|
  {
    if m == 0 {
      NothingCommitted(s.controllers, a);
      assert InFlightJobs(s.jobs, a) == {};
    } else {
      CapacityKept(k, s, steps, m - 1, a);
      StateAtOk(k, s, steps, m - 1);
      StateAtStep(k, s, steps, m - 1);
      StepCapacity(k, StateAt(k, s, steps, m - 1), steps[m - 1], a);
      ControllersFixed(k, StateAt(k, s, steps, m - 1), steps[m - 1]);
    }
  }

  lemma ControllersFixed(k: Config, s: State, step: Step)
    requires Enabled(k, s, step)
    ensures |Apply(k, s, step).controllers| == |s.controllers|
  {
    if step.Act? {
      EffectFrame(s, s.controllers[step.c], step.action);
    }
  }

  // At every moment of every run of C controllers, an agent of capacity K has at most
  // K - 1 + 50 * C jobs dispatched or running.
  lemma OverCommitBound(k: Config, s: State, steps: seq<Step>, m: nat, a: AgentId)
    requires Init(s) && IsRun(k, s, steps) && m <= |steps| && a in StateAt(k, s, steps, m).agents
    ensures var t := StateAt(k, s, steps, m);
            RunningJobs(t.jobs, a) <= t.agents[a].capacity - 1 + BATCH_LIMIT * |s.controllers|
  {
    CapacityKept(k, s, steps, m, a);
  }
}
