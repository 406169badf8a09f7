/**
 How far an agent can be over-committed when no two statements overlap: no query skips a locked
 row, and no two jobs are created at the same time. Then the pending jobs that the controllers
 hold are the oldest ones, the same for all of them, and capacity - 1 + 50 is a bound for any
 number of controllers.
 */
module ProtocolOrdered {
  import opened Sets
  import opened Runs
  import opened JobTypes
  import opened Jobs
  import opened Selector
  import opened Protocol
  import opened ProtocolInvariant
  import opened ProtocolDrain
  import opened ProtocolCapacity

  predicate NoSkips(steps: seq<Step>) {
    forall i | 0 <= i < |steps| && steps[i].Act? && steps[i].action.ReadPending? :: steps[i].action.skipped == {}
  }

  predicate DistinctTimes(jobs: JobTable) {
    forall a, b | a in jobs && b in jobs && jobs[a].createdAt == jobs[b].createdAt :: a == b
  }

  // The controller's batch was read without a skip.
  predicate Unskipped(pc: Controller) {
    pc.Fetched? || pc.Working? ==> pc.skipped == {}
  }

  predicate AllUnskipped(s: State) {
    forall c | 0 <= c < |s.controllers| :: Unskipped(s.controllers[c])
  }

  // The pending jobs that a controller holds for the agent.
  function Claimable(jobs: JobTable, pc: Controller, a: AgentId): set<JobId> {
    if pc.Working? && pc.agents != [] && Choose(pc.agents).id == a then PendingJobs(jobs) * BatchIds(pc.batch) else {}
  }

  function AllClaimable(jobs: JobTable, pcs: seq<Controller>, a: AgentId): set<JobId> {
    if pcs == [] then {} else AllClaimable(jobs, pcs[..|pcs| - 1], a) + Claimable(jobs, pcs[|pcs| - 1], a)
  }

  lemma {:induction false} ClaimableIn(jobs: JobTable, pcs: seq<Controller>, a: AgentId, id: JobId)
    ensures id in AllClaimable(jobs, pcs, a) <==> exists c :: 0 <= c < |pcs| && id in Claimable(jobs, pcs[c], a)
  {
    if pcs != [] {
      var n := |pcs| - 1;
      ClaimableIn(jobs, pcs[..n], a, id);
      if id in AllClaimable(jobs, pcs[..n], a) {
        var c :| 0 <= c < n && id in Claimable(jobs, pcs[..n][c], a);
        assert id in Claimable(jobs, pcs[c], a);
      }
      if c :| 0 <= c < n && id in Claimable(jobs, pcs[c], a) {
        assert id in Claimable(jobs, pcs[..n][c], a);
      }
    }
  }

  // Of two batches, one contains the pending jobs of the other.
  lemma Nested(s: State, x: seq<Job>, y: seq<Job>)
    requires BatchOk(s, x, {}) && BatchOk(s, y, {}) && DistinctTimes(s.jobs)
    ensures PendingJobs(s.jobs) * BatchIds(x) <= BatchIds(y) || PendingJobs(s.jobs) * BatchIds(y) <= BatchIds(x)
  {
    var pending := PendingJobs(s.jobs);
    if !(pending * BatchIds(x) <= BatchIds(y)) && !(pending * BatchIds(y) <= BatchIds(x)) {
      var i :| 0 <= i < |x| && x[i].id in pending && x[i].id !in BatchIds(y);
      var j :| 0 <= j < |y| && y[j].id in pending && y[j].id !in BatchIds(x);
      OutsideYounger(s, x, i, y[j].id);
      OutsideYounger(s, y, j, x[i].id);
    }
  }

  lemma OutsideYounger(s: State, batch: seq<Job>, i: nat, id: JobId)
    requires BatchOk(s, batch, {}) && i < |batch| && id in PendingJobs(s.jobs) && id !in BatchIds(batch)
    ensures batch[i].id in s.jobs && s.jobs[batch[i].id].createdAt <= s.jobs[id].createdAt
  {
    assert SameRow(s, batch[i]);
    assert Absent(batch, id);
  }

  // All that the controllers hold is in one batch.
  lemma {:induction false} OneBatch(k: Config, s: State, pcs: seq<Controller>, a: AgentId) returns (batch: seq<Job>)
    requires DistinctTimes(s.jobs) && forall c | 0 <= c < |pcs| :: CtrlOk(k, s, pcs[c]) && Unskipped(pcs[c])
    ensures BatchOk(s, batch, {}) && AllClaimable(s.jobs, pcs, a) <= BatchIds(batch)
  {
    batch := [];
    if pcs == [] {
      NoBatch(s);
    } else {
      var n := |pcs| - 1;
      batch := OneBatch(k, s, pcs[..n], a);
      if Claimable(s.jobs, pcs[n], a) != {} {
        assert CtrlOk(k, s, pcs[n]);
        Nested(s, batch, pcs[n].batch);
        ClaimablePending(s.jobs, pcs[..n], a);
        if PendingJobs(s.jobs) * BatchIds(batch) <= BatchIds(pcs[n].batch) {
          batch := pcs[n].batch;
        }
      }
    }
  }

  lemma NoBatch(s: State)
    ensures BatchOk(s, [], {})
  {
  }

  lemma {:induction false} ClaimablePending(jobs: JobTable, pcs: seq<Controller>, a: AgentId)
    ensures AllClaimable(jobs, pcs, a) <= PendingJobs(jobs)
  {
    if pcs != [] {
      ClaimablePending(jobs, pcs[..|pcs| - 1], a);
    }
  }

  lemma ClaimableBound(k: Config, s: State, a: AgentId)
    requires Inv(k, s) && AllUnskipped(s) && DistinctTimes(s.jobs)
    ensures |AllClaimable(s.jobs, s.controllers, a)| <= BATCH_LIMIT
  {
    var batch := OneBatch(k, s, s.controllers, a);
    DistinctIds(batch);
    SubsetSize(AllClaimable(s.jobs, s.controllers, a), BatchIds(batch));
  }

  // The invariant -------------------------------------------------------------------------------

  predicate OrderedOk(s: State, a: AgentId) {
    var held := AllClaimable(s.jobs, s.controllers, a);
    if a in s.agents
    then s.agents[a].capacity >= 1 && RunningJobs(s.jobs, a) + |held| <= s.agents[a].capacity - 1 + BATCH_LIMIT
    else RunningJobs(s.jobs, a) == 0 && held == {}
  }

  lemma PendingShrinks(s: State, t: State, id: JobId)
    requires Evolves(s, t) && id in s.jobs && id in PendingJobs(t.jobs)
    ensures id in PendingJobs(s.jobs)
  {
    assert RowEvolves(s, t, id);
  }

  // A controller that keeps its batch holds no more than before.
  lemma HoldsNoMore(k: Config, s: State, t: State, pc: Controller, pc': Controller, a: AgentId)
    requires CtrlOk(k, s, pc) && Evolves(s, t)
    requires pc'.Working? ==> pc.Working? && pc'.batch == pc.batch && pc'.agents == pc.agents
    ensures Claimable(t.jobs, pc', a) <= Claimable(s.jobs, pc, a)
  {
    forall id | id in Claimable(t.jobs, pc', a)
      ensures id in Claimable(s.jobs, pc, a)
    {
      var i :| 0 <= i < |pc.batch| && pc.batch[i].id == id;
      assert SameRow(s, pc.batch[i]);
      PendingShrinks(s, t, id);
    }
  }

  lemma {:induction false} AllHoldNoMore(k: Config, s: State, t: State, pcs: seq<Controller>, pcs': seq<Controller>,
                                         a: AgentId)
    requires |pcs'| == |pcs| && Evolves(s, t)
    requires forall c | 0 <= c < |pcs| ::
               && CtrlOk(k, s, pcs[c])
               && (pcs'[c].Working? ==>
                   pcs[c].Working? && pcs'[c].batch == pcs[c].batch && pcs'[c].agents == pcs[c].agents)
    ensures AllClaimable(t.jobs, pcs', a) <= AllClaimable(s.jobs, pcs, a)
  {
    if pcs != [] {
      var n := |pcs| - 1;
      AllHoldNoMore(k, s, t, pcs[..n], pcs'[..n], a);
      HoldsNoMore(k, s, t, pcs[n], pcs'[n], a);
    }
  }

  lemma BatchStays(k: Config, s: State, pc: Controller, act: Action)
    requires CanAct(k, s, pc, act) && !act.ReadAgents?
    ensures var pc' := NextPlace(s, pc, act);
            pc'.Working? ==> pc.Working? && pc'.batch == pc.batch && pc'.agents == pc.agents
  {
  }

  // A step that takes no snapshot leaves no more held than before.
  lemma HeldShrinks(k: Config, s: State, step: Step, a: AgentId)
    requires Inv(k, s) && Enabled(k, s, step) && !(step.Act? && step.action.ReadAgents?)
    ensures var t := Apply(k, s, step);
            AllClaimable(t.jobs, t.controllers, a) <= AllClaimable(s.jobs, s.controllers, a)
  {
    var t := Apply(k, s, step);
    StepKeeps(k, s, step);
    if step.Act? {
      EffectFrame(s, s.controllers[step.c], step.action);
      BatchStays(k, s, s.controllers[step.c], step.action);
    }
    AllHoldNoMore(k, s, t, s.controllers, t.controllers, a);
  }

  // The claims that put a job in flight for the agent.
  predicate Claims(s: State, step: Step, a: AgentId) {
    && step.Act? && step.c < |s.controllers|
    && (step.action.TryClaim? || (step.action.ClaimFails? && step.action.applied))
    && var pc := s.controllers[step.c];
       At(pc, Offer) && pc.agents != [] && Choose(pc.agents).id == a && Matches(s.jobs, Current(pc), Pending)
  }

  lemma ClaimMoves(k: Config, s: State, step: Step, a: AgentId)
    requires Inv(k, s) && Enabled(k, s, step) && Claims(s, step, a)
    ensures var t := Apply(k, s, step);
            && RunningJobs(t.jobs, a) <= RunningJobs(s.jobs, a) + 1
            && |AllClaimable(t.jobs, t.controllers, a)| < |AllClaimable(s.jobs, s.controllers, a)|
  {
    var t, pc := Apply(k, s, step), s.controllers[step.c];
    HeldShrinks(k, s, step, a);
    EffectFrame(s, pc, step.action);
    ClaimEffect(s, pc, t.jobs, a);
    ClaimableIn(s.jobs, s.controllers, a, Current(pc));
    ClaimablePending(t.jobs, t.controllers, a);
    SubsetSize(AllClaimable(t.jobs, t.controllers, a), AllClaimable(s.jobs, s.controllers, a) - {Current(pc)});
  }

  lemma ClaimEffect(s: State, pc: Controller, after: JobTable, a: AgentId)
    requires TablesOk(s) && At(pc, Offer) && pc.agents != [] && Choose(pc.agents).id == a
    requires Matches(s.jobs, Current(pc), Pending) && after == TakeClaim(s, Current(pc), a).jobs
    ensures RunningJobs(after, a) <= RunningJobs(s.jobs, a) + 1
    ensures Current(pc) in Claimable(s.jobs, pc, a) && Current(pc) !in PendingJobs(after)
  {
    assert JobOk(s, Current(pc));
    ClaimInFlight(s, Current(pc), a, a);
  }

  // Any other step puts none in flight.
  lemma EffectInFlight(k: Config, s: State, pc: Controller, act: Action, a: AgentId)
    requires TablesOk(s) && CtrlOk(k, s, pc) && CanAct(k, s, pc, act)
    requires act.TryClaim? || (act.ClaimFails? && act.applied) ==>
               Choose(pc.agents).id != a || !Matches(s.jobs, Current(pc), Pending)
    ensures RunningJobs(Effect(s, pc, act).jobs, a) <= RunningJobs(s.jobs, a)
  {
    match act
    case TryClaim => NoClaim(s, Current(pc), Choose(pc.agents).id, a);
    case ClaimFails(applied) => NoClaim(s, Current(pc), Choose(pc.agents).id, a);
    case Revert(_, _) =>
      assert JobOk(s, Current(pc));
      FailInFlight(s, Current(pc), Dispatched, AGENT_ERROR, a);
    case FailPending(_, _) =>
      assert JobOk(s, Current(pc));
      FailInFlight(s, Current(pc), Pending, DISPATCH_ERROR, a);
    case FailStuck(_, _) =>
      assert JobOk(s, pc.stuck[pc.done]);
      FailInFlight(s, pc.stuck[pc.done], pc.status, StuckReason(pc.status), a);
    case _ =>
  }

  lemma NoClaim(s: State, job: JobId, agent: AgentId, a: AgentId)
    requires TablesOk(s)
    ensures agent != a || !Matches(s.jobs, job, Pending) ==>
        RunningJobs(TakeClaim(s, job, agent).jobs, a) <= RunningJobs(s.jobs, a)
  {
    assert JobOk(s, job);
    ClaimInFlight(s, job, agent, a);
  }

  lemma WrittenInFlight(s: State, req: Request, a: AgentId)
    requires TablesOk(s) && ReqOk(s, req)
    ensures RunningJobs(Written(s, req).jobs, a) <= RunningJobs(s.jobs, a)
  {
    assert JobOk(s, req.job);
    NoMoreInFlight(s.jobs, Written(s, req).jobs, a);
  }

  lemma NoneInFlight(k: Config, s: State, step: Step, a: AgentId)
    requires Inv(k, s) && Enabled(k, s, step) && !Claims(s, step, a)
    ensures RunningJobs(Apply(k, s, step).jobs, a) <= RunningJobs(s.jobs, a)
  {
    match step
    case Act(c, act) =>
      assert CtrlOk(k, s, s.controllers[c]);
      EffectInFlight(k, s, s.controllers[c], act, a);
    case Finish(r) => WrittenInFlight(s, s.requests[r], a);
    case Create(job) => NoMoreInFlight(s.jobs, Apply(k, s, step).jobs, a);
    case _ =>
  }

  lemma AgentsStay(k: Config, s: State, step: Step, a: AgentId)
    requires Enabled(k, s, step)
    ensures var t := Apply(k, s, step);
            && (a in s.agents ==> a in t.agents && t.agents[a].capacity == s.agents[a].capacity)
            && (a !in s.agents && a in t.agents ==> t.agents[a].capacity >= 1)
  {
    if step.Act? {
      EffectFrame(s, s.controllers[step.c], step.action);
    }
  }

  lemma SnapshotOrdered(k: Config, s: State, c: nat, list: seq<Agent>, a: AgentId)
    requires Inv(k, s) && Enabled(k, s, Act(c, ReadAgents(list))) && OrderedOk(s, a)
    requires AllUnskipped(s) && DistinctTimes(s.jobs)
    ensures OrderedOk(Apply(k, s, Act(c, ReadAgents(list))), a)
  {
    var t := Apply(k, s, Act(c, ReadAgents(list)));
    StepKeeps(k, s, Act(c, ReadAgents(list)));
    if list != [] && Choose(list).id == a {
      assert IsAvailable(s.jobs, s.agents, list[BestIndex(list)].id, k.heartbeatTTL, s.clock);
      ClaimableBound(k, t, a);
    } else {
      SameHeld(s.jobs, s.controllers, c, t.controllers[c], a);
    }
  }

  lemma {:induction false} SameHeld(jobs: JobTable, pcs: seq<Controller>, c: nat, pc: Controller, a: AgentId)
    requires c < |pcs| && Claimable(jobs, pcs[c], a) == Claimable(jobs, pc, a) == {}
    ensures AllClaimable(jobs, pcs[c := pc], a) == AllClaimable(jobs, pcs, a)
  {
    var n := |pcs| - 1;
    if c == n {
      assert pcs[c := pc][..n] == pcs[..n];
    } else {
      assert pcs[c := pc][..n] == pcs[..n][c := pc];
      SameHeld(jobs, pcs[..n], c, pc, a);
    }
  }

  lemma StepOrdered(k: Config, s: State, step: Step, a: AgentId)
    requires Inv(k, s) && Enabled(k, s, step) && OrderedOk(s, a) && AllUnskipped(s) && DistinctTimes(s.jobs)
    ensures OrderedOk(Apply(k, s, step), a)
  {
    if step.Act? && step.action.ReadAgents? {
      SnapshotOrdered(k, s, step.c, step.action.list, a);
    } else {
      var t := Apply(k, s, step);
      AgentsStay(k, s, step, a);
      HeldShrinks(k, s, step, a);
      SubsetSize(AllClaimable(t.jobs, t.controllers, a), AllClaimable(s.jobs, s.controllers, a));
      if Claims(s, step, a) {
        ClaimMoves(k, s, step, a);
      } else {
        NoneInFlight(k, s, step, a);
      }
    }
  }

  lemma UnskippedStep(k: Config, s: State, step: Step)
    requires Enabled(k, s, step) && AllUnskipped(s) && NoSkips([step])
    ensures AllUnskipped(Apply(k, s, step))
  {
    assert step.Act? && step.action.ReadPending? ==> [step][0].action.skipped == {};
    if step.Act? {
      EffectFrame(s, s.controllers[step.c], step.action);
      UnskippedPlace(k, s, s.controllers[step.c], step.action);
    }
  }

  lemma UnskippedPlace(k: Config, s: State, pc: Controller, a: Action)
    requires CanAct(k, s, pc, a) && Unskipped(pc) && (a.ReadPending? ==> a.skipped == {})
    ensures Unskipped(NextPlace(s, pc, a))
  {
  }

  // Rows stay, with their creation times.
  lemma DistinctBefore(s: State, t: State)
    requires Evolves(s, t) && DistinctTimes(t.jobs)
    ensures DistinctTimes(s.jobs)
  {
    forall a, b | a in s.jobs && b in s.jobs && s.jobs[a].createdAt == s.jobs[b].createdAt
      ensures a == b
    {
      assert RowEvolves(s, t, a) && RowEvolves(s, t, b);
    }
  }

  lemma {:induction false} NoneHeld(jobs: JobTable, pcs: seq<Controller>, a: AgentId)
    requires forall c | 0 <= c < |pcs| :: pcs[c].Idle?
    ensures AllClaimable(jobs, pcs, a) == {}
  {
    if pcs != [] {
      NoneHeld(jobs, pcs[..|pcs| - 1], a);
    }
  }

  lemma {:induction false} OrderedKept(k: Config, s: State, steps: seq<Step>, t: State, a: AgentId)
    requires Init(s) && Leads(Next(k), s, steps, t) && NoSkips(steps) && DistinctTimes(t.jobs)
    ensures OrderedOk(t, a) && AllUnskipped(t) && Inv(k, t)
    decreases |steps|
  {
    InitOk(k, s);
    if steps == [] {
      NoneHeld(s.jobs, s.controllers, a);
      assert InFlightJobs(s.jobs, a) == {};
    } else {
      var front, u, step := LastStep(k, s, steps, t);
      StepKeeps(k, u, step);
      DistinctBefore(u, t);
      assert NoSkips(front) && NoSkips([step]);
      OrderedKept(k, s, front, u, a);
      UnskippedStep(k, u, step);
      StepOrdered(k, u, step, a);
    }
  }

  // If no query ever skips a row and no two jobs are created at the same time, an agent of
  // capacity K has at most K - 1 + 50 jobs in flight, however many controllers there are.
  lemma OrderedBound(k: Config, s: State, steps: seq<Step>, t: State, a: AgentId)
    requires Init(s) && Leads(Next(k), s, steps, t) && a in t.agents
    requires NoSkips(steps) && DistinctTimes(t.jobs)
    ensures RunningJobs(t.jobs, a) <= t.agents[a].capacity - 1 + BATCH_LIMIT
  {
    OrderedKept(k, s, steps, t, a);
  }
}
