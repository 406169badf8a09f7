/**
 Every job ends. Once no more jobs are created, a controller that keeps ticking drains the pending
 ones, and its first tick after the dispatch timeout of the last of them has passed leaves every
 job terminal, whatever the agents, the other controllers and the requests do.
 */
module ProtocolEnds {
  import opened Runs
  import opened JobTypes
  import opened Jobs
  import opened Protocol
  import opened ProtocolInvariant
  import opened ProtocolTheorems
  import opened ProtocolDrain

  // Nothing is pending, and whatever is dispatched has been so for longer than the timeout.
  predicate Overdue(k: Config, s: State) {
    forall id | id in s.jobs ::
      && s.jobs[id].status != Pending
      && (s.jobs[id].status == Dispatched ==> s.jobs[id].updatedAt < s.clock - k.dispatchTimeout)
  }

  predicate NoneDispatched(s: State) {
    forall id | id in s.jobs :: s.jobs[id].status != Dispatched
  }

  // The timeout query or a write of the timeout sweep reported an error, or the query skipped a
  // locked row.
  predicate SweepTroubled(step: Step, c: nat) {
    ActOf(step, c)
    && match step.action
       case ReadStuckFails(status) => status == Dispatched
       case ReadStuck(_, skipped) => skipped != {}
       case FailStuck(_, error) => error
       case _ => false
  }

  predicate NoSweepTrouble(steps: seq<Step>, c: nat) {
    forall i | 0 <= i < |steps| :: !SweepTroubled(steps[i], c)
  }

  // Rows that stay dispatched -----------------------------------------------------------------

  // A dispatched row was dispatched before, and untouched since, or was pending.
  predicate DispatchedBefore(s: State, t: State, id: JobId) {
    id in t.jobs && t.jobs[id].status == Dispatched ==>
      id in s.jobs && (s.jobs[id] == t.jobs[id] || s.jobs[id].status == Pending)
  }

  lemma EffectDispatched(k: Config, s: State, pc: Controller, a: Action, id: JobId)
    requires CanAct(k, s, pc, a)
    ensures DispatchedBefore(s, Effect(s, pc, a), id)
  {
  }

  lemma StepDispatched(k: Config, s: State, step: Step, id: JobId)
    requires Inv(k, s) && Enabled(k, s, step)
    ensures DispatchedBefore(s, Apply(k, s, step), id)
  {
    match step
    case Act(c, a) => EffectDispatched(k, s, s.controllers[c], a, id);
    case Finish(r) => WrittenDispatched(s, s.requests[r], id);
    case _ =>
  }

  lemma WrittenDispatched(s: State, req: Request, id: JobId)
    requires ReqOk(s, req)
    ensures DispatchedBefore(s, Written(s, req), id)
  {
  }

  // While nothing is pending and nothing is created, nothing is dispatched either.
  lemma OverdueStays(k: Config, s: State, step: Step)
    requires Inv(k, s) && Enabled(k, s, step) && !step.Create? && Overdue(k, s)
    ensures Overdue(k, Apply(k, s, step)) && (NoneDispatched(s) ==> NoneDispatched(Apply(k, s, step)))
  {
    var t := Apply(k, s, step);
    StepKeeps(k, s, step);
    SameIds(k, s, step);
    forall id | id in t.jobs
      ensures t.jobs[id].status != Pending
      ensures t.jobs[id].status == Dispatched ==> id in s.jobs && s.jobs[id] == t.jobs[id]
    {
      assert RowEvolves(s, t, id);
      StepDispatched(k, s, step, id);
    }
  }

  lemma SameIds(k: Config, s: State, step: Step)
    requires Enabled(k, s, step) && !step.Create?
    ensures Apply(k, s, step).jobs.Keys == s.jobs.Keys
  {
    if step.Act? {
      EffectIds(k, s, s.controllers[step.c], step.action);
    }
  }

  lemma EffectIds(k: Config, s: State, pc: Controller, a: Action)
    requires CanAct(k, s, pc, a)
    ensures Effect(s, pc, a).jobs.Keys == s.jobs.Keys
  {
  }

  // The sweep ------------------------------------------------------------------------------------

  // Once the list is read, everything dispatched is on it; once it is worked off, nothing is.
  ghost predicate Swept(s: State, pc: Controller, ticks: nat) {
    if ticks > 0 then NoneDispatched(s)
    else match pc
      case Sweep(status) => status == Running ==> NoneDispatched(s)
      case Timing(status, stuck, _, clear) =>
        if status == Running then NoneDispatched(s)
        else clear && forall id | Matches(s.jobs, id, Dispatched) :: id in stuck
      case _ => true
  }

  // A sweep that has come to its end has moved on all it listed.
  lemma ListDone(k: Config, s: State, pc: Controller)
    requires CtrlOk(k, s, pc) && pc.Timing? && pc.clear && pc.done >= |pc.stuck| && pc.status == Dispatched
    requires forall id | Matches(s.jobs, id, Dispatched) :: id in pc.stuck
    ensures NoneDispatched(s)
  {
    forall id | id in s.jobs
      ensures s.jobs[id].status != Dispatched
    {
      assert Matches(s.jobs, id, Dispatched) ==> id in pc.stuck;
      if id in pc.stuck {
        var i :| 0 <= i < |pc.stuck| && pc.stuck[i] == id;
        assert Left(s, pc.stuck[i], Dispatched);
      }
    }
  }

  // What c itself does, by the place it reaches, once its effect on the rows is known.
  lemma PlaceSwept(k: Config, s: State, t: State, pc: Controller, a: Action, c: nat, ticks: nat)
    requires CtrlOk(k, s, pc) && CanAct(k, s, pc, a) && !Troubled(Act(c, a), c) && !SweepTroubled(Act(c, a), c)
    requires Overdue(k, s) && Swept(s, pc, ticks) && (NoneDispatched(s) ==> NoneDispatched(t))
    requires forall id | Matches(t.jobs, id, Dispatched) :: Matches(s.jobs, id, Dispatched)
    ensures Swept(t, NextPlace(s, pc, a), ticks + if EndsTick(Act(c, a), c) then 1 else 0)
  {
    if ticks == 0 {
      if a.ReadStuck? {
        ListComplete(k, s, pc.status, a.stuck);
      } else if a.EndSweep? {
        SweepOver(k, s, pc, a.status);
      } else {
        OtherSwept(k, s, t, pc, a, c);
      }
    }
  }

  lemma OtherSwept(k: Config, s: State, t: State, pc: Controller, a: Action, c: nat)
    requires CanAct(k, s, pc, a) && !SweepTroubled(Act(c, a), c) && !a.ReadStuck? && !a.EndSweep?
    requires Swept(s, pc, 0) && (NoneDispatched(s) ==> NoneDispatched(t))
    requires forall id | Matches(t.jobs, id, Dispatched) :: Matches(s.jobs, id, Dispatched)
    ensures Swept(t, NextPlace(s, pc, a), if EndsTick(Act(c, a), c) then 1 else 0)
  {
  }

  lemma ListComplete(k: Config, s: State, status: JobStatus, stuck: seq<JobId>)
    requires Overdue(k, s) && StuckList(s.jobs, status, Timeout(k, status), s.clock, stuck, {})
    ensures status == Dispatched ==> forall id | Matches(s.jobs, id, Dispatched) :: id in stuck
  {
    if status == Dispatched {
      forall id | Matches(s.jobs, id, Dispatched)
        ensures id in stuck
      {
        assert IsStuck(s.jobs, id, status, Timeout(k, status), s.clock);
      }
    }
  }

  lemma SweepOver(k: Config, s: State, pc: Controller, status: JobStatus)
    requires CtrlOk(k, s, pc) && CanAct(k, s, pc, EndSweep(status)) && Swept(s, pc, 0)
    ensures NoneDispatched(s)
  {
    if status == Dispatched {
      ListDone(k, s, pc);
    }
  }

  lemma DispatchedStays(k: Config, s: State, step: Step)
    requires Inv(k, s) && Enabled(k, s, step) && Overdue(k, s)
    ensures forall id | Matches(Apply(k, s, step).jobs, id, Dispatched) :: Matches(s.jobs, id, Dispatched)
  {
    forall id | Matches(Apply(k, s, step).jobs, id, Dispatched)
      ensures Matches(s.jobs, id, Dispatched)
    {
      StepDispatched(k, s, step, id);
    }
  }

  lemma StepSwept(k: Config, s: State, step: Step, c: nat, ticks: nat)
    requires Inv(k, s) && Enabled(k, s, step) && c < |s.controllers| && !step.Create?
    requires !Troubled(step, c) && !SweepTroubled(step, c) && Overdue(k, s) && Swept(s, s.controllers[c], ticks)
    ensures c < |Apply(k, s, step).controllers|
    ensures Swept(Apply(k, s, step), Apply(k, s, step).controllers[c], ticks + if EndsTick(step, c) then 1 else 0)
  {
    var t := Apply(k, s, step);
    OverdueStays(k, s, step);
    DispatchedStays(k, s, step);
    PlaceAfter(k, s, step, c);
    if ActOf(step, c) {
      assert CtrlOk(k, s, s.controllers[c]);
      PlaceSwept(k, s, t, s.controllers[c], step.action, c, ticks);
    }
  }

  // Whole runs -------------------------------------------------------------------------------------

  predicate NoCreate(steps: seq<Step>) {
    forall i | 0 <= i < |steps| :: !steps[i].Create?
  }

  lemma {:induction false} RunSwept(k: Config, s: State, steps: seq<Step>, t: State, c: nat)
    requires Inv(k, s) && Leads(Next(k), s, steps, t) && c < |s.controllers| && s.controllers[c].Idle?
    requires Overdue(k, s) && NoCreate(steps) && Troubles(steps, c) == 0 && NoSweepTrouble(steps, c)
    ensures Inv(k, t) && Overdue(k, t) && c < |t.controllers| && Swept(t, t.controllers[c], Ticks(steps, c))
    decreases |steps|
  {
    if steps != [] {
      var front, u, step := LastStep(k, s, steps, t);
      CountsOn(front, step, c);
      assert step == steps[|steps| - 1] && forall i | 0 <= i < |front| :: front[i] == steps[i];
      RunSwept(k, s, front, u, c);
      StepKeeps(k, u, step);
      OverdueStays(k, u, step);
      StepSwept(k, u, step, c, Ticks(front, c));
    }
  }

  // Between the draining and the sweep, what was dispatched grows old.
  lemma {:induction false} GrowsOld(k: Config, s: State, steps: seq<Step>, t: State, id: JobId)
    requires Inv(k, s) && Leads(Next(k), s, steps, t) && NoCreate(steps) && PendingJobs(s.jobs) == {}
    ensures Inv(k, t) && PendingJobs(t.jobs) == {} && s.clock <= t.clock
    ensures Matches(t.jobs, id, Dispatched) ==> id in s.jobs && s.jobs[id] == t.jobs[id]
    decreases |steps|
  {
    if steps != [] {
      var front, u, step := LastStep(k, s, steps, t);
      assert step == steps[|steps| - 1] && forall i | 0 <= i < |front| :: front[i] == steps[i];
      GrowsOld(k, s, front, u, id);
      StepKeeps(k, u, step);
      NothingPending(k, u, step);
      StepDispatched(k, u, step, id);
    }
  }

  lemma NothingPending(k: Config, s: State, step: Step)
    requires Inv(k, s) && Enabled(k, s, step) && !step.Create? && PendingJobs(s.jobs) == {}
    ensures PendingJobs(Apply(k, s, step).jobs) == {}
    ensures forall id | id in s.jobs :: s.jobs[id].status != Pending
  {
    var t := Apply(k, s, step);
    StepKeeps(k, s, step);
    EvolvesGrows(s, t);
    SameIds(k, s, step);
    assert Arrived(s.jobs, t.jobs) == {};
    forall id | id in s.jobs
      ensures s.jobs[id].status != Pending
    {
      assert id !in PendingJobs(s.jobs);
    }
  }

  lemma BecomesOverdue(k: Config, s: State, steps: seq<Step>, t: State)
    requires Inv(k, s) && Leads(Next(k), s, steps, t) && NoCreate(steps) && PendingJobs(s.jobs) == {}
    requires t.clock > s.clock + k.dispatchTimeout
    ensures Inv(k, t) && Overdue(k, t)
  {
    RunKeeps(k, s, steps, t);
    forall id | id in t.jobs
      ensures t.jobs[id].status != Pending
      ensures t.jobs[id].status == Dispatched ==> t.jobs[id].updatedAt < t.clock - k.dispatchTimeout
    {
      GrowsOld(k, s, steps, t, id);
      assert id !in PendingJobs(t.jobs);
      assert JobOk(s, id);
    }
  }

  lemma AllEnded(k: Config, s: State)
    requires Inv(k, s) && Overdue(k, s) && NoneDispatched(s)
    ensures forall id | id in s.jobs :: IsTerminal(s.jobs[id].status)
  {
    forall id | id in s.jobs
      ensures IsTerminal(s.jobs[id].status)
    {
      assert JobOk(s, id);
    }
  }

  lemma {:induction false} NoneArrive(k: Config, s: State, steps: seq<Step>, t: State)
    requires Inv(k, s) && Leads(Next(k), s, steps, t) && NoCreate(steps)
    ensures Arrived(s.jobs, t.jobs) == {}
    decreases |steps|
  {
    if steps != [] {
      var front, u, step := LastStep(k, s, steps, t);
      assert step == steps[|steps| - 1] && forall i | 0 <= i < |front| :: front[i] == steps[i];
      NoneArrive(k, s, front, u);
      SameIds(k, u, step);
    }
  }

  // Take a run in which no job is created after moment i. Controller c, idle then, has by moment j
  // finished enough ticks for the jobs pending at i, without a store error in dispatchPending,
  // without a skipped row and without crashing. At moment l the dispatch timeout has passed since
  // j, and c is idle again; by moment m it has finished one more tick, in which its timeout sweep
  // met no error and no locked row either. Then every job there is has ended.
  lemma EverythingEnds(k: Config, s: State, steps: seq<Step>, i: nat, j: nat, l: nat, m: nat, c: nat)
    requires Init(s) && IsRun(k, s, steps) && i <= j <= l <= m <= |steps|
    requires NoCreate(steps[i..j]) && NoCreate(steps[j..l]) && NoCreate(steps[l..m])
    requires c < |StateAt(k, s, steps, i).controllers| && StateAt(k, s, steps, i).controllers[c].Idle?
    requires Troubles(steps[i..j], c) == 0 && Skips(steps[i..j], c) == 0
    requires BATCH_LIMIT * Ticks(steps[i..j], c) >= |PendingJobs(StateAt(k, s, steps, i).jobs)|
    requires StateAt(k, s, steps, l).clock > StateAt(k, s, steps, j).clock + k.dispatchTimeout
    requires c < |StateAt(k, s, steps, l).controllers| && StateAt(k, s, steps, l).controllers[c].Idle?
    requires Troubles(steps[l..m], c) == 0 && NoSweepTrouble(steps[l..m], c) && Ticks(steps[l..m], c) >= 1
    ensures forall id | id in StateAt(k, s, steps, m).jobs :: IsTerminal(StateAt(k, s, steps, m).jobs[id].status)
  {
    var a, b := StateAt(k, s, steps, i), StateAt(k, s, steps, j);
    var d, e := StateAt(k, s, steps, l), StateAt(k, s, steps, m);
    StateAtOk(k, s, steps, i);
    StateAtOk(k, s, steps, j);
    StateAtBetween(k, s, steps, i, j);
    StateAtBetween(k, s, steps, j, l);
    StateAtBetween(k, s, steps, l, m);
    DrainBound(k, s, steps, i, j, c);
    NoneArrive(k, a, steps[i..j], b);
    BecomesOverdue(k, b, steps[j..l], d);
    RunSwept(k, d, steps[l..m], e, c);
    AllEnded(k, e);
  }
}
