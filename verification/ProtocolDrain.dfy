/**
 How fast a controller drains the pending jobs, whatever the other controllers and the requests
 do meanwhile.
 */
module ProtocolDrain {
  import opened Sets
  import opened Runs
  import opened JobTypes
  import opened Jobs
  import opened Protocol
  import opened ProtocolInvariant
  import opened ProtocolTheorems

  function PendingJobs(jobs: JobTable): set<JobId> {
    set id | id in jobs && jobs[id].status == Pending
  }

  function Arrived(before: JobTable, after: JobTable): set<JobId> {
    after.Keys - before.Keys
  }

  function BatchIds(batch: seq<Job>): set<JobId> {
    set i | 0 <= i < |batch| :: batch[i].id
  }

  function Excess(pending: nat, handled: nat): nat {
    if pending > handled then pending - handled else 0
  }

  // Reading a run ---------------------------------------------------------------------------

  predicate ActOf(step: Step, c: nat) {
    step.Act? && step.c == c
  }

  // The step that ends a tick of controller c.
  predicate EndsTick(step: Step, c: nat) {
    ActOf(step, c) && (step.action == EndSweep(Running) || step.action == ReadStuckFails(Running))
  }

  // A query of dispatchPending or its write to failed reported an error, or c crashed.
  predicate Troubled(step: Step, c: nat) {
    ActOf(step, c)
    && match step.action
       case ReadPendingFails => true
       case ReadAgentsFails => true
       case FailPending(_, error) => error
       case Crash => true
       case _ => false
  }

  // How many pending rows were locked when c read its batch.
  function SkippedBy(step: Step, c: nat): nat {
    if ActOf(step, c) && step.action.ReadPending? then |step.action.skipped| else 0
  }

  function Ticks(steps: seq<Step>, c: nat): nat {
    if steps == [] then 0
    else Ticks(steps[..|steps| - 1], c) + if EndsTick(steps[|steps| - 1], c) then 1 else 0
  }

  function Troubles(steps: seq<Step>, c: nat): nat {
    if steps == [] then 0
    else Troubles(steps[..|steps| - 1], c) + if Troubled(steps[|steps| - 1], c) then 1 else 0
  }

  function Skips(steps: seq<Step>, c: nat): nat {
    if steps == [] then 0
    else Skips(steps[..|steps| - 1], c) + SkippedBy(steps[|steps| - 1], c)
  }

  lemma CountsOn(steps: seq<Step>, step: Step, c: nat)
    ensures Ticks(steps + [step], c) == Ticks(steps, c) + if EndsTick(step, c) then 1 else 0
    ensures Troubles(steps + [step], c) == Troubles(steps, c) + if Troubled(step, c) then 1 else 0
    ensures Skips(steps + [step], c) == Skips(steps, c) + SkippedBy(step, c)
  {
    assert (steps + [step])[..|steps|] == steps;
  }

  lemma {:induction false} CountsConcat(a: seq<Step>, b: seq<Step>, c: nat)
    ensures Ticks(a + b, c) == Ticks(a, c) + Ticks(b, c)
    ensures Troubles(a + b, c) == Troubles(a, c) + Troubles(b, c)
    ensures Skips(a + b, c) == Skips(a, c) + Skips(b, c)
    decreases |b|
  {
    if b == [] {
      assert a + b == a;
    } else {
      var n := |b| - 1;
      CountsConcat(a, b[..n], c);
      assert a + b == (a + b[..n]) + [b[n]] && b == b[..n] + [b[n]];
      CountsOn(a + b[..n], b[n], c);
    }
  }

  // Sets ------------------------------------------------------------------------------------

  lemma {:induction false} DistinctIds(batch: seq<Job>)
    requires forall i, k | 0 <= i < k < |batch| :: batch[i].id != batch[k].id
    ensures |BatchIds(batch)| == |batch|
  {
    if batch != [] {
      var n := |batch| - 1;
      DistinctIds(batch[..n]);
      assert BatchIds(batch) == BatchIds(batch[..n]) + {batch[n].id};
    }
  }

  lemma ArrivedSum(a: JobTable, b: JobTable, c: JobTable)
    requires a.Keys <= b.Keys <= c.Keys
    ensures |Arrived(a, c)| == |Arrived(a, b)| + |Arrived(b, c)|
  {
    assert Arrived(a, c) == Arrived(a, b) + Arrived(b, c);
  }

  // The invariant of a stretch of a run ---------------------------------------------------------

  // A tick that has read its batch will have handled 50 more jobs than the n ticks before it.
  predicate PlaceDrains(jobs: JobTable, pc: Controller, pending: nat, n: nat, slack: nat) {
    match pc
    case Idle => true
    case Fetched(batch, _) => |PendingJobs(jobs) - BatchIds(batch)| <= Excess(pending, BATCH_LIMIT * (n + 1)) + slack
    case Working(batch, _, _, _, _, clean) =>
      clean && |PendingJobs(jobs) - BatchIds(batch)| <= Excess(pending, BATCH_LIMIT * (n + 1)) + slack
    case Sweep(_) => |PendingJobs(jobs)| <= Excess(pending, BATCH_LIMIT * (n + 1)) + slack
    case Timing(_, _, _, _) => |PendingJobs(jobs)| <= Excess(pending, BATCH_LIMIT * (n + 1)) + slack
  }

  predicate Drains(jobs: JobTable, pc: Controller, pending: nat, n: nat, slack: nat) {
    |PendingJobs(jobs)| <= Excess(pending, BATCH_LIMIT * n) + slack && PlaceDrains(jobs, pc, pending, n, slack)
  }

  // What is pending after a step was so before it or arrived with it.
  predicate Grows(before: JobTable, after: JobTable) {
    PendingJobs(after) <= PendingJobs(before) + Arrived(before, after)
  }

  lemma EvolvesGrows(s: State, t: State)
    requires Evolves(s, t)
    ensures Grows(s.jobs, t.jobs) && s.jobs.Keys <= t.jobs.Keys
  {
    forall id
      ensures id in PendingJobs(t.jobs) ==> id in PendingJobs(s.jobs) + Arrived(s.jobs, t.jobs)
      ensures id in s.jobs ==> id in t.jobs
    {
      assert RowEvolves(s, t, id);
    }
  }

  lemma DrainsOn(before: JobTable, after: JobTable, pc: Controller, pending: nat, n: nat, slack: nat)
    requires Drains(before, pc, pending, n, slack) && Grows(before, after)
    ensures Drains(after, pc, pending, n, slack + |Arrived(before, after)|)
  {
    var was, still, added := PendingJobs(before), PendingJobs(after), Arrived(before, after);
    SubsetSize(still, was + added);
    if pc.Fetched? || pc.Working? {
      var ids := BatchIds(pc.batch);
      SubsetSize(still - ids, (was - ids) + added);
    }
  }

  // Reading a batch takes it off, or leaves at most what was locked.
  lemma ReadDrains(jobs: JobTable, batch: seq<Job>, skipped: set<JobId>, pending: nat, n: nat, slack: nat)
    requires |PendingJobs(jobs)| <= Excess(pending, BATCH_LIMIT * n) + slack
    requires PendingBatch(jobs, batch, skipped)
    ensures |PendingJobs(jobs) - BatchIds(batch)| <= Excess(pending, BATCH_LIMIT * (n + 1)) + slack + |skipped|
  {
    var ids := BatchIds(batch);
    var left := PendingJobs(jobs) - ids;
    DistinctIds(batch);
    if |batch| == BATCH_LIMIT {
      assert ids <= PendingJobs(jobs);
      assert PendingJobs(jobs) == ids + left;
    } else {
      forall id | id in left
        ensures id in skipped
      {
        assert Absent(batch, id);
      }
      SubsetSize(left, skipped);
    }
  }

  // At the end of a batch without an error nothing of it is pending.
  lemma EndDrains(k: Config, s: State, pc: Controller)
    requires CtrlOk(k, s, pc) && pc.Working? && pc.clean && pc.next >= |pc.batch|
    ensures PendingJobs(s.jobs) - BatchIds(pc.batch) == PendingJobs(s.jobs)
  {
    forall i | 0 <= i < |pc.batch|
      ensures pc.batch[i].id !in PendingJobs(s.jobs)
    {
      assert SameRow(s, pc.batch[i]);
    }
  }

  // From place to place inside a tick, once the batch is read.
  predicate MovesWithin(pc: Controller, pc': Controller) {
    match pc
    case Idle => false
    case Fetched(batch, _) => (pc'.Working? && pc'.batch == batch && pc'.clean)
    case Working(batch, _, _, _, _, clean) => pc'.Working? && pc'.batch == batch && pc'.clean == clean
    case Sweep(_) => pc'.Timing? || pc'.Sweep? || pc'.Idle?
    case Timing(_, _, _, _) => pc'.Timing? || pc'.Sweep? || pc'.Idle?
  }

  lemma PlacesMove(k: Config, s: State, pc: Controller, a: Action, c: nat)
    requires CtrlOk(k, s, pc) && CanAct(k, s, pc, a) && !Troubled(Act(c, a), c) && !a.ReadPending? && !a.EndBatch?
    ensures MovesWithin(pc, NextPlace(s, pc, a))
    ensures EndsTick(Act(c, a), c) <==> NextPlace(s, pc, a).Idle?
    ensures SkippedBy(Act(c, a), c) == 0
  {
  }

  lemma MoveDrains(jobs: JobTable, pc: Controller, pc': Controller, pending: nat, n: nat, slack: nat)
    requires Drains(jobs, pc, pending, n, slack) && MovesWithin(pc, pc')
    ensures Drains(jobs, pc', pending, n + if pc'.Idle? then 1 else 0, slack)
  {
  }

  predicate OwnDrained(s: State, pc: Controller, a: Action, c: nat, pending: nat, n: nat, slack: nat) {
    var after := Effect(s, pc, a).jobs;
    Drains(after, NextPlace(s, pc, a), pending, n + (if EndsTick(Act(c, a), c) then 1 else 0),
           slack + |Arrived(s.jobs, after)| + SkippedBy(Act(c, a), c))
  }

  lemma ReadStep(s: State, a: Action, c: nat, pending: nat, n: nat, slack: nat)
    requires a.ReadPending? && PendingBatch(s.jobs, a.batch, a.skipped) && Drains(s.jobs, Idle, pending, n, slack)
    ensures OwnDrained(s, Idle, a, c, pending, n, slack)
  {
    ReadDrains(s.jobs, a.batch, a.skipped, pending, n, slack);
    assert a.batch == [] ==> BatchIds(a.batch) == {};
    assert Arrived(s.jobs, s.jobs) == {};
  }

  lemma EndStep(k: Config, s: State, pc: Controller, c: nat, pending: nat, n: nat, slack: nat)
    requires CtrlOk(k, s, pc) && CanAct(k, s, pc, EndBatch) && Drains(s.jobs, pc, pending, n, slack)
    ensures OwnDrained(s, pc, EndBatch, c, pending, n, slack)
  {
    EndDrains(k, s, pc);
  }

  // What a step of c itself does to the bound.
  lemma OwnDrains(k: Config, s: State, pc: Controller, a: Action, c: nat, pending: nat, n: nat, slack: nat)
    requires CtrlOk(k, s, pc) && CanAct(k, s, pc, a) && !Troubled(Act(c, a), c) && Grows(s.jobs, Effect(s, pc, a).jobs)
    requires Drains(s.jobs, pc, pending, n, slack)
    ensures OwnDrained(s, pc, a, c, pending, n, slack)
  {
    if a.ReadPending? {
      ReadStep(s, a, c, pending, n, slack);
    } else if a.EndBatch? {
      EndStep(k, s, pc, c, pending, n, slack);
    } else {
      PlacesMove(k, s, pc, a, c);
      var after := Effect(s, pc, a).jobs;
      DrainsOn(s.jobs, after, pc, pending, n, slack);
      MoveDrains(after, pc, NextPlace(s, pc, a), pending, n, slack + |Arrived(s.jobs, after)|);
    }
  }

  lemma PlaceAfter(k: Config, s: State, step: Step, c: nat)
    requires Enabled(k, s, step) && c < |s.controllers|
    ensures c < |Apply(k, s, step).controllers|
    ensures Apply(k, s, step).controllers[c]
         == if ActOf(step, c) then NextPlace(s, s.controllers[c], step.action) else s.controllers[c]
    ensures ActOf(step, c) ==> Apply(k, s, step).jobs == Effect(s, s.controllers[c], step.action).jobs
  {
    if step.Act? {
      EffectFrame(s, s.controllers[step.c], step.action);
    }
  }

  lemma StepDrains(k: Config, s: State, step: Step, t: State, c: nat, pending: nat, n: nat, slack: nat, n': nat,
                   slack': nat)
    requires Inv(k, s) && Enabled(k, s, step) && t == Apply(k, s, step)
    requires !Troubled(step, c) && c < |s.controllers| && Drains(s.jobs, s.controllers[c], pending, n, slack)
    requires n' == n + if EndsTick(step, c) then 1 else 0
    requires slack' == slack + |Arrived(s.jobs, t.jobs)| + SkippedBy(step, c)
    ensures c < |t.controllers| && Drains(t.jobs, t.controllers[c], pending, n', slack')
  {
    StepKeeps(k, s, step);
    EvolvesGrows(s, t);
    PlaceAfter(k, s, step, c);
    if ActOf(step, c) {
      OwnDrains(k, s, s.controllers[c], step.action, c, pending, n, slack);
    } else {
      DrainsOn(s.jobs, t.jobs, s.controllers[c], pending, n, slack);
    }
  }

  // The step leads from s to t, put in such a way that the verifier looks into it only on request.
  ghost predicate Moved(k: Config, s: State, step: Step, t: State) {
    forall x | x == step :: Enabled(k, s, x) && t == Apply(k, s, x)
  }

  // One more step adds up.
  lemma StepTotals(k: Config, t: JobTable, before: seq<Step>, u: State, step: Step, v: State, c: nat, after: seq<Step>)
    requires Inv(k, u) && Moved(k, u, step, v) && t.Keys <= u.jobs.Keys
    requires after == before + [step]
    ensures Ticks(after, c) == Ticks(before, c) + if EndsTick(step, c) then 1 else 0
    ensures Troubles(after, c) == Troubles(before, c) + if Troubled(step, c) then 1 else 0
    ensures |Arrived(t, v.jobs)| + Skips(after, c)
         == |Arrived(t, u.jobs)| + Skips(before, c) + |Arrived(u.jobs, v.jobs)| + SkippedBy(step, c)
  {
    assert Enabled(k, u, step) && v == Apply(k, u, step);
    CountsOn(before, step, c);
    StepKeeps(k, u, step);
    EvolvesGrows(u, v);
    ArrivedSum(t, u.jobs, v.jobs);
  }

  // The bound for what steps have done since `before`.
  predicate DrainsSince(before: JobTable, steps: seq<Step>, t: State, c: nat) {
    && c < |t.controllers|
    && Drains(t.jobs, t.controllers[c], |PendingJobs(before)|, Ticks(steps, c),
              |Arrived(before, t.jobs)| + Skips(steps, c))
  }

  lemma MovedDrains(k: Config, s: State, step: Step, t: State, c: nat, pending: nat, n: nat, slack: nat, n': nat,
                    slack': nat)
    requires Inv(k, s) && Moved(k, s, step, t)
    requires !Troubled(step, c) && c < |s.controllers| && Drains(s.jobs, s.controllers[c], pending, n, slack)
    requires n' == n + if EndsTick(step, c) then 1 else 0
    requires slack' == slack + |Arrived(s.jobs, t.jobs)| + SkippedBy(step, c)
    ensures c < |t.controllers| && Drains(t.jobs, t.controllers[c], pending, n', slack')
  {
    StepDrains(k, s, step, t, c, pending, n, slack, n', slack');
  }

  lemma DrainsWith(k: Config, before: JobTable, front: seq<Step>, u: State, step: Step, v: State, c: nat,
                   steps: seq<Step>)
    requires Inv(k, u) && Moved(k, u, step, v) && !Troubled(step, c)
    requires before.Keys <= u.jobs.Keys && steps == front + [step] && DrainsSince(before, front, u, c)
    ensures DrainsSince(before, steps, v, c)
  {
    StepTotals(k, before, front, u, step, v, c, steps);
    MovedDrains(k, u, step, v, c, |PendingJobs(before)|, Ticks(front, c), |Arrived(before, u.jobs)| + Skips(front, c),
                Ticks(steps, c), |Arrived(before, v.jobs)| + Skips(steps, c));
  }

  lemma LastStep(k: Config, s: State, steps: seq<Step>, t: State) returns (front: seq<Step>, u: State, step: Step)
    requires Inv(k, s) && Leads(Next(k), s, steps, t) && steps != []
    ensures steps == front + [step] && |front| < |steps| && Leads(Next(k), s, front, u)
    ensures Inv(k, u) && Moved(k, u, step, t) && s.jobs.Keys <= u.jobs.Keys
  {
    var n := |steps| - 1;
    front, step := steps[..n], steps[n];
    u := After(Next(k), s, front).value;
    RunKeeps(k, s, front, u);
    EvolvesGrows(s, u);
  }

  lemma {:induction false} RunDrains(k: Config, s: State, steps: seq<Step>, t: State, c: nat)
    requires Inv(k, s) && Leads(Next(k), s, steps, t) && c < |s.controllers| && s.controllers[c].Idle?
    requires Troubles(steps, c) == 0
    ensures DrainsSince(s.jobs, steps, t, c)
    decreases |steps|
  {
    if steps != [] {
      var front, u, step := LastStep(k, s, steps, t);
      CountsOn(front, step, c);
      RunDrains(k, s, front, u, c);
      DrainsWith(k, s.jobs, front, u, step, t, c, steps);
    }
  }

  // Take any stretch of any run in which controller c, idle at its beginning, finishes n ticks
  // without a store error in dispatchPending and without crashing. However many jobs were pending,
  // 50 per tick have been handled; the others that are pending now arrived meanwhile, or were
  // locked by another statement when c read a batch.
  lemma DrainBound(k: Config, s: State, steps: seq<Step>, i: nat, m: nat, c: nat)
    requires Init(s) && IsRun(k, s, steps) && i <= m <= |steps|
    requires c < |StateAt(k, s, steps, i).controllers| && StateAt(k, s, steps, i).controllers[c].Idle?
    requires Troubles(steps[i..m], c) == 0
    ensures var before, after := StateAt(k, s, steps, i).jobs, StateAt(k, s, steps, m).jobs;
            |PendingJobs(after)|
            <= Excess(|PendingJobs(before)|, BATCH_LIMIT * Ticks(steps[i..m], c))
               + |Arrived(before, after)| + Skips(steps[i..m], c)
  {
    StateAtOk(k, s, steps, i);
    StateAtBetween(k, s, steps, i, m);
    RunDrains(k, StateAt(k, s, steps, i), steps[i..m], StateAt(k, s, steps, m), c);
  }

  // A stretch of a run leads from its first state to its last.
  lemma StateAtBetween(k: Config, s: State, steps: seq<Step>, i: nat, m: nat)
    requires IsRun(k, s, steps) && i <= m <= |steps|
    ensures Leads(Next(k), StateAt(k, s, steps, i), steps[i..m], StateAt(k, s, steps, m))
  {
    PrefixLeads(Next(k), s, steps, i);
    PrefixLeads(Next(k), s, steps, m);
    assert steps[..m] == steps[..i] + steps[i..m];
    LeadsConcat(Next(k), s, steps[..i], StateAt(k, s, steps, i), steps[i..m]);
  }
}
