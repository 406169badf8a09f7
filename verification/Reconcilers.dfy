/**
 controller/internal/reconciler/reconciler.go, statement by statement. Between any two statements
 every other controller, request and agent may run; the ghost `run` is everything that has
 happened since the system was empty, as steps of module Protocol, and each statement is shown to
 be the next step of controller `c`. What is proved there about all runs therefore holds here.
 */
module Reconcilers {
  import opened Wrappers
  import opened Runs
  import opened JobTypes
  import opened Jobs
  import opened Selector
  import opened Protocol
  import opened ProtocolInvariant
  import opened ProtocolDrain
  import opened ProtocolRows
  import opened Database

  predicate ByOthers(steps: seq<Step>, c: nat) {
    forall i | 0 <= i < |steps| :: !ActOf(steps[i], c)
  }

  // Others leave a controller where it is, and do not count as its ticks, troubles or skips.
  lemma {:induction false} OthersLeave(k: Config, c: nat, s: State, steps: seq<Step>, t: State)
    requires Leads(Next(k), s, steps, t) && c < |s.controllers| && ByOthers(steps, c)
    ensures c < |t.controllers| && t.controllers[c] == s.controllers[c]
    ensures Ticks(steps, c) == 0 && Troubles(steps, c) == 0 && Skips(steps, c) == 0
    decreases |steps|
  {
    if steps != [] {
      var n := |steps| - 1;
      var u := After(Next(k), s, steps[..n]).value;
      OthersLeave(k, c, s, steps[..n], u);
      PlaceAfter(k, u, steps[n], c);
    }
  }

  lemma OthersRan(k: Config, origin: State, before: seq<Step>, s: State, run: seq<Step>, t: State, c: nat)
    requires Led(Next(k), origin, before, s) && Led(Next(k), origin, run, t)
    requires before <= run && ByOthers(run[|before|..], c) && c < |s.controllers|
    ensures c < |t.controllers| && t.controllers[c] == s.controllers[c]
    ensures Ticks(run, c) == Ticks(before, c) && Troubles(run, c) == Troubles(before, c)
    ensures Skips(run, c) == Skips(before, c)
    ensures forall m :: Mishaps(run, c, m) == Mishaps(before, c, m)
  {
    var added := run[|before|..];
    assert run == before + added;
    LedLeads(Next(k), origin, before, s);
    LedLeads(Next(k), origin, run, t);
    LeadsConcat(Next(k), origin, before, s, added);
    OthersLeave(k, c, s, added, t);
    CountsConcat(before, added, c);
    forall m
      ensures Mishaps(run, c, m) == Mishaps(before, c, m)
    {
      MishapsOthers(before, added, c, m);
    }
  }

  lemma RunInv(k: Config, origin: State, run: seq<Step>, s: State)
    requires Init(origin) && Led(Next(k), origin, run, s)
    ensures Inv(k, s)
  {
    InitOk(k, origin);
    LedLeads(Next(k), origin, run, s);
    RunKeeps(k, origin, run, s);
  }

  lemma RunIds(k: Config, origin: State, run: seq<Step>, s: State)
    requires Init(origin) && Led(Next(k), origin, run, s)
    ensures forall id | id in s.jobs :: s.jobs[id].id == id
  {
    RunInv(k, origin, run, s);
    assert forall id | id in s.jobs :: JobOk(s, id);
  }

  // What can go wrong for a controller.
  datatype Mishap = StoreError | Unbuilt | Refused

  // The step is what controller c does about such a thing.
  predicate Shows(step: Step, c: nat, m: Mishap) {
    ActOf(step, c)
    && match step.action
       case ReadPendingFails => m.StoreError?
       case ReadAgentsFails => m.StoreError?
       case PayloadFails => m.Unbuilt?
       case ClaimFails(_) => m.StoreError?
       case Reply(accepted) => m.Refused? && !accepted
       case Revert(_, error) => m.StoreError? && error
       case FailPending(_, error) => m.StoreError? && error
       case ReadStuckFails(_) => m.StoreError?
       case FailStuck(_, error) => m.StoreError? && error
       case _ => false
  }

  function Mishaps(steps: seq<Step>, c: nat, m: Mishap): nat {
    if steps == [] then 0
    else Mishaps(steps[..|steps| - 1], c, m) + if Shows(steps[|steps| - 1], c, m) then 1 else 0
  }

  lemma MishapsOn(steps: seq<Step>, step: Step, c: nat, m: Mishap)
    ensures Mishaps(steps + [step], c, m) == Mishaps(steps, c, m) + if Shows(step, c, m) then 1 else 0
  {
    assert (steps + [step])[..|steps|] == steps;
  }

  lemma {:induction false} MishapsOthers(run: seq<Step>, added: seq<Step>, c: nat, m: Mishap)
    requires ByOthers(added, c)
    ensures Mishaps(run + added, c, m) == Mishaps(run, c, m)
    decreases |added|
  {
    if added == [] {
      assert run + added == run;
    } else {
      var n := |added| - 1;
      MishapsOthers(run, added[..n], c, m);
      assert run + added == (run + added[..n]) + [added[n]];
      MishapsOn(run + added[..n], added[n], c, m);
    }
  }

  // What a controller has been through: the run so far, the errors and skipped rows that the
  // store has counted, the payloads that could not be built and the refused Dispatch calls.
  datatype Meter = Meter(run: seq<Step>, errors: nat, skips: nat, unbuilt: nat, refused: nat)

  // The controller has finished so many ticks. It took a step that shows a mishap exactly for
  // each that befell it, and every skip is one of a row that the store skipped.
  predicate Advanced(c: nat, a: Meter, b: Meter, ticks: nat) {
    && a.run <= b.run && a.errors <= b.errors && a.unbuilt <= b.unbuilt && a.refused <= b.refused
    && Ticks(b.run, c) == Ticks(a.run, c) + ticks
    && Troubles(b.run, c) + a.errors <= Troubles(a.run, c) + b.errors
    && Skips(b.run, c) + a.skips == Skips(a.run, c) + b.skips
    && Mishaps(b.run, c, StoreError) + a.errors == Mishaps(a.run, c, StoreError) + b.errors
    && Mishaps(b.run, c, Unbuilt) + a.unbuilt == Mishaps(a.run, c, Unbuilt) + b.unbuilt
    && Mishaps(b.run, c, Refused) + a.refused == Mishaps(a.run, c, Refused) + b.refused
  }

  // Attempts ----------------------------------------------------------------------------------

  // At step i, taken in state s, controller c tries to claim the job for the agent.
  ghost predicate TriedAt(k: Config, origin: State, run: seq<Step>, i: nat, s: State, c: nat, job: JobId,
                          agent: AgentId) {
    i < |run| && run[i] == Act(c, TryClaim) && Led(Next(k), origin, run[..i], s) && ClaimsFor(s, run[i], job, agent)
  }

  // It has done so since the run was `before`.
  ghost predicate Tried(k: Config, origin: State, before: seq<Step>, run: seq<Step>, c: nat, job: JobId,
                        agent: AgentId) {
    before <= run && exists i, s :: |before| <= i && TriedAt(k, origin, run, i, s, c, job, agent)
  }

  lemma TriedLater(k: Config, origin: State, earlier: seq<Step>, before: seq<Step>, run: seq<Step>, later: seq<Step>,
                   c: nat, job: JobId, agent: AgentId)
    requires Tried(k, origin, before, run, c, job, agent) && earlier <= before && run <= later
    ensures Tried(k, origin, earlier, later, c, job, agent)
  {
    var i, s :| |before| <= i && TriedAt(k, origin, run, i, s, c, job, agent);
    assert later[..i] == run[..i] && later[i] == run[i];
    assert TriedAt(k, origin, later, i, s, c, job, agent);
  }

  lemma TriedNow(k: Config, origin: State, run: seq<Step>, s: State, c: nat, job: JobId, agent: AgentId)
    requires Led(Next(k), origin, run, s) && ClaimsFor(s, Act(c, TryClaim), job, agent)
    ensures Tried(k, origin, run, run + [Act(c, TryClaim)], c, job, agent)
  {
    var longer := run + [Act(c, TryClaim)];
    assert longer[..|run|] == run;
    assert TriedAt(k, origin, longer, |run|, s, c, job, agent);
  }

  // The first n jobs of the batch have been tried.
  ghost predicate AllTried(k: Config, origin: State, before: seq<Step>, run: seq<Step>, c: nat, jobs: seq<Job>, n: nat,
                           agent: AgentId) {
    n <= |jobs| && forall l | 0 <= l < n :: Tried(k, origin, before, run, c, jobs[l].id, agent)
  }

  lemma AllTriedLater(k: Config, origin: State, before: seq<Step>, run: seq<Step>, later: seq<Step>, c: nat,
                      jobs: seq<Job>, n: nat, agent: AgentId)
    requires AllTried(k, origin, before, run, c, jobs, n, agent) && run <= later
    ensures AllTried(k, origin, before, later, c, jobs, n, agent)
  {
    forall l | 0 <= l < n
      ensures Tried(k, origin, before, later, c, jobs[l].id, agent)
    {
      TriedLater(k, origin, before, before, run, later, c, jobs[l].id, agent);
    }
  }

  lemma AllTriedAfter(k: Config, origin: State, before: seq<Step>, run: seq<Step>, later: seq<Step>, c: nat,
                      jobs: seq<Job>, agents: seq<Agent>)
    requires run <= later
    ensures agents != [] && AllTried(k, origin, before, run, c, jobs, |jobs|, Choose(agents).id) ==>
              AllTried(k, origin, before, later, c, jobs, |jobs|, Choose(agents).id)
  {
    if agents != [] && AllTried(k, origin, before, run, c, jobs, |jobs|, Choose(agents).id) {
      AllTriedLater(k, origin, before, run, later, c, jobs, |jobs|, Choose(agents).id);
    }
  }

  lemma AllTriedSince(k: Config, origin: State, earlier: seq<Step>, before: seq<Step>, run: seq<Step>, c: nat,
                      jobs: seq<Job>, agents: seq<Agent>)
    requires earlier <= before <= run
    ensures agents != [] && AllTried(k, origin, before, run, c, jobs, |jobs|, Choose(agents).id) ==>
              AllTried(k, origin, earlier, run, c, jobs, |jobs|, Choose(agents).id)
  {
    if agents != [] && AllTried(k, origin, before, run, c, jobs, |jobs|, Choose(agents).id) {
      forall l | 0 <= l < |jobs|
        ensures Tried(k, origin, earlier, run, c, jobs[l].id, Choose(agents).id)
      {
        TriedLater(k, origin, earlier, before, run, run, c, jobs[l].id, Choose(agents).id);
      }
    }
  }

  // A job that was tried has been claimed by that very attempt and belongs to the agent ever
  // since, or had already left pending by another's write.
  lemma TriedMeans(k: Config, origin: State, run: seq<Step>, w: State, i: nat, s: State, c: nat, job: JobId,
                   agent: AgentId)
    requires Init(origin) && Led(Next(k), origin, run, w) && TriedAt(k, origin, run, i, s, c, job, agent)
    ensures job in s.jobs && job in w.jobs && w.jobs[job].status != Pending
    ensures s.jobs[job].status == Pending ==>
              && job in w.hist.claimed && w.hist.claimed[job] == Claim(agent, s.clock)
              && w.jobs[job].agentId == Some(agent)
  {
    var before, t := run[..i], Apply(k, s, run[i]);
    var after := run[i + 1..];
    LedLeads(Next(k), origin, run, w);
    LedLeads(Next(k), origin, before, s);
    assert run == before + ([run[i]] + after);
    LeadsConcat(Next(k), origin, before, s, [run[i]] + after);
    FirstStep(k, s, run[i], after, w);
    RunInv(k, origin, before, s);
    StepKeeps(k, s, run[i]);
    RunKeeps(k, t, after, w);
    var pc := s.controllers[c];
    assert CtrlOk(k, s, pc) && SameRow(s, pc.batch[pc.next]);
    if s.jobs[job].status == Pending {
      ClaimedRow(k, s, run[i], job, agent);
    }
    assert RowEvolves(s, t, job) && RowEvolves(t, w, job) && JobOk(w, job);
    TriedLeaves(k, s, run[i], job, agent);
  }

  lemma FirstStep(k: Config, s: State, step: Step, after: seq<Step>, w: State)
    requires Leads(Next(k), s, [step] + after, w)
    ensures Enabled(k, s, step) && Leads(Next(k), Apply(k, s, step), after, w)
  {
    var all := [step] + after;
    PrefixLeads(Next(k), s, all, 1);
    assert all[..1] == [step] && [step][..0] == [];
    LeadsConcat(Next(k), s, [step], Apply(k, s, step), after);
  }

  lemma TriedLeaves(k: Config, s: State, step: Step, job: JobId, agent: AgentId)
    requires Inv(k, s) && Enabled(k, s, step) && ClaimsFor(s, step, job, agent) && job in s.jobs
    ensures job in Apply(k, s, step).jobs && Apply(k, s, step).jobs[job].status != Pending
  {
    if s.jobs[job].status == Pending {
      ClaimedRow(k, s, step, job, agent);
    } else {
      StepKeeps(k, s, step);
      assert RowEvolves(s, Apply(k, s, step), job);
    }
  }

  // The bound of ProtocolDrain for the stretch between two moments of a controller's life.
  lemma AdvancedDrains(k: Config, c: nat, origin: State, a: Meter, s: State, b: Meter, t: State, ticks: nat)
    requires Init(origin) && Led(Next(k), origin, a.run, s) && Led(Next(k), origin, b.run, t)
    requires Advanced(c, a, b, ticks) && a.errors == b.errors && c < |s.controllers| && s.controllers[c].Idle?
    ensures |PendingJobs(t.jobs)|
         <= Excess(|PendingJobs(s.jobs)|, BATCH_LIMIT * ticks) + |Arrived(s.jobs, t.jobs)| + (b.skips - a.skips)
  {
    var added := b.run[|a.run|..];
    assert b.run == a.run + added;
    LedLeads(Next(k), origin, a.run, s);
    LedLeads(Next(k), origin, b.run, t);
    LeadsConcat(Next(k), origin, a.run, s, added);
    CountsConcat(a.run, added, c);
    RunInv(k, origin, a.run, s);
    RunDrains(k, s, added, t, c);
  }

  predicate NonePending(jobs: JobTable, batch: seq<Job>) {
    forall i | 0 <= i < |batch| :: batch[i].id in jobs && jobs[batch[i].id].status != Pending
  }

  // A controller that reaches the end of its batch without an error has left none pending.
  lemma BatchDone(k: Config, origin: State, run: seq<Step>, s: State, c: nat)
    requires Init(origin) && Led(Next(k), origin, run, s) && c < |s.controllers|
    requires var pc := s.controllers[c]; pc.Working? && pc.next == |pc.batch| && pc.clean
    ensures NonePending(s.jobs, s.controllers[c].batch)
  {
    var pc := s.controllers[c];
    RunInv(k, origin, run, s);
    assert CtrlOk(k, s, pc);
    assert forall i | 0 <= i < |pc.batch| :: SameRow(s, pc.batch[i]);
  }

  // Every job of the list has left the status for good.
  predicate AllLeft(s: State, stuck: seq<JobId>, status: JobStatus) {
    forall id | id in stuck :: Left(s, id, status)
  }

  // A controller that reaches the end of a sweep without an error has moved every listed job on.
  lemma SweepEnds(k: Config, origin: State, run: seq<Step>, s: State, c: nat)
    requires Init(origin) && Led(Next(k), origin, run, s) && c < |s.controllers|
    requires var pc := s.controllers[c]; pc.Timing? && pc.done == |pc.stuck| && pc.clear
    ensures AllLeft(s, s.controllers[c].stuck, s.controllers[c].status)
  {
    var pc := s.controllers[c];
    RunInv(k, origin, run, s);
    assert CtrlOk(k, s, pc);
    forall id | id in pc.stuck
      ensures Left(s, id, pc.status)
    {
      var i :| 0 <= i < |pc.stuck| && pc.stuck[i] == id;
      assert Left(s, pc.stuck[i], pc.status);
    }
  }

  // What has left a status does not come back to it.
  lemma LeftForGood(k: Config, origin: State, before: seq<Step>, s: State, run: seq<Step>, t: State)
    requires Init(origin) && Led(Next(k), origin, before, s) && Led(Next(k), origin, run, t) && before <= run
    ensures forall id, status | Left(s, id, status) :: Left(t, id, status)
  {
    var added := run[|before|..];
    assert run == before + added;
    LedLeads(Next(k), origin, before, s);
    LedLeads(Next(k), origin, run, t);
    LeadsConcat(Next(k), origin, before, s, added);
    RunInv(k, origin, before, s);
    RunKeeps(k, s, added, t);
    forall id, status | Left(s, id, status)
      ensures Left(t, id, status)
    {
      assert RowEvolves(s, t, id);
    }
  }

  lemma LeftStays(k: Config, s: State, step: Step, stuck: seq<JobId>, status: JobStatus)
    requires Inv(k, s) && Enabled(k, s, step) && AllLeft(s, stuck, status)
    ensures AllLeft(Apply(k, s, step), stuck, status)
  {
    StepKeeps(k, s, step);
    assert forall id | id in stuck :: RowEvolves(s, Apply(k, s, step), id);
  }

  // What the reconciler calls and this model does not look into, as far as it can fail.
  class Outside {
    ghost var unbuilt: nat  // payloads that could not be built
    ghost var refused: nat  // Dispatch calls that returned an error

    // buildPayload
    method BuildPayload() returns (err: bool)
      modifies this
      ensures unbuilt == old(unbuilt) + if err then 1 else 0
      ensures refused == old(refused)
    {
      err := *;
      if err {
        unbuilt := unbuilt + 1;
      }
    }

    // The reply to a Dispatch call.
    method Reply() returns (err: bool)
      modifies this
      ensures refused == old(refused) + if err then 1 else 0
      ensures unbuilt == old(unbuilt)
    {
      err := *;
      if err {
        refused := refused + 1;
      }
    }
  }

  class Reconciler {
    const store: Store
    const outside: Outside
    const cfg: Config
    ghost const c: nat
    ghost const origin: State
    ghost var run: seq<Step>
    ghost var w: State

    constructor (store: Store, outside: Outside, cfg: Config, ghost c: nat, ghost origin: State, ghost run: seq<Step>,
                 ghost w: State)
      requires w.jobs == store.jobs && w.agents == store.agents && w.clock == store.clock
      requires Init(origin) && Led(Next(cfg), origin, run, w) && c < |w.controllers| && w.controllers[c].Idle?
      ensures this.store == store && this.outside == outside && this.cfg == cfg && this.c == c
      ensures this.origin == origin && this.run == run && this.w == w
      ensures Agrees() && Place().Idle?
    {
      this.store, this.outside, this.cfg, this.c := store, outside, cfg, c;
      this.origin, this.run, this.w := origin, run, w;
    }

    // The database is the one that the run has led to.
    ghost predicate Agrees()
      reads this, store
    {
      && w.jobs == store.jobs && w.agents == store.agents && w.clock == store.clock
      && c < |w.controllers| && Init(origin) && Led(Next(cfg), origin, run, w)
    }

    ghost function Place(): Controller
      reads this
    {
      if c < |w.controllers| then w.controllers[c] else Idle
    }

    ghost function Seen(): Meter
      reads this, store, outside
    {
      Meter(run, store.errors, store.skips, outside.unbuilt, outside.refused)
    }

    // Anything that others may have done by now. Callers know the contract and not the body, so
    // they are verified for every sequence of steps of the others.
    method Interfere()
      requires Agrees()
      modifies this`run, this`w, store
      ensures Agrees() && old(run) <= run && ByOthers(run[|old(run)|..], c)
      ensures store.errors == old(store.errors) && store.skips == old(store.skips)
      ensures store.stuckSkips == old(store.stuckSkips)
    {
    }

    method Yield()
      requires Agrees()
      modifies this`run, this`w, store
      ensures Agrees() && Place() == old(Place()) && Advanced(c, old(Seen()), Seen(), 0)
      ensures store.errors == old(store.errors) && store.skips == old(store.skips)
      ensures store.stuckSkips == old(store.stuckSkips)
    {
      ghost var s, before := w, run;
      Interfere();
      OthersRan(cfg, origin, before, s, run, w, c);
    }

    // Controller c has taken a step.
    ghost method Took(a: Action)
      requires c < |w.controllers| && Led(Next(cfg), origin, run, w) && Enabled(cfg, w, Act(c, a))
      modifies this`run, this`w
      ensures w == Apply(cfg, old(w), Act(c, a)) && run == old(run) + [Act(c, a)]
      ensures c < |w.controllers| && Led(Next(cfg), origin, run, w)
      ensures w.clock == old(w).clock && w.agents == old(w).agents && w.jobs == Effect(old(w), old(Place()), a).jobs
      ensures Place() == NextPlace(old(w), old(Place()), a)
      ensures Ticks(run, c) == Ticks(old(run), c) + if EndsTick(Act(c, a), c) then 1 else 0
      ensures Troubles(run, c) == Troubles(old(run), c) + if Troubled(Act(c, a), c) then 1 else 0
      ensures Skips(run, c) == Skips(old(run), c) + SkippedBy(Act(c, a), c)
      ensures forall m :: Mishaps(run, c, m) == Mishaps(old(run), c, m) + if Shows(Act(c, a), c, m) then 1 else 0
    {
      LedOnward(cfg, origin, run, w, Act(c, a));
      EffectFrame(w, w.controllers[c], a);
      CountsOn(run, Act(c, a), c);
      forall m
        ensures Mishaps(run + [Act(c, a)], c, m) == Mishaps(run, c, m) + if Shows(Act(c, a), c, m) then 1 else 0
      {
        MishapsOn(run, Act(c, a), c, m);
      }
      run := run + [Act(c, a)];
      w := Apply(cfg, w, Act(c, a));
    }

    // What has been counted since `start`, where the run stood as it does now, is what the step
    // shows.
    ghost predicate Counted(a: Action, start: Meter)
      reads this, store, outside
    {
      && start.run == run
      && store.errors == start.errors + (if Shows(Act(c, a), c, StoreError) then 1 else 0)
      && outside.unbuilt == start.unbuilt + (if Shows(Act(c, a), c, Unbuilt) then 1 else 0)
      && outside.refused == start.refused + (if Shows(Act(c, a), c, Refused) then 1 else 0)
      && store.skips == start.skips + SkippedBy(Act(c, a), c)
      && !a.Crash?
    }

    // A step that is a statement, once it has been answered.
    ghost method Did(a: Action, start: Meter)
      requires c < |w.controllers| && Init(origin) && Led(Next(cfg), origin, run, w) && Enabled(cfg, w, Act(c, a))
      requires store.jobs == Effect(w, Place(), a).jobs && store.agents == w.agents && store.clock == w.clock
      requires Counted(a, start)
      modifies this`run, this`w
      ensures Agrees() && Place() == NextPlace(old(w), old(Place()), a) && run == old(run) + [Act(c, a)]
      ensures Advanced(c, start, Seen(), if EndsTick(Act(c, a), c) then 1 else 0)
    {
      assert Troubled(Act(c, a), c) ==> Shows(Act(c, a), c, StoreError);
      Took(a);
    }

    // Statements, each one step of controller c ------------------------------------------------

    // TransitionJob from pending to dispatched.
    method Claim(job: JobId, agent: AgentId) returns (ok: bool, error: bool)
      requires Agrees() && At(Place(), Offer) && Current(Place()) == job
      requires Place().agents != [] && agent == Choose(Place().agents).id
      modifies this`run, this`w, store
      ensures Agrees() && Advanced(c, old(Seen()), Seen(), 0)
      ensures store.errors == old(store.errors) + if error then 1 else 0
      ensures !error ==> Tried(cfg, origin, old(run), run, c, job, agent)
      ensures Place() == if error then MoveTo(old(Place()), Failing)
                         else if ok then MoveTo(old(Place()), Claimed)
                         else NextJob(old(Place()))
    {
      ghost var start := Seen();
      ghost var applied;
      ok, error, applied := store.TransitionJob(job, Pending, Dispatched, Some(agent), "");
      if !error {
        TriedNow(cfg, origin, run, w, c, job, agent);
      }
      Did(if error then ClaimFails(applied) else TryClaim, start);
    }

    // The Dispatch call and its reply.
    method Dispatch() returns (err: bool)
      requires Agrees() && At(Place(), Claimed) && Place().agents != []
      modifies this`run, this`w, store, outside
      ensures store.errors == old(store.errors) && outside.unbuilt == old(outside.unbuilt)
      ensures outside.refused == old(outside.refused) + if err then 1 else 0
      ensures Agrees() && Advanced(c, old(Seen()), Seen(), 0)
      ensures Place() == if err then MoveTo(old(Place()), Rejected) else NextJob(old(Place()))
    {
      Call();
      err := AwaitReply();
    }

    method Call()
      requires Agrees() && At(Place(), Claimed) && Place().agents != []
      modifies this`run, this`w, store
      ensures Agrees() && Advanced(c, old(Seen()), Seen(), 0)
      ensures Place() == MoveTo(old(Place()), Sent) && store.errors == old(store.errors)
    {
      Yield();
      MakeCall();
    }

    ghost method MakeCall()
      requires Agrees() && At(Place(), Claimed) && Place().agents != []
      modifies this`run, this`w
      ensures Agrees() && Place() == MoveTo(old(Place()), Sent) && Advanced(c, old(Seen()), Seen(), 0)
    {
      TookInBatch(CallAgent, Sent, Seen());
    }

    // A step inside a batch that touches no table.
    ghost method TookInBatch(a: Action, at: Point, start: Meter)
      requires Agrees() && Place().Working? && Enabled(cfg, w, Act(c, a)) && Counted(a, start)
      requires (a.NoAgent? && at == Failing) || (a.PayloadFails? && at == Failing) || (a.CallAgent? && at == Sent)
      modifies this`run, this`w
      ensures Agrees() && Place() == MoveTo(old(Place()), at) && Advanced(c, start, Seen(), 0)
    {
      Did(a, start);
    }

    method AwaitReply() returns (err: bool)
      requires Agrees() && At(Place(), Sent)
      modifies this`run, this`w, store, outside
      ensures store.errors == old(store.errors) && outside.unbuilt == old(outside.unbuilt)
      ensures outside.refused == old(outside.refused) + if err then 1 else 0
      ensures Agrees() && Advanced(c, old(Seen()), Seen(), 0)
      ensures Place() == if err then MoveTo(old(Place()), Rejected) else NextJob(old(Place()))
    {
      Yield();
      err := GetReply();
    }

    method GetReply() returns (err: bool)
      requires Agrees() && At(Place(), Sent)
      modifies this`run, this`w, store, outside
      ensures store.errors == old(store.errors) && outside.unbuilt == old(outside.unbuilt)
      ensures outside.refused == old(outside.refused) + if err then 1 else 0
      ensures Agrees() && Advanced(c, old(Seen()), Seen(), 0)
      ensures Place() == if err then MoveTo(old(Place()), Rejected) else NextJob(old(Place()))
    {
      ghost var start := Seen();
      err := outside.Reply();
      Did(Reply(!err), start);
    }

    // TransitionJob from dispatched to failed.
    method Revert(job: JobId, reason: string) returns (error: bool)
      requires Agrees() && At(Place(), Rejected) && Current(Place()) == job && reason == AGENT_ERROR
      modifies this`run, this`w, store
      ensures Agrees() && Advanced(c, old(Seen()), Seen(), 0)
      ensures store.errors == old(store.errors) + if error then 1 else 0
      ensures Place() == if error then MoveTo(old(Place()), Failing) else NextJob(old(Place()))
    {
      ghost var start := Seen();
      var ok;
      ghost var applied;
      ok, error, applied := store.TransitionJob(job, Dispatched, Failed, None, reason);
      Did(Action.Revert(applied, error), start);
    }

    // TransitionJob from pending to failed.
    method FailPending(job: JobId, reason: string) returns (error: bool)
      requires Agrees() && At(Place(), Failing) && Current(Place()) == job && reason == DISPATCH_ERROR
      modifies this`run, this`w, store
      ensures Agrees() && Advanced(c, old(Seen()), Seen(), 0)
      ensures store.errors == old(store.errors) + if error then 1 else 0
      ensures Place() == if error then Unclean(NextJob(old(Place()))) else NextJob(old(Place()))
    {
      ghost var start := Seen();
      var ok;
      ghost var applied;
      ok, error, applied := store.TransitionJob(job, Pending, Failed, None, reason);
      Did(Action.FailPending(applied, error), start);
    }

    // GetPendingJobs, after an arbitrary delay; `read` is the state it was answered from.
    method ReadPending() returns (pending: Option<seq<Job>>, ghost skipped: set<JobId>, ghost read: State)
      requires Agrees() && Place().Idle?
      modifies this`run, this`w, store
      ensures Agrees() && Advanced(c, old(Seen()), Seen(), 0) && Passed(Next(cfg), origin, old(run), run, read)
      ensures store.errors == old(store.errors) + if pending.None? then 1 else 0
      ensures pending.Some? ==> PendingBatch(read.jobs, pending.value, skipped) && w.jobs == read.jobs
      ensures Place() == if pending.Some? && pending.value != [] then Fetched(pending.value, skipped)
                         else Sweep(Dispatched)
    {
      ghost var start := run;
      Yield();
      read := w;
      ghost var mid := run;
      PassedNow(Next(cfg), origin, start, mid, read);
      pending, skipped := QueryPending();
      PassedLater(Next(cfg), origin, start, mid, run, read);
    }

    method QueryPending() returns (pending: Option<seq<Job>>, ghost skipped: set<JobId>)
      requires Agrees() && Place().Idle?
      modifies this`run, this`w, store
      ensures Agrees() && Advanced(c, old(Seen()), Seen(), 0) && w.jobs == old(w).jobs
      ensures store.errors == old(store.errors) + if pending.None? then 1 else 0
      ensures pending.Some? ==> PendingBatch(w.jobs, pending.value, skipped)
      ensures Place() == if pending.Some? && pending.value != [] then Fetched(pending.value, skipped)
                         else Sweep(Dispatched)
    {
      ghost var start := Seen();
      RunIds(cfg, origin, run, w);
      pending, skipped := store.GetPendingJobs();
      Did(if pending.None? then ReadPendingFails else Action.ReadPending(pending.value, skipped), start);
    }

    method ReadAgents() returns (available: Option<seq<Agent>>)
      requires Agrees() && Place().Fetched?
      modifies this`run, this`w, store
      ensures Agrees() && Advanced(c, old(Seen()), Seen(), 0)
      ensures store.errors == old(store.errors) + if available.None? then 1 else 0
      ensures available.Some? ==>
                AvailableList(old(w).jobs, old(w).agents, cfg.heartbeatTTL, old(w).clock, available.value)
      ensures Place() == if available.None? then Sweep(Dispatched)
                         else Working(old(Place()).batch, old(Place()).skipped, available.value, 0, Offer, true)
    {
      ghost var start := Seen();
      available := store.GetAvailableAgents(cfg.heartbeatTTL);
      Did(if available.None? then ReadAgentsFails else Action.ReadAgents(available.value), start);
    }

    // GetStuckDispatchedJobs or GetStuckRunningJobs, after an arbitrary delay; `read` is the state
    // it was answered from.
    method ReadStuck(status: JobStatus, timeout: int)
      returns (stuck: Option<seq<JobId>>, ghost skipped: set<JobId>, ghost read: State)
      requires Agrees() && Place() == Sweep(status) && timeout == Timeout(cfg, status)
      modifies this`run, this`w, store
      ensures Agrees() && Passed(Next(cfg), origin, old(run), run, read)
      ensures Advanced(c, old(Seen()), Seen(), if stuck.None? && status == Running then 1 else 0)
      ensures store.errors == old(store.errors) + if stuck.None? then 1 else 0
      ensures stuck.Some? ==> StuckList(read.jobs, status, timeout, read.clock, stuck.value, skipped)
      ensures Place() == if stuck.Some? then Timing(status, stuck.value, 0, true) else AfterSweep(status)
      ensures store.stuckSkips == old(store.stuckSkips) + |skipped|
    {
      ghost var start := run;
      Yield();
      read := w;
      ghost var mid := run;
      PassedNow(Next(cfg), origin, start, mid, read);
      stuck, skipped := QueryStuck(status, timeout);
      PassedLater(Next(cfg), origin, start, mid, run, read);
    }

    method QueryStuck(status: JobStatus, timeout: int) returns (stuck: Option<seq<JobId>>, ghost skipped: set<JobId>)
      requires Agrees() && Place() == Sweep(status) && timeout == Timeout(cfg, status)
      modifies this`run, this`w, store
      ensures Agrees() && Advanced(c, old(Seen()), Seen(), if stuck.None? && status == Running then 1 else 0)
      ensures store.errors == old(store.errors) + if stuck.None? then 1 else 0
      ensures stuck.Some? ==> StuckList(old(w).jobs, status, timeout, old(w).clock, stuck.value, skipped)
      ensures Place() == if stuck.Some? then Timing(status, stuck.value, 0, true) else AfterSweep(status)
      ensures store.stuckSkips == old(store.stuckSkips) + |skipped|
    {
      ghost var start := Seen();
      stuck, skipped := store.GetStuckJobs(status, timeout);
      Did(if stuck.None? then ReadStuckFails(status) else Action.ReadStuck(stuck.value, skipped), start);
    }

    // TransitionJob from a stuck status to failed.
    method FailOneStuck(job: JobId, status: JobStatus, reason: string) returns (ok: bool, error: bool)
      requires Agrees() && reason == StuckReason(status)
      requires Place().Timing? && Place().status == status
      requires Place().done < |Place().stuck| && Place().stuck[Place().done] == job
      modifies this`run, this`w, store
      ensures Agrees() && Advanced(c, old(Seen()), Seen(), 0)
      ensures store.errors == old(store.errors) + if error then 1 else 0
      ensures Place() == old(Place()).(done := old(Place()).done + 1, clear := old(Place()).clear && !error)
      ensures store.stuckSkips == old(store.stuckSkips)
    {
      ghost var start := Seen();
      ghost var applied;
      ok, error, applied := store.TransitionJob(job, status, Failed, None, reason);
      Did(FailStuck(applied, error), start);
    }

    // The functions of the source ------------------------------------------------------------

    // dispatchOne, for job `next` of the batch. It fails only without an agent, or when the payload
    // could not be built or the store reported an error; otherwise the job has been tried.
    method DispatchOne(job: Job, agents: seq<Agent>) returns (err: bool)
      requires Agrees() && At(Place(), Offer) && Place().agents == agents && Current(Place()) == job.id
      modifies this`run, this`w, store, outside
      ensures Agrees() && Advanced(c, old(Seen()), Seen(), 0)
      ensures err ==> agents == [] || outside.unbuilt > old(outside.unbuilt) || store.errors > old(store.errors)
      ensures !err ==> agents != [] && Tried(cfg, origin, old(run), run, c, job.id, Choose(agents).id)
      ensures Place() == if err then MoveTo(old(Place()), Failing) else NextJob(old(Place()))
    {
      ghost var start := Seen();
      var agent := Select(agents);
      if agent.None? {
        TookInBatch(NoAgent, Failing, start);
        return true;
      }
      err := outside.BuildPayload();
      if err {
        TookInBatch(PayloadFails, Failing, start);
        return true;
      }
      err := ClaimAndSend(job, agent.value.id);
    }

    // dispatchOne from the claim on.
    method ClaimAndSend(job: Job, agent: AgentId) returns (err: bool)
      requires Agrees() && At(Place(), Offer) && Current(Place()) == job.id
      requires Place().agents != [] && agent == Choose(Place().agents).id
      modifies this`run, this`w, store, outside
      ensures Agrees() && Advanced(c, old(Seen()), Seen(), 0) && outside.unbuilt == old(outside.unbuilt)
      ensures err ==> store.errors > old(store.errors)
      ensures !err ==> Tried(cfg, origin, old(run), run, c, job.id, agent)
      ensures Place() == if err then MoveTo(old(Place()), Failing) else NextJob(old(Place()))
    {
      ghost var start := run;
      var ok;
      ok, err := ClaimSometime(job.id, agent);
      if err || !ok {
        return err;
      }
      ghost var tried := run;
      err := Send(job);
      TriedLater(cfg, origin, start, start, tried, run, c, job.id, agent);
    }

    // The claim, after an arbitrary delay.
    method ClaimSometime(job: JobId, agent: AgentId) returns (ok: bool, error: bool)
      requires Agrees() && At(Place(), Offer) && Current(Place()) == job
      requires Place().agents != [] && agent == Choose(Place().agents).id
      modifies this`run, this`w, store
      ensures Agrees() && Advanced(c, old(Seen()), Seen(), 0)
      ensures store.errors == old(store.errors) + if error then 1 else 0
      ensures !error ==> Tried(cfg, origin, old(run), run, c, job, agent)
      ensures Place() == if error then MoveTo(old(Place()), Failing)
                         else if ok then MoveTo(old(Place()), Claimed)
                         else NextJob(old(Place()))
    {
      ghost var start := run;
      Yield();
      ghost var mid := run;
      ok, error := Claim(job, agent);
      if !error {
        TriedLater(cfg, origin, start, mid, run, run, c, job, agent);
      }
    }

    // dispatchOne once the claim is made.
    method Send(job: Job) returns (err: bool)
      requires Agrees() && At(Place(), Claimed) && Place().agents != [] && Current(Place()) == job.id
      modifies this`run, this`w, store, outside
      ensures Agrees() && Advanced(c, old(Seen()), Seen(), 0) && outside.unbuilt == old(outside.unbuilt)
      ensures err ==> outside.refused > old(outside.refused) && store.errors > old(store.errors)
      ensures Place() == if err then MoveTo(old(Place()), Failing) else NextJob(old(Place()))
    {
      err := Dispatch();
      if err {
        Yield();
        err := Revert(job.id, AGENT_ERROR);
      }
    }

    // The loop of dispatchPending. If the store reports no error, no job of the batch is pending
    // afterwards; if also every payload could be built and there is an agent, every job has been
    // tried for it.
    method DispatchBatch(jobs: seq<Job>, agents: seq<Agent>)
      requires Agrees() && Place().Working? && Place() == Working(jobs, Place().skipped, agents, 0, Offer, true)
      modifies this`run, this`w, store, outside
      ensures Agrees() && Place() == Sweep(Dispatched) && Advanced(c, old(Seen()), Seen(), 0)
      ensures store.errors == old(store.errors) ==> NonePending(w.jobs, jobs)
      ensures agents != [] && store.errors == old(store.errors) && outside.unbuilt == old(outside.unbuilt) ==>
                AllTried(cfg, origin, old(run), run, c, jobs, |jobs|, Choose(agents).id)
    {
      DispatchAll(jobs, agents);
      ghost var tried := run;
      EndOfBatch();
      AllTriedAfter(cfg, origin, old(run), tried, run, c, jobs, agents);
    }

    method DispatchAll(jobs: seq<Job>, agents: seq<Agent>)
      requires Agrees() && Place().Working? && Place() == Working(jobs, Place().skipped, agents, 0, Offer, true)
      modifies this`run, this`w, store, outside
      ensures Agrees() && Advanced(c, old(Seen()), Seen(), 0)
      ensures Place().Working? && Place().batch == jobs && Place().next == |jobs|
      ensures store.errors == old(store.errors) ==> Place().clean
      ensures agents != [] && store.errors == old(store.errors) && outside.unbuilt == old(outside.unbuilt) ==>
                AllTried(cfg, origin, old(run), run, c, jobs, |jobs|, Choose(agents).id)
    {
      ghost var skipped, clean, calm := Place().skipped, true, true;
      for i := 0 to |jobs|
        invariant Agrees() && Advanced(c, old(Seen()), Seen(), 0)
        invariant Place() == Working(jobs, skipped, agents, i, Offer, clean)
        invariant store.errors == old(store.errors) ==> clean
        invariant store.errors == old(store.errors) && outside.unbuilt == old(outside.unbuilt) ==> calm
        invariant calm && agents != [] ==> AllTried(cfg, origin, old(run), run, c, jobs, i, Choose(agents).id)
      {
        ghost var errors, unbuilt := store.errors, outside.unbuilt;
        var error := NextOf(jobs, i, agents, old(run));
        clean := clean && !error;
        calm := calm && store.errors == errors && outside.unbuilt == unbuilt;
      }
    }

    // One job of the loop, after those before it.
    method NextOf(jobs: seq<Job>, i: nat, agents: seq<Agent>, ghost start: seq<Step>) returns (error: bool)
      requires i < |jobs| && start <= run
      requires Agrees() && At(Place(), Offer) && Place().agents == agents && Current(Place()) == jobs[i].id
      modifies this`run, this`w, store, outside
      ensures Agrees() && Advanced(c, old(Seen()), Seen(), 0)
      ensures error ==> store.errors > old(store.errors)
      ensures Place() == if error then Unclean(NextJob(old(Place()))) else NextJob(old(Place()))
      ensures agents != [] && store.errors == old(store.errors) && outside.unbuilt == old(outside.unbuilt)
              && AllTried(cfg, origin, start, old(run), c, jobs, i, Choose(agents).id) ==>
                AllTried(cfg, origin, start, run, c, jobs, i + 1, Choose(agents).id)
    {
      ghost var before, errors, unbuilt := run, store.errors, outside.unbuilt;
      error := DispatchNext(jobs[i], agents);
      if agents != [] && store.errors == errors && outside.unbuilt == unbuilt {
        TriedLater(cfg, origin, start, before, run, run, c, jobs[i].id, Choose(agents).id);
        if AllTried(cfg, origin, start, before, c, jobs, i, Choose(agents).id) {
          AllTriedLater(cfg, origin, start, before, run, c, jobs, i, Choose(agents).id);
        }
      }
    }

    // The body of the loop; error is that of the write to failed.
    method DispatchNext(job: Job, agents: seq<Agent>) returns (error: bool)
      requires Agrees() && At(Place(), Offer) && Place().agents == agents && Current(Place()) == job.id
      modifies this`run, this`w, store, outside
      ensures Agrees() && Advanced(c, old(Seen()), Seen(), 0)
      ensures error ==> store.errors > old(store.errors)
      ensures agents != [] && store.errors == old(store.errors) && outside.unbuilt == old(outside.unbuilt) ==>
                Tried(cfg, origin, old(run), run, c, job.id, Choose(agents).id)
      ensures Place() == if error then Unclean(NextJob(old(Place()))) else NextJob(old(Place()))
    {
      var err := DispatchOne(job, agents);
      error := false;
      if err {
        Yield();
        error := FailPending(job.id, DISPATCH_ERROR);
      }
    }

    ghost method EndOfBatch()
      requires Agrees() && Place().Working? && Place().next == |Place().batch|
      modifies this`run, this`w
      ensures Agrees() && Place() == Sweep(Dispatched) && Advanced(c, old(Seen()), Seen(), 0)
      ensures old(Place()).clean ==> NonePending(w.jobs, old(Place()).batch)
    {
      var start := Seen();
      if Place().clean {
        BatchDone(cfg, origin, run, w, c);
      }
      Did(EndBatch, start);
    }

    // dispatchPending. `batch` is what was read, from state `read`, while the rows in `skipped`
    // were locked, and `list` the agents, from state `shot`. If the store reports no error, no job of
    // the batch is pending afterwards; if also every payload could be built, every job of it has
    // been tried for the first agent of the list.
    method DispatchPending()
      returns (ghost batch: seq<Job>, ghost skipped: set<JobId>, ghost read: State, ghost list: seq<Agent>,
               ghost shot: State)
      requires Agrees() && Place().Idle?
      modifies this`run, this`w, store, outside
      ensures Agrees() && Place() == Sweep(Dispatched) && Advanced(c, old(Seen()), Seen(), 0)
      ensures Passed(Next(cfg), origin, old(run), run, read)
      ensures store.errors == old(store.errors) ==>
                PendingBatch(read.jobs, batch, skipped) && NonePending(w.jobs, batch)
      ensures store.errors == old(store.errors) && batch != [] ==>
                && Passed(Next(cfg), origin, old(run), run, shot)
                && AvailableList(shot.jobs, shot.agents, cfg.heartbeatTTL, shot.clock, list)
                && (list != [] && outside.unbuilt == old(outside.unbuilt) ==>
                      AllTried(cfg, origin, old(run), run, c, batch, |batch|, Choose(list).id))
    {
      ghost var start := run;
      batch, list, shot := [], [], w;
      var pending;
      pending, skipped, read := ReadPending();
      if pending.None? {
        return;
      }
      var jobs := pending.value;
      batch := jobs;
      if |jobs| == 0 {
        return;
      }
      ghost var mid := run;
      list, shot := OfferBatch(jobs, start);
      PassedLater(Next(cfg), origin, start, mid, run, read);
    }

    // dispatchPending from the agents query on.
    method OfferBatch(jobs: seq<Job>, ghost start: seq<Step>) returns (ghost list: seq<Agent>, ghost shot: State)
      requires Agrees() && Place().Fetched? && Place().batch == jobs && start <= run
      modifies this`run, this`w, store, outside
      ensures Agrees() && Place() == Sweep(Dispatched) && Advanced(c, old(Seen()), Seen(), 0)
      ensures Passed(Next(cfg), origin, start, run, shot)
      ensures store.errors == old(store.errors) ==>
                && NonePending(w.jobs, jobs)
                && AvailableList(shot.jobs, shot.agents, cfg.heartbeatTTL, shot.clock, list)
                && (list != [] && outside.unbuilt == old(outside.unbuilt) ==>
                      AllTried(cfg, origin, start, run, c, jobs, |jobs|, Choose(list).id))
    {
      Yield();
      shot := w;
      ghost var mid := run;
      PassedNow(Next(cfg), origin, start, mid, shot);
      var agents := ReadAgents();
      list := if agents.Some? then agents.value else [];
      if agents.Some? {
        ghost var before := run;
        DispatchBatch(jobs, agents.value);
        AllTriedSince(cfg, origin, start, before, run, c, jobs, list);
      }
      PassedLater(Next(cfg), origin, start, mid, run, shot);
    }

    // failStuckJobs. If the store reports no error, every row that was stuck when the list was
    // read, and was not locked then, has left the status for good; the store counts the others.
    method FailStuckJobs(status: JobStatus, timeout: int, reason: string)
      returns (ghost skipped: set<JobId>, ghost read: State)
      requires Agrees() && Place() == Sweep(status) && timeout == Timeout(cfg, status) && reason == StuckReason(status)
      modifies this`run, this`w, store
      ensures Agrees() && Place() == AfterSweep(status)
      ensures Advanced(c, old(Seen()), Seen(), if status == Running then 1 else 0)
      ensures Passed(Next(cfg), origin, old(run), run, read)
      ensures store.errors == old(store.errors) ==>
                forall id | IsStuck(read.jobs, id, status, timeout, read.clock) && id !in skipped :: Left(w, id, status)
      ensures store.stuckSkips == old(store.stuckSkips) + |skipped|
    {
      ghost var start := run;
      var stuck;
      stuck, skipped, read := ReadStuck(status, timeout);
      if stuck.None? {
        return;
      }
      ghost var mid := run;
      FailListed(stuck.value, status, reason);
      PassedLater(Next(cfg), origin, start, mid, run, read);
    }

    // The loop of failStuckJobs.
    method FailListed(jobs: seq<JobId>, status: JobStatus, reason: string)
      requires Agrees() && Place() == Timing(status, jobs, 0, true) && reason == StuckReason(status)
      modifies this`run, this`w, store
      ensures Agrees() && Place() == AfterSweep(status)
      ensures Advanced(c, old(Seen()), Seen(), if status == Running then 1 else 0)
      ensures store.errors == old(store.errors) ==> AllLeft(w, jobs, status)
      ensures store.stuckSkips == old(store.stuckSkips)
    {
      ghost var clear := true;
      for i := 0 to |jobs|
        invariant Agrees() && Advanced(c, old(Seen()), Seen(), 0)
        invariant Place() == Timing(status, jobs, i, clear) && store.stuckSkips == old(store.stuckSkips)
        invariant store.errors == old(store.errors) ==> clear
      {
        Yield();
        var ok, error := FailOneStuck(jobs[i], status, reason);
        clear := clear && !error;
        if error {
          continue;
        }
      }
      EndOfSweep(status);
    }

    // The end of a sweep, which for running jobs is the end of the tick.
    ghost method EndOfSweep(status: JobStatus)
      requires Agrees() && Place().Timing? && Place().status == status && Place().done == |Place().stuck|
      modifies this`run, this`w
      ensures Agrees() && Place() == AfterSweep(status)
      ensures Advanced(c, old(Seen()), Seen(), if status == Running then 1 else 0)
      ensures old(Place()).clear ==> AllLeft(w, old(Place()).stuck, status)
    {
      var pc, s, start := Place(), w, Seen();
      RunInv(cfg, origin, run, s);
      if pc.clear {
        SweepEnds(cfg, origin, run, s, c);
        LeftStays(cfg, s, Act(c, EndSweep(status)), pc.stuck, status);
      }
      Did(EndSweep(status), start);
    }

    // failStuck: the dispatched rows with their timeout, and then the running ones with theirs.
    method FailStuckAll()
      returns (ghost skipped: set<JobId>, ghost read: State, ghost skipped': set<JobId>, ghost read': State)
      requires Agrees() && Place() == Sweep(Dispatched)
      modifies this`run, this`w, store
      ensures Agrees() && Place().Idle? && Advanced(c, old(Seen()), Seen(), 1)
      ensures Passed(Next(cfg), origin, old(run), run, read) && Passed(Next(cfg), origin, old(run), run, read')
      ensures store.stuckSkips == old(store.stuckSkips) + |skipped| + |skipped'|
      ensures store.errors == old(store.errors) ==>
                && (forall id | IsStuck(read.jobs, id, Dispatched, cfg.dispatchTimeout, read.clock) && id !in skipped ::
                      Left(w, id, Dispatched))
                && (forall id | IsStuck(read'.jobs, id, Running, cfg.runningTimeout, read'.clock) && id !in skipped' ::
                      Left(w, id, Running))
    {
      ghost var start := run;
      skipped, read := FailStuckJobs(Dispatched, cfg.dispatchTimeout, DISPATCH_STUCK);
      ghost var mid, s := run, w;
      skipped', read' := FailStuckJobs(Running, cfg.runningTimeout, RUNNING_STUCK);
      PassedLater(Next(cfg), origin, start, mid, run, read);
      PassedBefore(Next(cfg), origin, start, mid, run, read');
      LeftForGood(cfg, origin, mid, s, run, w);
    }

    // tick. If the store reports no error, a full batch comes off the pending jobs; any others
    // arrived meanwhile or were locked.
    method Tick()
      requires Agrees() && Place().Idle?
      modifies this`run, this`w, store, outside
      ensures Agrees() && Place().Idle? && Advanced(c, old(Seen()), Seen(), 1)
      ensures store.errors == old(store.errors) ==>
                |PendingJobs(store.jobs)|
                <= Excess(|PendingJobs(old(store.jobs))|, BATCH_LIMIT)
                   + |Arrived(old(store.jobs), store.jobs)| + (store.skips - old(store.skips))
    {
      ghost var start, s := Seen(), w;
      ghost var batch, skipped, read, list, shot := DispatchPending();
      ghost var skipped', read', skipped'', read'' := FailStuckAll();
      if store.errors == start.errors {
        AdvancedDrains(cfg, c, origin, start, s, Seen(), w, 1);
      }
    }

    // Run, for n ticks.
    method Run(n: nat)
      requires Agrees() && Place().Idle?
      modifies this`run, this`w, store, outside
      ensures Agrees() && Place().Idle? && Advanced(c, old(Seen()), Seen(), n)
      ensures store.errors == old(store.errors) ==>
                |PendingJobs(store.jobs)|
                <= Excess(|PendingJobs(old(store.jobs))|, BATCH_LIMIT * n)
                   + |Arrived(old(store.jobs), store.jobs)| + (store.skips - old(store.skips))
    {
      ghost var start, s := Seen(), w;
      for i := 0 to n
        invariant Agrees() && Place().Idle? && Advanced(c, start, Seen(), i)
      {
        Tick();
      }
      if store.errors == start.errors {
        AdvancedDrains(cfg, c, origin, start, s, Seen(), w, n);
      }
    }
  }
}
