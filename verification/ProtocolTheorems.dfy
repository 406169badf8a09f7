/**
 Safety over whole runs: any number of controllers, cancels, results, crashes and lost replies,
 in any order.
 */
module ProtocolTheorems {
  import opened Wrappers
  import opened JobTypes
  import opened Jobs
  import opened Selector
  import opened Protocol
  import opened ProtocolInvariant

  lemma {:induction false} StateAtOk(k: Config, s: State, steps: seq<Step>, i: nat)
    requires Init(s) && IsRun(k, s, steps) && i <= |steps|
    ensures Inv(k, StateAt(k, s, steps, i))
  {
    if i == 0 {
      InitOk(k, s);
    } else {
      StateAtOk(k, s, steps, i - 1);
      StateAtStep(k, s, steps, i - 1);
      StepKeeps(k, StateAt(k, s, steps, i - 1), steps[i - 1]);
    }
  }

  lemma {:induction false} RunEvolves(k: Config, s: State, steps: seq<Step>, i: nat, m: nat)
    requires Init(s) && IsRun(k, s, steps) && i <= m <= |steps|
    ensures Evolves(StateAt(k, s, steps, i), StateAt(k, s, steps, m))
    decreases m
  {
    if i == m {
      Unchanged(StateAt(k, s, steps, i));
    } else {
      RunEvolves(k, s, steps, i, m - 1);
      StateAtOk(k, s, steps, m - 1);
      StateAtStep(k, s, steps, m - 1);
      StepKeeps(k, StateAt(k, s, steps, m - 1), steps[m - 1]);
      EvolvesTransitive(StateAt(k, s, steps, i), StateAt(k, s, steps, m - 1), StateAt(k, s, steps, m));
    }
  }

  // One row at two moments of a run.
  lemma Later(k: Config, s: State, steps: seq<Step>, i: nat, m: nat, job: JobId)
    requires Init(s) && IsRun(k, s, steps) && i <= m <= |steps|
    ensures RowEvolves(StateAt(k, s, steps, i), StateAt(k, s, steps, m), job)
    ensures JobOk(StateAt(k, s, steps, i), job) && JobOk(StateAt(k, s, steps, m), job)
  {
    RunEvolves(k, s, steps, i, m);
    StateAtOk(k, s, steps, i);
    StateAtOk(k, s, steps, m);
  }

  // Step i is a Dispatch call for the job to the agent.
  ghost predicate SendsAt(k: Config, s: State, steps: seq<Step>, i: nat, job: JobId, agent: AgentId)
    requires IsRun(k, s, steps)
  {
    i < |steps| && steps[i].Act? && steps[i].action.CallAgent?
    && (StateAtStep(k, s, steps, i);
        var pc := StateAt(k, s, steps, i).controllers[steps[i].c];
        Current(pc) == job && Choose(pc.agents).id == agent)
  }

  // Step i moves the row from pending to dispatched.
  ghost predicate ClaimsAt(k: Config, s: State, steps: seq<Step>, i: nat, job: JobId)
    requires IsRun(k, s, steps)
  {
    i < |steps|
    && Matches(StateAt(k, s, steps, i).jobs, job, Pending)
    && Matches(StateAt(k, s, steps, i + 1).jobs, job, Dispatched)
  }

  lemma {:induction false} SentStays(k: Config, s: State, steps: seq<Step>, i: nat, m: nat, pair: (JobId, AgentId))
    requires IsRun(k, s, steps) && i <= m <= |steps|
    ensures StateAt(k, s, steps, i).hist.sent[pair] <= StateAt(k, s, steps, m).hist.sent[pair]
    decreases m
  {
    if i < m {
      SentStays(k, s, steps, i, m - 1, pair);
      StateAtStep(k, s, steps, m - 1);
      SentGrows(k, StateAt(k, s, steps, m - 1), steps[m - 1], pair);
    }
  }

  lemma SentGrows(k: Config, s: State, step: Step, pair: (JobId, AgentId))
    requires Enabled(k, s, step)
    ensures s.hist.sent[pair] <= Apply(k, s, step).hist.sent[pair]
  {
    if step.Act? && !step.action.CallAgent? {
      EffectFrame(s, s.controllers[step.c], step.action);
    }
  }

  // A job is claimed at most once and sent at most once in any run, and it is sent to the agent
  // that its row names from then on.
  lemma AtMostOnce(k: Config, s: State, steps: seq<Step>, job: JobId, i: nat, m: nat)
    requires Init(s) && IsRun(k, s, steps)
    ensures ClaimsAt(k, s, steps, i, job) && ClaimsAt(k, s, steps, m, job) ==> i == m
    ensures forall a, b :: SendsAt(k, s, steps, i, job, a) && SendsAt(k, s, steps, m, job, b) ==> i == m
  {
    if ClaimsAt(k, s, steps, i, job) && ClaimsAt(k, s, steps, m, job) {
      if i < m {
        Later(k, s, steps, i + 1, m, job);
      } else if m < i {
        Later(k, s, steps, m + 1, i, job);
      }
    }
    forall a, b | SendsAt(k, s, steps, i, job, a) && SendsAt(k, s, steps, m, job, b)
      ensures i == m
    {
      if i < m {
        SendsOnce(k, s, steps, job, i, m, a, b);
      } else if m < i {
        SendsOnce(k, s, steps, job, m, i, b, a);
      }
    }
  }

  lemma SendsOnce(k: Config, s: State, steps: seq<Step>, job: JobId, i: nat, m: nat, a: AgentId, b: AgentId)
    requires Init(s) && IsRun(k, s, steps) && i < m
    requires SendsAt(k, s, steps, i, job, a)
    ensures !SendsAt(k, s, steps, m, job, b)
  {
    if SendsAt(k, s, steps, m, job, b) {
      SendOwner(k, s, steps, i, job, a);
      SendOwner(k, s, steps, m, job, b);
      StateAtStep(k, s, steps, i);
      SentStays(k, s, steps, i + 1, m, (job, a));
      Later(k, s, steps, i, m, job);
    }
  }

  // At a Dispatch call the claim has been recorded for that very agent and nothing was sent yet.
  lemma SendOwner(k: Config, s: State, steps: seq<Step>, i: nat, job: JobId, a: AgentId)
    requires Init(s) && IsRun(k, s, steps) && SendsAt(k, s, steps, i, job, a)
    ensures var t := StateAt(k, s, steps, i);
            && job in t.hist.claimed && t.hist.claimed[job].agent == a && t.hist.sent[(job, a)] == 0
            && job in t.jobs && t.jobs[job].agentId == Some(a)
  {
    StateAtStep(k, s, steps, i);
    StateAtOk(k, s, steps, i);
    var t := StateAt(k, s, steps, i);
    assert CtrlOk(k, t, t.controllers[steps[i].c]) && HoldsOk(t, t.controllers[steps[i].c]);
    assert JobOk(t, job);
  }

  // Step i commits a cancel while the row is still pending.
  ghost predicate CancelsPendingAt(k: Config, s: State, steps: seq<Step>, i: nat, job: JobId)
    requires IsRun(k, s, steps)
  {
    i < |steps| && steps[i].Finish?
    && steps[i].r in StateAt(k, s, steps, i).requests
    && StateAt(k, s, steps, i).requests[steps[i].r] == CancelRead(job)
    && Matches(StateAt(k, s, steps, i).jobs, job, Pending)
  }

  lemma CancelRecorded(k: Config, s: State, steps: seq<Step>, job: JobId, i: nat, m: nat)
    requires Init(s) && IsRun(k, s, steps) && CancelsPendingAt(k, s, steps, i, job) && i < m <= |steps|
    ensures var t := StateAt(k, s, steps, m);
            job in t.jobs && IsTerminal(t.jobs[job].status) && job !in t.hist.claimed
  {
    StateAtStep(k, s, steps, i);
    Later(k, s, steps, i + 1, m, job);
  }

  // Such a job is never sent to any agent, before or after, whatever any controller had read.
  lemma CancelledNeverSent(k: Config, s: State, steps: seq<Step>, job: JobId, i: nat)
    requires Init(s) && IsRun(k, s, steps) && CancelsPendingAt(k, s, steps, i, job)
    ensures forall m: nat, a :: !SendsAt(k, s, steps, m, job, a)
    ensures forall m | i < m <= |steps| ::
              job in StateAt(k, s, steps, m).jobs && IsTerminal(StateAt(k, s, steps, m).jobs[job].status)
  {
    forall m | i < m <= |steps|
      ensures job in StateAt(k, s, steps, m).jobs && IsTerminal(StateAt(k, s, steps, m).jobs[job].status)
    {
      CancelRecorded(k, s, steps, job, i, m);
    }
    forall m: nat, a
      ensures !SendsAt(k, s, steps, m, job, a)
    {
      if SendsAt(k, s, steps, m, job, a) {
        SendOwner(k, s, steps, m, job, a);
        var after := if m <= i then i + 1 else m;
        Later(k, s, steps, m, after, job);
        CancelRecorded(k, s, steps, job, i, after);
      }
    }
  }

  // The timeout ------------------------------------------------------------------------------

  // Step n is failStuckJobs failing a dispatched job.
  ghost predicate TimesOutAt(k: Config, s: State, steps: seq<Step>, n: nat, job: JobId)
    requires IsRun(k, s, steps)
  {
    n < |steps| && steps[n].Act? && steps[n].action.FailStuck? && steps[n].action.applied
    && Matches(StateAt(k, s, steps, n).jobs, job, Dispatched)
    && (StateAtStep(k, s, steps, n);
        var pc := StateAt(k, s, steps, n).controllers[steps[n].c];
        pc.status == Dispatched && pc.stuck[pc.done] == job)
  }

  // When the update lands, the row has been dispatched without interruption for longer than the
  // timeout, although the query that listed it was a separate, earlier step.
  lemma TimeoutSound(k: Config, s: State, steps: seq<Step>, job: JobId, n: nat, i: nat)
    requires Init(s) && IsRun(k, s, steps) && TimesOutAt(k, s, steps, n, job)
    requires i <= n && StateAt(k, s, steps, i).clock >= StateAt(k, s, steps, n).clock - k.dispatchTimeout
    ensures Matches(StateAt(k, s, steps, i).jobs, job, Dispatched)
    ensures job in StateAt(k, s, steps, n).hist.claimed
    ensures StateAt(k, s, steps, n).hist.claimed[job].at + k.dispatchTimeout < StateAt(k, s, steps, n).clock
  {
    var t, u := StateAt(k, s, steps, i), StateAt(k, s, steps, n);
    StateAtStep(k, s, steps, n);
    StateAtOk(k, s, steps, n);
    var pc := u.controllers[steps[n].c];
    assert CtrlOk(k, u, pc);
    assert pc.stuck[pc.done] in pc.stuck;
    assert TimedOut(k, u, Dispatched, job);
    ClaimedBefore(k, s, steps, i, n, job);
    StateAtOk(k, s, steps, i);
    RunEvolves(k, s, steps, i, n);
    assert JobOk(t, job) && RowEvolves(t, u, job) && JobOk(u, job);
  }

  // A claim stamped before the clock of state i was made before state i.
  lemma {:induction false} ClaimedBefore(k: Config, s: State, steps: seq<Step>, i: nat, n: nat, job: JobId)
    requires Init(s) && IsRun(k, s, steps) && i <= n <= |steps|
    requires job in StateAt(k, s, steps, n).hist.claimed
    requires StateAt(k, s, steps, n).hist.claimed[job].at < StateAt(k, s, steps, i).clock
    ensures job in StateAt(k, s, steps, i).hist.claimed
    decreases n
  {
    if i < n {
      var t := StateAt(k, s, steps, n - 1);
      StateAtStep(k, s, steps, n - 1);
      RunEvolves(k, s, steps, i, n - 1);
      StateAtOk(k, s, steps, n - 1);
      StepKeeps(k, t, steps[n - 1]);
      assert RowEvolves(t, StateAt(k, s, steps, n), job);
      if job in t.hist.claimed {
        ClaimedBefore(k, s, steps, i, n - 1, job);
      } else {
        ClaimStamp(k, t, steps[n - 1], job);
      }
    }
  }

  lemma ClaimStamp(k: Config, s: State, step: Step, job: JobId)
    requires Enabled(k, s, step) && job in Apply(k, s, step).hist.claimed && job !in s.hist.claimed
    ensures Apply(k, s, step).hist.claimed[job].at == s.clock
  {
    match step
    case Act(c, a) => EffectStamp(s, s.controllers[c], a, job);
    case _ =>
  }

  lemma EffectStamp(s: State, pc: Controller, a: Action, job: JobId)
    requires job !in s.hist.claimed
    ensures job in Effect(s, pc, a).hist.claimed ==> Effect(s, pc, a).hist.claimed[job].at == s.clock
  {
  }

  // One row over time ------------------------------------------------------------------------

  // The lifecycle only moves forward, the terminal set is never left, ended_at is set exactly in
  // it, and a row keeps its owner and its creation time.
  lemma Lifecycle(k: Config, s: State, steps: seq<Step>, i: nat, m: nat, job: JobId)
    requires Init(s) && IsRun(k, s, steps) && i <= m <= |steps| && job in StateAt(k, s, steps, i).jobs
    ensures var t, u := StateAt(k, s, steps, i), StateAt(k, s, steps, m);
            && job in u.jobs
            && Rank(t.jobs[job].status) <= Rank(u.jobs[job].status)
            && (IsTerminal(t.jobs[job].status) ==> IsTerminal(u.jobs[job].status))
            && (u.jobs[job].endedAt.Some? <==> IsTerminal(u.jobs[job].status))
            && (t.jobs[job].agentId.Some? ==> u.jobs[job].agentId == t.jobs[job].agentId)
            && u.jobs[job].createdAt == t.jobs[job].createdAt
  {
    Later(k, s, steps, i, m, job);
  }

  // The owner is set by the one claim that took effect and by nothing else.
  lemma OwnerIsClaimer(k: Config, s: State, steps: seq<Step>, m: nat, job: JobId)
    requires Init(s) && IsRun(k, s, steps) && m <= |steps| && job in StateAt(k, s, steps, m).jobs
    ensures var t := StateAt(k, s, steps, m);
            && (t.jobs[job].agentId.Some? <==> job in t.hist.claimed)
            && (job in t.hist.claimed ==> t.jobs[job].agentId == Some(t.hist.claimed[job].agent))
            && (t.jobs[job].status == Pending ==> t.jobs[job].agentId.None?)
            && (t.jobs[job].status == Dispatched ==> t.jobs[job].agentId.Some?)
  {
    Later(k, s, steps, m, m, job);
  }

  // Step i accepts a log batch or a result for the job from the agent.
  ghost predicate AcceptsAt(k: Config, s: State, steps: seq<Step>, i: nat, job: JobId, agent: AgentId)
    requires IsRun(k, s, steps)
  {
    i < |steps| && steps[i].Finish? && steps[i].r in StateAt(k, s, steps, i).requests
    && var req := StateAt(k, s, steps, i).requests[steps[i].r];
       (req.LogsRead? || req.ResultRead?) && req.job == job && req.agent == agent
  }

  // Although the ownership check and the write are separate steps, nothing is ever accepted
  // from an agent other than the one that claimed the job, and the job is sent to no other agent,
  // earlier or later.
  lemma AcceptedFromOwner(k: Config, s: State, steps: seq<Step>, i: nat, m: nat, job: JobId, agent: AgentId)
    requires Init(s) && IsRun(k, s, steps) && AcceptsAt(k, s, steps, i, job, agent) && i <= m <= |steps|
    ensures job in StateAt(k, s, steps, m).jobs && StateAt(k, s, steps, m).jobs[job].agentId == Some(agent)
    ensures forall n: nat, b :: SendsAt(k, s, steps, n, job, b) ==> b == agent
  {
    StateAtOk(k, s, steps, i);
    Later(k, s, steps, i, m, job);
    forall n: nat, b | SendsAt(k, s, steps, n, job, b)
      ensures b == agent
    {
      SendOwner(k, s, steps, n, job, b);
      if n < i {
        Later(k, s, steps, n, i, job);
      } else {
        Later(k, s, steps, i, n, job);
      }
    }
  }

  // No step sets status running, so started_at is never set either, and no running-timeout sweep
  // ever finds a job.
  lemma RunningNeverReached(k: Config, s: State, steps: seq<Step>, m: nat, stuck: seq<JobId>, skipped: set<JobId>)
    requires Init(s) && IsRun(k, s, steps) && m <= |steps|
    ensures forall job | job in StateAt(k, s, steps, m).jobs ::
              StateAt(k, s, steps, m).jobs[job].status != Running && StateAt(k, s, steps, m).jobs[job].startedAt.None?
    ensures var t := StateAt(k, s, steps, m);
            StuckList(t.jobs, Running, k.runningTimeout, t.clock, stuck, skipped) ==> stuck == []
  {
    var t := StateAt(k, s, steps, m);
    StateAtOk(k, s, steps, m);
    forall job | job in t.jobs
      ensures t.jobs[job].status != Running && t.jobs[job].startedAt.None?
    {
      assert JobOk(t, job);
    }
    assert stuck != [] && StuckList(t.jobs, Running, k.runningTimeout, t.clock, stuck, skipped) ==>
        stuck[0] in stuck && IsStuck(t.jobs, stuck[0], Running, k.runningTimeout, t.clock);
  }

  // Status histories against the documented table -------------------------------------------

  // The writes that the table does not allow: a cancel of a pending job, any write over a
  // terminal row, and every success (a success always comes from dispatched).
  predicate OffTable(s: State, step: Step, job: JobId) {
    step.Finish? && step.r in s.requests && job in s.jobs
    && var req := s.requests[step.r];
       req.job == job
       && ((req.CancelRead? && (s.jobs[job].status == Pending || IsTerminal(s.jobs[job].status)))
           || (req.ResultRead? && (req.result == Success || IsTerminal(s.jobs[job].status))))
  }

  function Trail(s: State, job: JobId): seq<JobStatus> {
    if job in s.hist.trail then s.hist.trail[job] else []
  }

  // The job's history grew by the row's new status.
  predicate Extended(s: State, t: State, job: JobId) {
    job in t.jobs && Trail(t, job) == Trail(s, job) + [t.jobs[job].status]
  }

  predicate FollowsTable(s: State, t: State, job: JobId) {
    job in s.jobs && Extended(s, t, job)
    && CanTransitionTo(s.jobs[job].status, t.jobs[job].status) && !t.jobs[job].status.Running?
  }

  lemma EffectHistory(k: Config, s: State, pc: Controller, a: Action, job: JobId)
    requires TablesOk(s) && CtrlOk(k, s, pc) && CanAct(k, s, pc, a)
    ensures var t := Effect(s, pc, a);
            Trail(t, job) == Trail(s, job) || FollowsTable(s, t, job)
  {
    match a
    case TryClaim => ClaimHistory(s, Current(pc), Choose(pc.agents).id, job);
    case ClaimFails(applied) => ClaimHistory(s, Current(pc), Choose(pc.agents).id, job);
    case Revert(_, _) => FailHistory(s, Current(pc), Dispatched, AGENT_ERROR, job);
    case FailPending(_, _) => FailHistory(s, Current(pc), Pending, DISPATCH_ERROR, job);
    case FailStuck(_, _) => FailHistory(s, pc.stuck[pc.done], pc.status, StuckReason(pc.status), job);
    case _ =>
  }

  lemma ClaimHistory(s: State, id: JobId, agent: AgentId, job: JobId)
    requires TablesOk(s)
    ensures var t := TakeClaim(s, id, agent);
            Trail(t, job) == Trail(s, job) || FollowsTable(s, t, job)
  {
    assert JobOk(s, id);
    TableRows(Pending, Dispatched);
  }

  lemma FailHistory(s: State, id: JobId, from: JobStatus, reason: string, job: JobId)
    requires TablesOk(s) && !IsTerminal(from)
    ensures var t := Fail(s, id, from, reason);
            Trail(t, job) == Trail(s, job) || FollowsTable(s, t, job)
  {
    assert JobOk(s, id);
    TableRows(from, Failed);
  }

  lemma FinishHistory(s: State, r: nat, job: JobId)
    requires TablesOk(s) && r in s.requests && ReqOk(s, s.requests[r])
    ensures var req, t := s.requests[r], Written(s, s.requests[r]);
            if req.job != job || req.FactsDue? || req.LogsRead? then Trail(t, job) == Trail(s, job)
            else job in s.jobs && Extended(s, t, job) && !t.jobs[job].status.Running?
                 && (CanTransitionTo(s.jobs[job].status, t.jobs[job].status) <==> !OffTable(s, Finish(r), job))
  {
    assert JobOk(s, s.requests[r].job);
    if job in s.jobs {
      TableRows(s.jobs[job].status, Cancelled);
      TableRows(s.jobs[job].status, if s.requests[r].ResultRead? then s.requests[r].result else Failed);
    }
  }

  // A history grows by at most one status. Unless the job is new, the growth follows the table
  // exactly when the step is not one of the writes above.
  predicate GrowsUnless(s: State, t: State, job: JobId, off: bool) {
    if Trail(t, job) == Trail(s, job) then !off
    else Extended(s, t, job) && !t.jobs[job].status.Running?
         && if job in s.jobs then CanTransitionTo(s.jobs[job].status, t.jobs[job].status) <==> !off
            else Trail(t, job) == [Pending] && !off
  }

  lemma HistoryStep(k: Config, s: State, step: Step, job: JobId)
    requires Inv(k, s) && Enabled(k, s, step)
    ensures GrowsUnless(s, Apply(k, s, step), job, OffTable(s, step, job))
  {
    if step.Act? {
      EffectHistory(k, s, s.controllers[step.c], step.action, job);
    } else if step.Finish? {
      assert ReqOk(s, s.requests[step.r]);
      FinishHistory(s, step.r, job);
    } else if step.Create? {
      assert JobOk(s, step.job);
    }
  }

  lemma ValidPathSnoc(path: seq<JobStatus>, next: JobStatus)
    requires path != []
    ensures ValidPath(path + [next]) <==> ValidPath(path) && CanTransitionTo(path[|path| - 1], next)
  {
    var longer := path + [next];
    if ValidPath(longer) {
      forall i | 0 < i < |path|
        ensures CanTransitionTo(path[i - 1], path[i])
      {
        assert CanTransitionTo(longer[i - 1], longer[i]);
      }
      assert CanTransitionTo(longer[|path| - 1], longer[|path|]);
    }
  }

  lemma TrailGrows(s: State, t: State, job: JobId, off: bool)
    requires JobOk(s, job) && GrowsUnless(s, t, job, off)
    ensures ValidPath(Trail(t, job)) <==> ValidPath(Trail(s, job)) && !off
    ensures Running !in Trail(s, job) ==> Running !in Trail(t, job)
  {
    if job in s.jobs && Trail(t, job) != Trail(s, job) {
      ValidPathSnoc(Trail(s, job), t.jobs[job].status);
    }
  }

  lemma HistoryGrows(k: Config, s: State, step: Step, job: JobId)
    requires Inv(k, s) && Enabled(k, s, step)
    ensures ValidPath(Trail(Apply(k, s, step), job)) <==> ValidPath(Trail(s, job)) && !OffTable(s, step, job)
    ensures Running !in Trail(s, job) ==> Running !in Trail(Apply(k, s, step), job)
  {
    HistoryStep(k, s, step, job);
    assert JobOk(s, job);
    TrailGrows(s, Apply(k, s, step), job, OffTable(s, step, job));
  }

  ghost predicate OffTableAt(k: Config, s: State, steps: seq<Step>, i: nat, job: JobId)
    requires IsRun(k, s, steps)
  {
    i < |steps| && OffTable(StateAt(k, s, steps, i), steps[i], job)
  }

  // A job's history follows the table exactly when no step of the run was one of the writes
  // that the table does not allow; it never shows running.
  lemma {:induction false} HistoryFollowsTable(k: Config, s: State, steps: seq<Step>, m: nat, job: JobId)
    requires Init(s) && IsRun(k, s, steps) && m <= |steps|
    ensures ValidPath(Trail(StateAt(k, s, steps, m), job)) <==> forall i | 0 <= i < m ::
        !OffTableAt(k, s, steps, i, job)
    ensures Running !in Trail(StateAt(k, s, steps, m), job)
    decreases m
  {
    if m > 0 {
      HistoryFollowsTable(k, s, steps, m - 1, job);
      StateAtStep(k, s, steps, m - 1);
      StateAtOk(k, s, steps, m - 1);
      HistoryGrows(k, StateAt(k, s, steps, m - 1), steps[m - 1], job);
      assert OffTableAt(k, s, steps, m - 1, job) <==> OffTable(StateAt(k, s, steps, m - 1), steps[m - 1], job);
    }
  }

  // While only controllers write, every job's history is a path in the table, with at most two
  // transitions.
  lemma ControllerHistory(k: Config, s: State, steps: seq<Step>, m: nat, job: JobId)
    requires Init(s) && IsRun(k, s, steps) && m <= |steps|
    requires forall i | 0 <= i < m :: !steps[i].Finish?
    ensures ValidPath(Trail(StateAt(k, s, steps, m), job)) && |Trail(StateAt(k, s, steps, m), job)| <= 3
  {
    HistoryFollowsTable(k, s, steps, m, job);
    var trail := Trail(StateAt(k, s, steps, m), job);
    if |trail| > 3 {
      TableSkipsNothing(trail);
    }
  }

  lemma TableSkipsNothing(path: seq<JobStatus>)
    requires ValidPath(path) && |path| > 3
    ensures Running in path
  {
    ValidPathShort(path);
    assert CanTransitionTo(path[0], path[1]) && CanTransitionTo(path[1], path[2]) && CanTransitionTo(path[2], path[3]);
    TableRows(path[0], path[1]);
    TableRows(path[1], path[2]);
    TableRows(path[2], path[3]);
    assert path[2] == Running;
  }

  // Every job that succeeds has left the table on the way.
  lemma SuccessLeavesTable(k: Config, s: State, steps: seq<Step>, m: nat, job: JobId)
    requires Init(s) && IsRun(k, s, steps) && m <= |steps|
    requires Matches(StateAt(k, s, steps, m).jobs, job, Success)
    ensures !ValidPath(Trail(StateAt(k, s, steps, m), job))
    ensures exists i :: 0 <= i < m && OffTableAt(k, s, steps, i, job)
  {
    HistoryFollowsTable(k, s, steps, m, job);
    Later(k, s, steps, m, m, job);
    var trail := Trail(StateAt(k, s, steps, m), job);
    var n := |trail| - 1;
    assert n > 0 && trail[n - 1] in trail;
    TableRows(trail[n - 1], trail[n]);
    assert !CanTransitionTo(trail[n - 1], trail[n]);
  }

  // A batch -----------------------------------------------------------------------------------

  // Whatever else happens meanwhile, a controller never tries to claim a job while a strictly
  // older one is pending that it has not already been through in this batch, unless that one was
  // locked by another statement when the batch was read.
  lemma OldestClaimedFirst(k: Config, s: State, steps: seq<Step>, i: nat, older: JobId)
    requires Init(s) && IsRun(k, s, steps) && i < |steps|
    requires steps[i].Act? && (steps[i].action.TryClaim? || steps[i].action.ClaimFails?)
    requires Matches(StateAt(k, s, steps, i).jobs, older, Pending)
    requires At(Actor(k, s, steps, i), Offer)
    requires StateAt(k, s, steps, i).jobs[older].createdAt
           < Actor(k, s, steps, i).batch[Actor(k, s, steps, i).next].createdAt
    ensures older in Actor(k, s, steps, i).skipped
         || exists n :: 0 <= n < Actor(k, s, steps, i).next && Actor(k, s, steps, i).batch[n].id == older
  {
    StateAtStep(k, s, steps, i);
    StateAtOk(k, s, steps, i);
    var t, pc := StateAt(k, s, steps, i), Actor(k, s, steps, i);
    assert CtrlOk(k, t, pc);
    if older !in pc.skipped {
      assert !Absent(pc.batch, older);
      var n :| 0 <= n < |pc.batch| && pc.batch[n].id == older;
      assert SameRow(t, pc.batch[n]);
    }
  }

  // The controller that takes step i, as it stands before the step.
  ghost function Actor(k: Config, s: State, steps: seq<Step>, i: nat): Controller
    requires IsRun(k, s, steps) && i < |steps|
  {
    var t := StateAt(k, s, steps, i);
    if steps[i].Act? && steps[i].c < |t.controllers| then t.controllers[steps[i].c] else Idle
  }

  // When a controller reaches the end of a batch and its own writes were not refused by the
  // store, no job of the batch is pending any more.
  lemma BatchDrained(k: Config, s: State, steps: seq<Step>, i: nat, c: nat, n: nat)
    requires Init(s) && IsRun(k, s, steps) && i <= |steps| && c < |StateAt(k, s, steps, i).controllers|
    requires var pc := StateAt(k, s, steps, i).controllers[c];
             pc.Working? && pc.clean && n < pc.next && n < |pc.batch|
    ensures var t := StateAt(k, s, steps, i);
            t.controllers[c].batch[n].id in t.jobs && t.jobs[t.controllers[c].batch[n].id].status != Pending
  {
    StateAtOk(k, s, steps, i);
    var t := StateAt(k, s, steps, i);
    assert CtrlOk(k, t, t.controllers[c]);
    assert SameRow(t, t.controllers[c].batch[n]);
  }

  // When a timeout sweep reaches its end and its own writes were not refused by the store, every
  // job it had listed has left the status for good.
  lemma SweepDone(k: Config, s: State, steps: seq<Step>, i: nat, c: nat, id: JobId)
    requires Init(s) && IsRun(k, s, steps) && i <= |steps| && c < |StateAt(k, s, steps, i).controllers|
    requires var pc := StateAt(k, s, steps, i).controllers[c];
             pc.Timing? && pc.clear && pc.done == |pc.stuck| && id in pc.stuck
    ensures forall m | i <= m <= |steps| ::
              Left(StateAt(k, s, steps, m), id, StateAt(k, s, steps, i).controllers[c].status)
  {
    var t := StateAt(k, s, steps, i);
    StateAtOk(k, s, steps, i);
    assert CtrlOk(k, t, t.controllers[c]);
    var n :| 0 <= n < |t.controllers[c].stuck| && t.controllers[c].stuck[n] == id;
    assert Left(t, id, t.controllers[c].status);
    forall m | i <= m <= |steps|
      ensures Left(StateAt(k, s, steps, m), id, t.controllers[c].status)
    {
      Later(k, s, steps, i, m, id);
    }
  }
}
