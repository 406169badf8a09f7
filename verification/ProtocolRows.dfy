/**
 What each write leaves in the row of a job, column by column, and what a row tells of the writes
 there have been.
 */
module ProtocolRows {
  import opened Wrappers
  import opened JobTypes
  import opened Jobs
  import opened Selector
  import opened Protocol
  import opened ProtocolInvariant
  import opened ProtocolTheorems
  import D = Database

  // One row is replaced, and nothing else in the table changes.
  predicate Only(before: JobTable, after: JobTable, id: JobId, row: Job) {
    id in before && after == before[id := row]
  }

  // The failing writes of a controller: the job, the status it must have, and the reason.
  predicate Fails(s: State, step: Step, job: JobId, from: JobStatus, reason: string) {
    && step.Act? && step.c < |s.controllers|
    && var pc := s.controllers[step.c];
       match step.action
       case Revert(applied, _) =>
         applied && At(pc, Rejected) && job == Current(pc) && from == Dispatched && reason == "agent dispatch error"
       case FailPending(applied, _) =>
         applied && At(pc, Failing) && job == Current(pc) && from == Pending && reason == "dispatch error"
       case FailStuck(applied, _) =>
         && applied && pc.Timing? && pc.done < |pc.stuck| && job == pc.stuck[pc.done] && from == pc.status
         && reason == (if from == Dispatched then "dispatch timeout: agent never reported running"
                       else "running timeout: agent stopped reporting")
       case _ => false
  }

  // A job that a controller fails gets the reason, ends now, and keeps its owner.
  lemma FailedRow(k: Config, s: State, step: Step, job: JobId, from: JobStatus, reason: string)
    requires Enabled(k, s, step) && Fails(s, step, job, from, reason) && Matches(s.jobs, job, from)
    ensures var was := s.jobs[job];
            Only(s.jobs, Apply(k, s, step).jobs, job,
                 Job(was.id, Failed, was.agentId, Some(reason), was.createdAt, s.clock, was.startedAt, Some(s.clock),
                     was.facts))
  {
    EffectFrame(s, s.controllers[step.c], step.action);
    assert |reason| > 0;
  }

  // One that has another status by now is left alone.
  lemma MissedRow(k: Config, s: State, step: Step, job: JobId, from: JobStatus, reason: string)
    requires Enabled(k, s, step) && Fails(s, step, job, from, reason) && !Matches(s.jobs, job, from)
    ensures Apply(k, s, step).jobs == s.jobs
  {
    EffectFrame(s, s.controllers[step.c], step.action);
  }

  // The claim of a controller: its job, for the agent that it chose.
  predicate ClaimsFor(s: State, step: Step, job: JobId, agent: AgentId) {
    && step.Act? && step.c < |s.controllers|
    && (step.action.TryClaim? || (step.action.ClaimFails? && step.action.applied))
    && var pc := s.controllers[step.c];
       At(pc, Offer) && pc.agents != [] && job == Current(pc) && agent == Choose(pc.agents).id
  }

  // A job that is claimed is dispatched, belongs to the agent, and has neither ended nor failed.
  lemma ClaimedRow(k: Config, s: State, step: Step, job: JobId, agent: AgentId)
    requires Inv(k, s) && Enabled(k, s, step) && ClaimsFor(s, step, job, agent) && Matches(s.jobs, job, Pending)
    ensures var was := s.jobs[job];
            Only(s.jobs, Apply(k, s, step).jobs, job,
                 Job(job, Dispatched, Some(agent), was.failureReason, was.createdAt, s.clock, None, None, was.facts))
    ensures Apply(k, s, step).hist.claimed == s.hist.claimed[job := Claim(agent, s.clock)]
  {
    EffectFrame(s, s.controllers[step.c], step.action);
    assert JobOk(s, job);
  }

  // The status write of a request.
  predicate Sets(s: State, step: Step, job: JobId, status: JobStatus, reason: Option<string>) {
    && step.Finish? && step.r in s.requests
    && match s.requests[step.r]
       case CancelRead(id) => id == job && status == Cancelled && reason == Some("cancelled by user")
       case ResultRead(id, _, result, _) => id == job && status == result && reason == None
       case _ => false
  }

  // A cancel or a result ends the job now, whatever it was; a cancel gives its reason, a result
  // leaves the one there is.
  lemma SetRow(k: Config, s: State, step: Step, job: JobId, status: JobStatus, reason: Option<string>)
    requires Inv(k, s) && Enabled(k, s, step) && Sets(s, step, job, status, reason)
    ensures job in s.jobs
    ensures var was := s.jobs[job];
            Only(s.jobs, Apply(k, s, step).jobs, job,
                 Job(was.id, status, was.agentId, if reason.Some? then reason else was.failureReason, was.createdAt,
                     s.clock, was.startedAt, Some(s.clock), was.facts))
  {
    assert ReqOk(s, s.requests[step.r]) && JobOk(s, job);
  }

  // The facts of a result change nothing else.
  lemma FactsRow(k: Config, s: State, r: nat, job: JobId, facts: Facts)
    requires Inv(k, s) && r in s.requests && s.requests[r] == FactsDue(job, facts)
    ensures job in s.jobs
    ensures Only(s.jobs, Apply(k, s, Finish(r)).jobs, job, s.jobs[job].(facts := facts, updatedAt := s.clock))
  {
    assert ReqOk(s, s.requests[r]);
  }

  // A new job.
  lemma NewRow(k: Config, s: State, job: JobId)
    requires Enabled(k, s, Create(job))
    ensures Apply(k, s, Create(job)).jobs
         == s.jobs[job := Job(job, Pending, None, None, s.clock, s.clock, None, None, map[])]
  {
  }

  // An agent is registered offline, and a heartbeat sets it online and the time; its capacity stays.
  lemma AgentRows(k: Config, s: State, a: AgentId, capacity: int)
    ensures Enabled(k, s, Register(a, capacity)) ==>
              Apply(k, s, Register(a, capacity)).agents == s.agents[a := AgentRow(capacity, false, None)]
    ensures a in s.agents ==>
              Apply(k, s, Heartbeat(a)).agents == s.agents[a := AgentRow(s.agents[a].capacity, true, Some(s.clock))]
  {
  }

  // The steps that may write a row.
  predicate Writes(step: Step) {
    match step
    case Create(_) => true
    case Finish(_) => true
    case Act(_, a) => a.TryClaim? || a.ClaimFails? || a.Revert? || a.FailPending? || a.FailStuck?
    case _ => false
  }

  lemma NoWrite(k: Config, s: State, step: Step)
    requires Enabled(k, s, step) && !Writes(step)
    ensures Apply(k, s, step).jobs == s.jobs
  {
    if step.Act? {
      EffectFrame(s, s.controllers[step.c], step.action);
    }
  }

  // Over whole runs ---------------------------------------------------------------------------

  // Step i is controller c's reading of this list of agents.
  predicate ReadsAt(steps: seq<Step>, i: nat, c: nat, list: seq<Agent>) {
    i < |steps| && steps[i] == Act(c, ReadAgents(list))
  }

  lemma PlaceStays(k: Config, s: State, step: Step, c: nat)
    requires Enabled(k, s, step)
    ensures var t := Apply(k, s, step);
            && |t.controllers| == |s.controllers|
            && (c < |s.controllers| && t.controllers[c].Working? ==>
                  || step == Act(c, ReadAgents(t.controllers[c].agents))
                  || (s.controllers[c].Working? && s.controllers[c].agents == t.controllers[c].agents))
  {
    if step.Act? {
      EffectFrame(s, s.controllers[step.c], step.action);
    }
  }

  // A controller offers a batch to the agents it has read last.
  lemma {:induction false} AgentsRead(k: Config, s: State, steps: seq<Step>, m: nat, c: nat) returns (i: nat)
    requires Init(s) && IsRun(k, s, steps) && m <= |steps| && c < |StateAt(k, s, steps, m).controllers|
    requires StateAt(k, s, steps, m).controllers[c].Working?
    ensures i < m && ReadsAt(steps, i, c, StateAt(k, s, steps, m).controllers[c].agents)
    decreases m
  {
    var n := m - 1;
    StateAtStep(k, s, steps, n);
    PlaceStays(k, StateAt(k, s, steps, n), steps[n], c);
    if ReadsAt(steps, n, c, StateAt(k, s, steps, m).controllers[c].agents) {
      i := n;
    } else {
      i := AgentsRead(k, s, steps, n, c);
    }
  }

  // In every run, the agent that a job is claimed for had been heard of within the TTL, was below
  // its capacity, and had no more jobs than any other such agent, when the controller asked.
  lemma ClaimedFresh(k: Config, s: State, steps: seq<Step>, m: nat, job: JobId, agent: AgentId) returns (i: nat)
    requires Init(s) && IsRun(k, s, steps) && m < |steps| && ClaimsFor(StateAt(k, s, steps, m), steps[m], job, agent)
    ensures i < m && steps[i].Act? && steps[i].c == steps[m].c && steps[i].action.ReadAgents?
    ensures var u := StateAt(k, s, steps, i);
            && agent in u.agents && u.agents[agent].online && u.agents[agent].lastHeartbeatAt.Some?
            && u.agents[agent].lastHeartbeatAt.value > u.clock - k.heartbeatTTL
            && |D.Assigned(u.jobs, agent)| < u.agents[agent].capacity
            && (forall a | D.Eligible(u.jobs, u.agents, k.heartbeatTTL, u.clock, a) ::
                  |D.Assigned(u.jobs, agent)| <= |D.Assigned(u.jobs, a)|)
  {
    var list := StateAt(k, s, steps, m).controllers[steps[m].c].agents;
    i := AgentsRead(k, s, steps, m, steps[m].c);
    StateAtStep(k, s, steps, i);
    var u := StateAt(k, s, steps, i);
    D.ListedAgents(u.jobs, u.agents, k.heartbeatTTL, u.clock, list);
    assert Choose(list) == list[BestIndex(list)];
    forall a | D.Eligible(u.jobs, u.agents, k.heartbeatTTL, u.clock, a)
      ensures |D.Assigned(u.jobs, agent)| <= |D.Assigned(u.jobs, a)|
    {
      var n :| 0 <= n < |list| && list[n].id == a;
      assert !Better(list[n], Choose(list));
    }
  }

  function LastAt(s: State, job: JobId): Option<Time> {
    if job in s.hist.last then Some(s.hist.last[job].at) else None
  }

  // A step either adds to a job's history, and is then the last write, or leaves both alone.
  predicate Records(s: State, t: State, job: JobId) {
    if Trail(t, job) == Trail(s, job) then LastAt(t, job) == LastAt(s, job)
    else LastAt(t, job) == Some(s.clock) && |Trail(t, job)| == |Trail(s, job)| + 1
  }

  lemma EffectRecords(s: State, pc: Controller, a: Action, job: JobId)
    ensures Records(s, Effect(s, pc, a), job)
  {
  }

  lemma StepRecords(k: Config, s: State, step: Step, job: JobId)
    requires Enabled(k, s, step)
    ensures Records(s, Apply(k, s, step), job)
  {
    match step
    case Act(c, a) => EffectRecords(s, s.controllers[c], a, job);
    case Finish(r) => WrittenRecords(s, s.requests[r], job);
    case _ =>
  }

  lemma WrittenRecords(s: State, req: Request, job: JobId)
    ensures Records(s, Written(s, req), job)
  {
    match req
    case CancelRead(id) => OverwriteRecords(s, id, Cancelled, Some(CANCEL_REASON), job);
    case ResultRead(id, _, result, _) => OverwriteRecords(s, id, result, None, job);
    case _ =>
  }

  lemma OverwriteRecords(s: State, id: JobId, status: JobStatus, reason: Option<string>, job: JobId)
    ensures Records(s, Overwrite(s, id, status, reason), job)
  {
  }

  lemma {:induction false} LastKept(k: Config, s: State, steps: seq<Step>, i: nat, m: nat, job: JobId)
    requires IsRun(k, s, steps) && i <= m <= |steps|
    ensures |Trail(StateAt(k, s, steps, i), job)| <= |Trail(StateAt(k, s, steps, m), job)|
    ensures |Trail(StateAt(k, s, steps, i), job)| == |Trail(StateAt(k, s, steps, m), job)| ==>
              LastAt(StateAt(k, s, steps, m), job) == LastAt(StateAt(k, s, steps, i), job)
    decreases m
  {
    if i < m {
      LastKept(k, s, steps, i, m - 1, job);
      StateAtStep(k, s, steps, m - 1);
      StepRecords(k, StateAt(k, s, steps, m - 1), steps[m - 1], job);
    }
  }

  // Step i writes a status to the row.
  ghost predicate WritesStatusAt(k: Config, s: State, steps: seq<Step>, i: nat, job: JobId)
    requires IsRun(k, s, steps)
  {
    i < |steps| && Trail(StateAt(k, s, steps, i + 1), job) != Trail(StateAt(k, s, steps, i), job)
  }

  // The last status write before m, for a job that exists then.
  lemma {:induction false} LastWriteOf(k: Config, s: State, steps: seq<Step>, m: nat, job: JobId) returns (i: nat)
    requires Init(s) && IsRun(k, s, steps) && m <= |steps| && job in StateAt(k, s, steps, m).jobs
    ensures i < m && WritesStatusAt(k, s, steps, i, job)
    ensures |Trail(StateAt(k, s, steps, m), job)| == |Trail(StateAt(k, s, steps, i + 1), job)|
    decreases m
  {
    Later(k, s, steps, m, m, job);
    i := m - 1;
    if !WritesStatusAt(k, s, steps, i, job) {
      StateAtStep(k, s, steps, m - 1);
      Later(k, s, steps, m - 1, m - 1, job);
      i := LastWriteOf(k, s, steps, m - 1, job);
    }
  }

  // In every run, a job that has ended did so at the time of the last status write to it.
  lemma EndedAtLastWrite(k: Config, s: State, steps: seq<Step>, m: nat, job: JobId) returns (i: nat)
    requires Init(s) && IsRun(k, s, steps) && m <= |steps| && job in StateAt(k, s, steps, m).jobs
    requires IsTerminal(StateAt(k, s, steps, m).jobs[job].status)
    ensures i < m && WritesStatusAt(k, s, steps, i, job)
    ensures forall n | i < n < m :: !WritesStatusAt(k, s, steps, n, job)
    ensures StateAt(k, s, steps, m).jobs[job].endedAt == Some(StateAt(k, s, steps, i).clock)
  {
    i := LastWriteOf(k, s, steps, m, job);
    EndedWhenWritten(k, s, steps, i, m, job);
    forall n | i < n < m
      ensures !WritesStatusAt(k, s, steps, n, job)
    {
      NoLaterWrite(k, s, steps, i + 1, n, m, job);
    }
  }

  lemma NoLaterWrite(k: Config, s: State, steps: seq<Step>, i: nat, n: nat, m: nat, job: JobId)
    requires IsRun(k, s, steps) && i <= n < m <= |steps|
    requires |Trail(StateAt(k, s, steps, m), job)| == |Trail(StateAt(k, s, steps, i), job)|
    ensures !WritesStatusAt(k, s, steps, n, job)
  {
    LastKept(k, s, steps, i, n, job);
    LastKept(k, s, steps, n + 1, m, job);
    StateAtStep(k, s, steps, n);
    StepRecords(k, StateAt(k, s, steps, n), steps[n], job);
  }

  lemma EndedWhenWritten(k: Config, s: State, steps: seq<Step>, i: nat, m: nat, job: JobId)
    requires Init(s) && IsRun(k, s, steps) && i < m <= |steps| && WritesStatusAt(k, s, steps, i, job)
    requires |Trail(StateAt(k, s, steps, m), job)| == |Trail(StateAt(k, s, steps, i + 1), job)|
    ensures var t := StateAt(k, s, steps, m);
            job in t.jobs
            && t.jobs[job].endedAt
            == if IsTerminal(t.jobs[job].status) then Some(StateAt(k, s, steps, i).clock) else None
  {
    StateAtStep(k, s, steps, i);
    StepRecords(k, StateAt(k, s, steps, i), steps[i], job);
    LastKept(k, s, steps, i + 1, m, job);
    Later(k, s, steps, i + 1, m, job);
  }

  // The reason in a row is the last one that any write to it gave.
  lemma ReasonIsLast(k: Config, s: State, steps: seq<Step>, m: nat, job: JobId)
    requires Init(s) && IsRun(k, s, steps) && m <= |steps| && job in StateAt(k, s, steps, m).jobs
    ensures var t := StateAt(k, s, steps, m);
            job in t.hist.last && t.jobs[job].failureReason == t.hist.last[job].reason
  {
    Later(k, s, steps, m, m, job);
  }
}
