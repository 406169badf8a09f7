/** What every step of the protocol keeps. */
module ProtocolInvariant {
  import opened Wrappers
  import opened Runs
  import opened JobTypes
  import opened Jobs
  import opened Selector
  import opened Protocol

  predicate RowOk(row: Job, id: JobId, now: Time) {
    && row.id == id
    && row.status != Running && row.startedAt.None?
    && (IsTerminal(row.status) <==> row.endedAt.Some?)
    && row.createdAt <= row.updatedAt <= now
  }

  // ended_at is the time of the last status write if that ended the job, and failure_reason the
  // last one given.
  predicate LastOk(row: Job, last: Write) {
    row.endedAt == (if IsTerminal(row.status) then Some(last.at) else None) && row.failureReason == last.reason
  }

  // A row against its own history.
  predicate JobOk(s: State, id: JobId) {
    var h := s.hist;
    && (id in s.jobs ==> RowOk(s.jobs[id], id, s.clock))
    && h.claims[id] == (if id in h.claimed then 1 else 0)
    && (id in h.claimed ==>
          && id in s.jobs && s.jobs[id].agentId == Some(h.claimed[id].agent)
          && s.jobs[id].status != Pending && h.claimed[id].at <= s.jobs[id].updatedAt)
    && (id in s.jobs && id !in h.claimed ==> s.jobs[id].agentId.None? && s.jobs[id].status != Dispatched)
    && (id in h.cancelledPending ==> id in s.jobs && id !in h.claimed && IsTerminal(s.jobs[id].status))
    && (id in s.jobs <==> id in h.trail)
    && (id in s.jobs <==> id in h.last)
    && (id in s.jobs ==> LastOk(s.jobs[id], h.last[id]))
    && (id in s.jobs ==>
        h.trail[id] != [] && h.trail[id][0] == Pending && h.trail[id][|h.trail[id]| - 1] == s.jobs[id].status)
  }

  // Only the claiming agent is ever sent the job, at most once, or heard about it.
  predicate PairOk(s: State, id: JobId, a: AgentId) {
    && s.hist.sent[(id, a)] <= 1
    && (s.hist.sent[(id, a)] > 0 || (id, a) in s.hist.accepted ==>
        id in s.hist.claimed && s.hist.claimed[id].agent == a)
  }

  predicate SameRow(s: State, job: Job) {
    job.id in s.jobs && s.jobs[job.id].createdAt == job.createdAt
  }

  // Every pending job that the batch does not contain is at least as young as the whole batch,
  // except those that were locked when it was read.
  ghost predicate OldestFirst(s: State, batch: seq<Job>, skipped: set<JobId>) {
    forall id | id in s.jobs && s.jobs[id].status == Pending && Absent(batch, id) && id !in skipped ::
      forall i | 0 <= i < |batch| :: batch[i].createdAt <= s.jobs[id].createdAt
  }

  ghost predicate BatchOk(s: State, batch: seq<Job>, skipped: set<JobId>) {
    && |batch| <= BATCH_LIMIT
    && (forall i | 0 <= i < |batch| :: SameRow(s, batch[i]) && batch[i].createdAt <= s.clock)
    && (forall i, j | 0 <= i < j < |batch| :: batch[i].id != batch[j].id && batch[i].createdAt <= batch[j].createdAt)
    && OldestFirst(s, batch, skipped)
  }

  // The part of a controller's place that is about the job it holds.
  predicate HoldsOk(s: State, pc: Controller)
    requires pc.Working? && pc.next < |pc.batch|
  {
    pc.at == Claimed || pc.at == Sent || pc.at == Rejected ==>
      && pc.agents != []
      && Current(pc) in s.hist.claimed && s.hist.claimed[Current(pc)].agent == Choose(pc.agents).id
      && (pc.at == Claimed ==> s.hist.sent[(Current(pc), Choose(pc.agents).id)] == 0)
  }

  // A dispatched job on the timeout list was claimed longer ago than the timeout.
  predicate TimedOut(k: Config, s: State, status: JobStatus, id: JobId) {
    id in s.jobs
    && (status == Dispatched ==> id in s.hist.claimed && s.hist.claimed[id].at + k.dispatchTimeout < s.clock)
  }

  // The row has moved on from the status, for good.
  predicate Left(s: State, id: JobId, status: JobStatus) {
    id in s.jobs && Rank(s.jobs[id].status) > Rank(status)
  }

  ghost predicate CtrlOk(k: Config, s: State, pc: Controller) {
    match pc
    case Idle => true
    case Fetched(batch, skipped) => BatchOk(s, batch, skipped)
    case Working(batch, skipped, agents, next, at, clean) =>
      && BatchOk(s, batch, skipped) && next <= |batch|
      && (at != Offer ==> next < |batch|)
      && (next < |batch| ==> HoldsOk(s, pc))
      && (clean ==> forall i | 0 <= i < next :: s.jobs[batch[i].id].status != Pending)
    case Sweep(status) => status == Dispatched || status == Running
    case Timing(status, stuck, done, clear) =>
      && done <= |stuck| && (status == Dispatched || (status == Running && stuck == []))
      && (forall id | id in stuck :: TimedOut(k, s, status, id))
      && (clear ==> forall i | 0 <= i < done :: Left(s, stuck[i], status))
  }

  // No two controllers hold a claim on the same job.
  ghost predicate Exclusive(s: State) {
    forall c, d | 0 <= c < d < |s.controllers| && At(s.controllers[c], Claimed) && At(s.controllers[d], Claimed) ::
      Current(s.controllers[c]) != Current(s.controllers[d])
  }

  predicate ReqOk(s: State, req: Request) {
    match req
    case CancelRead(job) => job in s.jobs
    case ResultRead(job, agent, result, _) => job in s.hist.claimed && s.hist.claimed[job].agent == agent
      && IsTerminal(result)
    case LogsRead(job, agent) => job in s.hist.claimed && s.hist.claimed[job].agent == agent
    case FactsDue(job, _) => job in s.jobs && IsTerminal(s.jobs[job].status)
  }

  ghost predicate TablesOk(s: State) {
    && (forall id :: JobOk(s, id))
    && (forall id, a :: PairOk(s, id, a))
  }

  ghost predicate Inv(k: Config, s: State) {
    && TablesOk(s)
    && (forall c | 0 <= c < |s.controllers| :: CtrlOk(k, s, s.controllers[c]))
    && Exclusive(s)
    && (forall r | r in s.requests :: ReqOk(s, s.requests[r]))
  }

  // What a step does to one row, seen from outside ------------------------------------------

  predicate RowEvolves(s: State, t: State, id: JobId) {
    && (id in s.jobs ==>
          && id in t.jobs
          && t.jobs[id].createdAt == s.jobs[id].createdAt
          && Rank(s.jobs[id].status) <= Rank(t.jobs[id].status)
          && (s.jobs[id].agentId.Some? ==> t.jobs[id].agentId == s.jobs[id].agentId))
    && (id !in s.jobs && id in t.jobs ==> s.clock <= t.jobs[id].createdAt)
    && (id in s.hist.claimed ==> id in t.hist.claimed && t.hist.claimed[id] == s.hist.claimed[id])
    && (id in s.hist.cancelledPending ==> id in t.hist.cancelledPending)
  }

  ghost predicate Evolves(s: State, t: State) {
    s.clock <= t.clock && forall id :: RowEvolves(s, t, id)
  }

  lemma EvolvesTransitive(s: State, t: State, u: State)
    requires Evolves(s, t) && Evolves(t, u)
    ensures Evolves(s, u)
  {
    forall id
      ensures RowEvolves(s, u, id)
    {
      assert RowEvolves(s, t, id) && RowEvolves(t, u, id);
    }
  }

  lemma BatchKept(s: State, t: State, batch: seq<Job>, skipped: set<JobId>)
    requires BatchOk(s, batch, skipped) && Evolves(s, t)
    ensures BatchOk(t, batch, skipped)
  {
    forall i | 0 <= i < |batch|
      ensures SameRow(t, batch[i])
    {
      assert SameRow(s, batch[i]) && RowEvolves(s, t, batch[i].id);
    }
    forall id | id in t.jobs && t.jobs[id].status == Pending && Absent(batch, id) && id !in skipped
      ensures forall i | 0 <= i < |batch| :: batch[i].createdAt <= t.jobs[id].createdAt
    {
      assert RowEvolves(s, t, id);
    }
  }

  // A controller that does not move is not disturbed by the others.
  lemma CtrlKept(k: Config, s: State, t: State, pc: Controller)
    requires CtrlOk(k, s, pc) && Evolves(s, t)
    requires At(pc, Claimed) && pc.agents != [] ==>
               t.hist.sent[(Current(pc), Choose(pc.agents).id)] == s.hist.sent[(Current(pc), Choose(pc.agents).id)]
    ensures CtrlOk(k, t, pc)
  {
    match pc
    case Fetched(batch, skipped) => BatchKept(s, t, batch, skipped);
    case Working(batch, skipped, agents, next, at, clean) =>
      BatchKept(s, t, batch, skipped);
      if next < |batch| {
        assert RowEvolves(s, t, batch[next].id);
      }
      forall i | clean && 0 <= i < next
        ensures t.jobs[batch[i].id].status != Pending
      {
        assert SameRow(s, batch[i]) && RowEvolves(s, t, batch[i].id);
      }
    case Timing(status, stuck, done, clear) =>
      forall i | clear && 0 <= i < done
        ensures Left(t, stuck[i], status)
      {
        assert Left(s, stuck[i], status) && RowEvolves(s, t, stuck[i]);
      }
      forall id | id in stuck
        ensures TimedOut(k, t, status, id)
      {
        assert TimedOut(k, s, status, id) && RowEvolves(s, t, id);
      }
    case _ =>
  }

  lemma ReqKept(s: State, t: State, req: Request)
    requires ReqOk(s, req) && Evolves(s, t) && TablesOk(t)
    ensures ReqOk(t, req)
  {
    assert RowEvolves(s, t, req.job);
  }

  // The tables ------------------------------------------------------------------------------

  lemma FailKeeps(s: State, job: JobId, from: JobStatus, reason: string)
    requires TablesOk(s) && (from == Pending || from == Dispatched || from == Running) && reason != ""
    ensures TablesOk(Fail(s, job, from, reason)) && Evolves(s, Fail(s, job, from, reason))
  {
    var t := Fail(s, job, from, reason);
    assert JobOk(s, job);
    forall id
      ensures JobOk(t, id) && RowEvolves(s, t, id)
    {
      assert JobOk(s, id);
    }
    forall id, a
      ensures PairOk(t, id, a)
    {
      assert PairOk(s, id, a);
    }
  }

  lemma TakeClaimKeeps(s: State, job: JobId, agent: AgentId)
    requires TablesOk(s)
    ensures TablesOk(TakeClaim(s, job, agent)) && Evolves(s, TakeClaim(s, job, agent))
  {
    var t := TakeClaim(s, job, agent);
    assert JobOk(s, job);
    forall id
      ensures JobOk(t, id) && RowEvolves(s, t, id)
    {
      assert JobOk(s, id);
    }
    forall id, a
      ensures PairOk(t, id, a)
    {
      assert PairOk(s, id, a);
    }
  }

  lemma OverwriteKeeps(s: State, job: JobId, status: JobStatus, reason: Option<string>)
    requires TablesOk(s) && IsTerminal(status)
    ensures TablesOk(Overwrite(s, job, status, reason)) && Evolves(s, Overwrite(s, job, status, reason))
  {
    var t := Overwrite(s, job, status, reason);
    assert JobOk(s, job);
    forall id
      ensures JobOk(t, id) && RowEvolves(s, t, id)
    {
      assert JobOk(s, id);
    }
    forall id, a
      ensures PairOk(t, id, a)
    {
      assert PairOk(s, id, a);
    }
  }

  lemma InsertKeeps(s: State, job: JobId)
    requires TablesOk(s) && job !in s.jobs
    ensures TablesOk(Insert(s, job)) && Evolves(s, Insert(s, job))
  {
    var t := Insert(s, job);
    assert JobOk(s, job);
    forall id
      ensures JobOk(t, id) && RowEvolves(s, t, id)
    {
      assert JobOk(s, id);
    }
    forall id, a
      ensures PairOk(t, id, a)
    {
      assert PairOk(s, id, a);
    }
  }

  lemma StoreFactsKeeps(s: State, job: JobId, facts: Facts)
    requires TablesOk(s)
    ensures TablesOk(StoreFacts(s, job, facts)) && Evolves(s, StoreFacts(s, job, facts))
  {
    var t := StoreFacts(s, job, facts);
    assert JobOk(s, job);
    forall id
      ensures JobOk(t, id) && RowEvolves(s, t, id)
    {
      assert JobOk(s, id);
    }
    forall id, a
      ensures PairOk(t, id, a)
    {
      assert PairOk(s, id, a);
    }
  }

  lemma CancelKeeps(s: State, job: JobId)
    requires TablesOk(s)
    ensures TablesOk(Cancel(s, job)) && Evolves(s, Cancel(s, job))
  {
    var u, t := Overwrite(s, job, Cancelled, Some(CANCEL_REASON)), Cancel(s, job);
    OverwriteKeeps(s, job, Cancelled, Some(CANCEL_REASON));
    assert JobOk(s, job);
    forall id
      ensures JobOk(t, id) && RowEvolves(s, t, id)
    {
      assert JobOk(u, id) && RowEvolves(s, u, id);
    }
    forall id, a
      ensures PairOk(t, id, a)
    {
      assert PairOk(u, id, a);
    }
  }

  lemma AcceptKeeps(s: State, job: JobId, agent: AgentId)
    requires TablesOk(s) && job in s.hist.claimed && s.hist.claimed[job].agent == agent
    ensures TablesOk(Accept(s, job, agent)) && Evolves(s, Accept(s, job, agent))
  {
    var t := Accept(s, job, agent);
    forall id
      ensures JobOk(t, id) && RowEvolves(s, t, id)
    {
      assert JobOk(s, id);
    }
    forall id, a
      ensures PairOk(t, id, a)
    {
      assert PairOk(s, id, a);
    }
  }

  lemma CallAgentKeeps(s: State, job: JobId, agent: AgentId)
    requires TablesOk(s) && job in s.hist.claimed && s.hist.claimed[job].agent == agent
      && s.hist.sent[(job, agent)] == 0
    ensures TablesOk(CallAgentEffect(s, job, agent)) && Evolves(s, CallAgentEffect(s, job, agent))
  {
    var t := CallAgentEffect(s, job, agent);
    forall id
      ensures JobOk(t, id) && RowEvolves(s, t, id)
    {
      assert JobOk(s, id);
    }
    forall id, a
      ensures PairOk(t, id, a)
    {
      assert PairOk(s, id, a);
    }
  }

  // Steps -----------------------------------------------------------------------------------

  // A change of the tables alone that leaves every Dispatch count as it was.
  lemma TablesStep(k: Config, s: State, t: State)
    requires Inv(k, s) && TablesOk(t) && Evolves(s, t)
    requires t.controllers == s.controllers && t.requests == s.requests && t.hist.sent == s.hist.sent
    ensures Inv(k, t)
  {
    forall c | 0 <= c < |t.controllers|
      ensures CtrlOk(k, t, t.controllers[c])
    {
      CtrlKept(k, s, t, s.controllers[c]);
    }
    forall r | r in t.requests
      ensures ReqOk(t, t.requests[r])
    {
      ReqKept(s, t, s.requests[r]);
    }
  }

  // A controller moves after the tables changed.
  lemma MoveStep(k: Config, s: State, c: nat, pc: Controller)
    requires Inv(k, s) && c < |s.controllers| && CtrlOk(k, s, pc)
    requires At(pc, Claimed) ==> forall d | 0 <= d < |s.controllers| && d != c && At(s.controllers[d], Claimed) ::
                                   Current(s.controllers[d]) != Current(pc)
    ensures Inv(k, Goto(s, c, pc))
  {
    var t := Goto(s, c, pc);
    forall id
      ensures JobOk(t, id)
    {
      assert JobOk(s, id);
    }
    forall id, a
      ensures PairOk(t, id, a)
    {
      assert PairOk(s, id, a);
    }
    assert Evolves(s, t) by {
      forall id ensures RowEvolves(s, t, id) { assert JobOk(s, id); }
    }
    forall d | 0 <= d < |t.controllers|
      ensures CtrlOk(k, t, t.controllers[d])
    {
      CtrlKept(k, s, t, if d == c then pc else s.controllers[d]);
    }
    forall r | r in t.requests
      ensures ReqOk(t, t.requests[r])
    {
      ReqKept(s, t, s.requests[r]);
    }
  }

  lemma Unchanged(s: State)
    ensures Evolves(s, s)
  {
    forall id
      ensures RowEvolves(s, s, id)
    {
    }
  }

  lemma EffectTables(k: Config, s: State, pc: Controller, a: Action)
    requires TablesOk(s) && CtrlOk(k, s, pc) && CanAct(k, s, pc, a) && !a.CallAgent?
    ensures TablesOk(Effect(s, pc, a)) && Evolves(s, Effect(s, pc, a))
  {
    Unchanged(s);
    match a
    case TryClaim => TakeClaimKeeps(s, Current(pc), Choose(pc.agents).id);
    case ClaimFails(applied) => TakeClaimKeeps(s, Current(pc), Choose(pc.agents).id);
    case Revert(_, _) => FailKeeps(s, Current(pc), Dispatched, AGENT_ERROR);
    case FailPending(_, _) => FailKeeps(s, Current(pc), Pending, DISPATCH_ERROR);
    case FailStuck(_, _) => FailKeeps(s, pc.stuck[pc.done], pc.status, StuckReason(pc.status));
    case _ =>
  }

  lemma EffectFrame(s: State, pc: Controller, a: Action)
    ensures var t := Effect(s, pc, a);
            t.controllers == s.controllers && t.requests == s.requests && t.clock == s.clock && t.agents == s.agents
    ensures !a.CallAgent? ==> Effect(s, pc, a).hist.sent == s.hist.sent
  {
  }

  // After the write, the controller's next place is as good as the last.
  lemma PlaceOk(k: Config, s: State, pc: Controller, a: Action)
    requires TablesOk(s) && CtrlOk(k, s, pc) && CanAct(k, s, pc, a) && !a.CallAgent?
    ensures CtrlOk(k, Effect(s, pc, a), NextPlace(s, pc, a))
  {
    var t := Effect(s, pc, a);
    EffectTables(k, s, pc, a);
    EffectFrame(s, pc, a);
    match a
    case ReadPending(batch, skipped) => FreshBatch(s, batch, skipped);
    case ReadAgents(_) =>
    case ReadStuck(stuck, skipped) => FreshStuck(k, s, pc.status, stuck, skipped);
    case TryClaim => PlaceAfterClaim(k, s, pc, a);
    case ClaimFails(_) => PlaceAfterClaim(k, s, pc, a);
    case Reply(_) => assert JobOk(s, Current(pc));
    case Revert(_, _) => PlaceAfterRevert(k, s, pc, a);
    case FailPending(applied, error) => PlaceAfterFailing(k, s, pc, applied, error);
    case FailStuck(_, _) => PlaceAfterTimeout(k, s, pc, a);
    case _ =>
  }

  lemma FreshBatch(s: State, batch: seq<Job>, skipped: set<JobId>)
    requires TablesOk(s) && PendingBatch(s.jobs, batch, skipped)
    ensures BatchOk(s, batch, skipped)
  {
    forall i | 0 <= i < |batch|
      ensures SameRow(s, batch[i]) && batch[i].createdAt <= s.clock
    {
      assert JobOk(s, batch[i].id);
    }
  }

  lemma FreshStuck(k: Config, s: State, status: JobStatus, stuck: seq<JobId>, skipped: set<JobId>)
    requires TablesOk(s) && (status == Dispatched || status == Running)
    requires StuckList(s.jobs, status, Timeout(k, status), s.clock, stuck, skipped)
    ensures forall id | id in stuck :: TimedOut(k, s, status, id)
    ensures status == Running ==> stuck == []
  {
    forall id | id in stuck
      ensures TimedOut(k, s, status, id)
    {
      assert IsStuck(s.jobs, id, status, Timeout(k, status), s.clock) && JobOk(s, id);
    }
    if status == Running && stuck != [] {
      assert stuck[0] in stuck;
      NotRunning(s, stuck[0]);
    }
  }

  lemma NotRunning(s: State, id: JobId)
    requires TablesOk(s)
    ensures !Matches(s.jobs, id, Running)
  {
    assert JobOk(s, id);
  }

  lemma PlaceAfterClaim(k: Config, s: State, pc: Controller, a: Action)
    requires TablesOk(s) && CtrlOk(k, s, pc) && CanAct(k, s, pc, a) && (a.TryClaim? || a.ClaimFails?)
    requires Evolves(s, Effect(s, pc, a))
    ensures CtrlOk(k, Effect(s, pc, a), NextPlace(s, pc, a))
  {
    var t := Effect(s, pc, a);
    CtrlKept(k, s, t, pc);
    assert SameRow(s, pc.batch[pc.next]);
    assert JobOk(s, Current(pc)) && PairOk(s, Current(pc), Choose(pc.agents).id);
  }

  // Going on to the next job, when the current one is known not to be pending or an error has
  // been seen.
  lemma NextOk(k: Config, t: State, pc: Controller, clean: bool)
    requires CtrlOk(k, t, pc) && pc.Working? && pc.next < |pc.batch|
    requires clean ==> pc.clean && t.jobs[Current(pc)].status != Pending
    ensures CtrlOk(k, t, Working(pc.batch, pc.skipped, pc.agents, pc.next + 1, Offer, clean))
  {
    assert SameRow(t, pc.batch[pc.next]);
  }

  lemma PlaceAfterRevert(k: Config, s: State, pc: Controller, a: Action)
    requires TablesOk(s) && CtrlOk(k, s, pc) && CanAct(k, s, pc, a) && a.Revert?
    requires Evolves(s, Effect(s, pc, a))
    ensures CtrlOk(k, Effect(s, pc, a), NextPlace(s, pc, a))
  {
    var t := Effect(s, pc, a);
    CtrlKept(k, s, t, pc);
    assert JobOk(s, Current(pc)) && RowEvolves(s, t, Current(pc));
  }

  lemma PlaceAfterFailing(k: Config, s: State, pc: Controller, applied: bool, error: bool)
    requires TablesOk(s) && CtrlOk(k, s, pc) && At(pc, Failing) && (applied || error)
    requires var t := if applied then Fail(s, Current(pc), Pending, DISPATCH_ERROR) else s; Evolves(s, t)
    ensures var t := if applied then Fail(s, Current(pc), Pending, DISPATCH_ERROR) else s;
            CtrlOk(k, t, if error then Unclean(NextJob(pc)) else NextJob(pc))
  {
    var t := if applied then Fail(s, Current(pc), Pending, DISPATCH_ERROR) else s;
    CtrlKept(k, s, t, pc);
    assert SameRow(s, pc.batch[pc.next]);
    NextOk(k, t, pc, pc.clean && !error);
  }

  lemma PlaceAfterTimeout(k: Config, s: State, pc: Controller, a: Action)
    requires TablesOk(s) && CtrlOk(k, s, pc) && CanAct(k, s, pc, a) && a.FailStuck?
    requires Evolves(s, Effect(s, pc, a))
    ensures CtrlOk(k, Effect(s, pc, a), NextPlace(s, pc, a))
  {
    var t, id := Effect(s, pc, a), pc.stuck[pc.done];
    CtrlKept(k, s, t, pc);
    assert id in pc.stuck;
    assert TimedOut(k, s, pc.status, id) && JobOk(s, id);
    assert a.applied ==> Left(t, id, pc.status);
  }

  lemma ActStep(k: Config, s: State, c: nat, a: Action)
    requires Inv(k, s) && Enabled(k, s, Act(c, a)) && !a.CallAgent?
    ensures Inv(k, Apply(k, s, Act(c, a))) && Evolves(s, Apply(k, s, Act(c, a)))
  {
    var pc := s.controllers[c];
    var t := Effect(s, pc, a);
    EffectTables(k, s, pc, a);
    EffectFrame(s, pc, a);
    PlaceOk(k, s, pc, a);
    TablesStep(k, s, t);
    ClaimedAlone(k, s, c, a);
    MoveStep(k, t, c, NextPlace(s, pc, a));
    MovedSame(t, c, NextPlace(s, pc, a));
    EvolvesTransitive(s, t, Goto(t, c, NextPlace(s, pc, a)));
  }

  lemma MovedSame(s: State, c: nat, pc: Controller)
    ensures Evolves(s, Goto(s, c, pc))
  {
    forall id
      ensures RowEvolves(s, Goto(s, c, pc), id)
    {
    }
  }

  // A job just claimed was pending, so nobody else holds a claim on it.
  lemma ClaimedAlone(k: Config, s: State, c: nat, a: Action)
    requires Inv(k, s) && Enabled(k, s, Act(c, a)) && !a.CallAgent?
    ensures At(NextPlace(s, s.controllers[c], a), Claimed) ==>
              forall d | 0 <= d < |s.controllers| && d != c && At(s.controllers[d], Claimed) ::
                Current(s.controllers[d]) != Current(NextPlace(s, s.controllers[c], a))
  {
    var pc := s.controllers[c];
    if At(NextPlace(s, pc, a), Claimed) && a.TryClaim? {
      assert JobOk(s, Current(pc));
      forall d | 0 <= d < |s.controllers| && d != c && At(s.controllers[d], Claimed)
        ensures Current(s.controllers[d]) != Current(pc)
      {
        assert CtrlOk(k, s, s.controllers[d]) && HoldsOk(s, s.controllers[d]);
      }
    }
  }

  lemma CallAgentStep(k: Config, s: State, c: nat)
    requires Inv(k, s) && Enabled(k, s, Act(c, CallAgent))
    ensures Inv(k, Apply(k, s, Act(c, CallAgent))) && Evolves(s, Apply(k, s, Act(c, CallAgent)))
  {
    var pc := s.controllers[c];
    var job, agent := Current(pc), Choose(pc.agents).id;
    var u, t := CallAgentEffect(s, job, agent), Apply(k, s, Act(c, CallAgent));
    assert CtrlOk(k, s, pc) && HoldsOk(s, pc);
    CallAgentKeeps(s, job, agent);
    MovedSame(u, c, MoveTo(pc, Sent));
    EvolvesTransitive(s, u, t);
    TablesMoved(u, c, MoveTo(pc, Sent));
    forall d | 0 <= d < |t.controllers|
      ensures CtrlOk(k, t, t.controllers[d])
    {
      if d == c {
        CtrlKept(k, s, t, pc.(at := Rejected));
      } else {
        CtrlKept(k, s, t, s.controllers[d]);
      }
    }
    forall r | r in t.requests
      ensures ReqOk(t, t.requests[r])
    {
      ReqKept(s, t, s.requests[r]);
    }
  }

  lemma TablesMoved(s: State, c: nat, pc: Controller)
    requires TablesOk(s)
    ensures TablesOk(Goto(s, c, pc))
  {
    forall id ensures JobOk(Goto(s, c, pc), id) { assert JobOk(s, id); }
    forall id, a ensures PairOk(Goto(s, c, pc), id, a) { assert PairOk(s, id, a); }
  }

  // Requests change hands without touching the controllers.
  lemma RequestsStep(k: Config, s: State, requests: map<nat, Request>)
    requires Inv(k, s) && forall r | r in requests :: ReqOk(s, requests[r])
    ensures Inv(k, s.(requests := requests)) && Evolves(s, s.(requests := requests))
  {
    var t := s.(requests := requests);
    forall id ensures JobOk(t, id) && RowEvolves(s, t, id) { assert JobOk(s, id); }
    forall id, a ensures PairOk(t, id, a) { assert PairOk(s, id, a); }
    forall c | 0 <= c < |t.controllers|
      ensures CtrlOk(k, t, t.controllers[c])
    {
      CtrlKept(k, s, t, s.controllers[c]);
    }
    forall r | r in requests
      ensures ReqOk(t, requests[r])
    {
      ReqKept(s, t, requests[r]);
    }
  }

  lemma BeginStep(k: Config, s: State, r: nat, req: Request)
    requires Inv(k, s) && CanBegin(s, req)
    ensures Inv(k, s.(requests := s.requests[r := req])) && Evolves(s, s.(requests := s.requests[r := req]))
  {
    assert JobOk(s, req.job);
    RequestsStep(k, s, s.requests[r := req]);
  }

  lemma FinishStep(k: Config, s: State, r: nat)
    requires Inv(k, s) && r in s.requests
    ensures Inv(k, Apply(k, s, Finish(r))) && Evolves(s, Apply(k, s, Finish(r)))
  {
    var req := s.requests[r];
    var t := Written(s, req);
    assert ReqOk(s, req);
    WrittenTables(s, req);
    TablesStep(k, s, t);
    RequestsStep(k, t, Finished(t, r, req).requests);
    EvolvesTransitive(s, t, Finished(t, r, req));
  }

  lemma WrittenTables(s: State, req: Request)
    requires TablesOk(s) && ReqOk(s, req)
    ensures var t := Written(s, req);
            && TablesOk(t) && Evolves(s, t)
            && t.controllers == s.controllers && t.requests == s.requests && t.hist.sent == s.hist.sent
            && (req.ResultRead? ==> ReqOk(t, FactsDue(req.job, req.facts)))
  {
    match req
    case CancelRead(job) => CancelKeeps(s, job);
    case ResultRead(job, agent, result, _) =>
      OverwriteKeeps(s, job, result, None);
      var u := Overwrite(s, job, result, None);
      assert JobOk(s, job) && RowEvolves(s, u, job);
      AcceptKeeps(u, job, agent);
      EvolvesTransitive(s, u, Accept(u, job, agent));
    case FactsDue(job, facts) => StoreFactsKeeps(s, job, facts);
    case LogsRead(job, agent) => AcceptKeeps(s, job, agent);
  }

  lemma OtherStep(k: Config, s: State, step: Step)
    requires Inv(k, s) && Enabled(k, s, step) && (step.Tick? || step.Create? || step.Register? || step.Heartbeat?)
    ensures Inv(k, Apply(k, s, step)) && Evolves(s, Apply(k, s, step))
  {
    var t := Apply(k, s, step);
    if step.Create? {
      InsertKeeps(s, step.job);
    } else {
      forall id ensures JobOk(t, id) && RowEvolves(s, t, id) { assert JobOk(s, id); }
      forall id, a ensures PairOk(t, id, a) { assert PairOk(s, id, a); }
    }
    TablesStep(k, s, t);
  }

  // Every step keeps the invariant, and no row ever moves back.
  lemma StepKeeps(k: Config, s: State, step: Step)
    requires Inv(k, s) && Enabled(k, s, step)
    ensures Inv(k, Apply(k, s, step)) && Evolves(s, Apply(k, s, step))
  {
    match step
    case Act(c, a) => if a.CallAgent? { CallAgentStep(k, s, c); } else { ActStep(k, s, c, a); }
    case Begin(r, req) => BeginStep(k, s, r, req);
    case Finish(r) => FinishStep(k, s, r);
    case Drop(r) => RequestsStep(k, s, s.requests - {r});
    case _ => OtherStep(k, s, step);
  }

  lemma InitOk(k: Config, s: State)
    requires Init(s)
    ensures Inv(k, s)
  {
  }

  // Every run from a good state ends in a good state.
  lemma {:induction false} RunKeeps(k: Config, s: State, steps: seq<Step>, t: State)
    requires Inv(k, s) && Leads(Next(k), s, steps, t)
    ensures Inv(k, t) && Evolves(s, t)
    decreases |steps|
  {
    if steps == [] {
      Unchanged(s);
    } else {
      var n := |steps| - 1;
      var u := After(Next(k), s, steps[..n]).value;
      RunKeeps(k, s, steps[..n], u);
      StepKeeps(k, u, steps[n]);
      EvolvesTransitive(s, u, t);
    }
  }
}
