/**
 The job lifecycle as a step system: any number of controllers, API requests and agents around
 one jobs table. Each database statement is one step, and so is every point at which a process
 can be overtaken, can crash, or can see an error although its statement was applied.
 */
module Protocol {
  import opened Wrappers
  import opened Runs
  import opened JobTypes
  import opened Jobs
  import opened Selector

  datatype Config = Config(heartbeatTTL: int, dispatchTimeout: int, runningTimeout: int)

  // Where dispatchOne is for the current job of a batch.
  datatype Point =
    | Offer     // about to select an agent, build the payload and claim
    | Claimed   // the claim succeeded, Dispatch not called yet
    | Sent      // Dispatch called, no reply yet
    | Rejected  // Dispatch returned an error
    | Failing   // dispatchOne returned an error to dispatchPending

  // A controller's place in its tick. Three fields only record something, and no step depends on
  // them: `skipped`, the pending rows that were locked when the batch was read, and `clean` and
  // `clear`, that no write of the loop which takes a job out of its status has reported an error.
  datatype Controller =
    | Idle
    | Fetched(batch: seq<Job>, skipped: set<JobId>)
    | Working(batch: seq<Job>, skipped: set<JobId>, agents: seq<Agent>, next: nat, at: Point, clean: bool)
    | Sweep(status: JobStatus)
    | Timing(status: JobStatus, stuck: seq<JobId>, done: nat, clear: bool)

  // An API request between its read and its write.
  datatype Request =
    | CancelRead(job: JobId)
    | ResultRead(job: JobId, agent: AgentId, result: JobStatus, facts: Facts)
    | FactsDue(job: JobId, facts: Facts)
    | LogsRead(job: JobId, agent: AgentId)

  datatype Claim = Claim(agent: AgentId, at: Time)

  // The last status write to a row, and the last reason that one gave.
  datatype Write = Write(at: Time, reason: Option<string>)

  // What has happened so far; no step depends on it.
  datatype History = History(
    claims: multiset<JobId>,              // claims that took effect
    claimed: map<JobId, Claim>,           // by whom and when
    sent: multiset<(JobId, AgentId)>,     // Dispatch calls
    accepted: set<(JobId, AgentId)>,      // log batches and results accepted from an agent
    cancelledPending: set<JobId>,         // cancels that hit a row still pending
    trail: map<JobId, seq<JobStatus>>,    // every status each job has had
    last: map<JobId, Write>)              // the last write of one

  datatype State = State(
    clock: Time,
    jobs: JobTable,
    agents: AgentTable,
    controllers: seq<Controller>,
    requests: map<nat, Request>,
    hist: History)

  // What a controller does next.
  datatype Action =
    | ReadPending(batch: seq<Job>, skipped: set<JobId>)
    | ReadPendingFails
    | ReadAgents(list: seq<Agent>)
    | ReadAgentsFails
    | NoAgent
    | PayloadFails
    | TryClaim
    | ClaimFails(applied: bool)
    | CallAgent
    | Reply(accepted: bool)
    | Revert(applied: bool, error: bool)
    | FailPending(applied: bool, error: bool)
    | EndBatch
    | ReadStuck(stuck: seq<JobId>, skipped: set<JobId>)
    | ReadStuckFails(status: JobStatus)
    | FailStuck(applied: bool, error: bool)
    | EndSweep(status: JobStatus)
    | Crash

  datatype Step =
    | Tick(elapsed: nat)
    | Create(job: JobId)
    | Register(agent: AgentId, capacity: int)
    | Heartbeat(agent: AgentId)
    | Act(c: nat, action: Action)
    | Begin(r: nat, req: Request)
    | Finish(r: nat)
    | Drop(r: nat)

  // Effects on the tables -----------------------------------------------------------------

  // A status write that took effect also extends the trail.
  function Record(hist: History, job: JobId, status: JobStatus, reason: Option<string>, now: Time): History {
    var before := if job in hist.last then hist.last[job].reason else None;
    hist.(trail := hist.trail[job := (if job in hist.trail then hist.trail[job] else []) + [status]],
          last := hist.last[job := Write(now, if reason.Some? then reason else before)])
  }

  // TransitionJob to failed: applied only while the row still has status `from`.
  function Fail(s: State, job: JobId, from: JobStatus, reason: string): State {
    s.(jobs := CompareAndSet(s.jobs, job, from, Failed, None, reason, s.clock),
       hist := if Matches(s.jobs, job, from) then Record(s.hist, job, Failed, Some(reason), s.clock) else s.hist)
  }

  // TransitionJob from pending to dispatched.
  function TakeClaim(s: State, job: JobId, agent: AgentId): State {
    s.(jobs := CompareAndSet(s.jobs, job, Pending, Dispatched, Some(agent), "", s.clock),
       hist := if Matches(s.jobs, job, Pending)
               then RecordClaim(Record(s.hist, job, Dispatched, None, s.clock), job, agent, s.clock)
               else s.hist)
  }

  function RecordClaim(hist: History, job: JobId, agent: AgentId, now: Time): History {
    hist.(claims := hist.claims + multiset{job}, claimed := hist.claimed[job := Claim(agent, now)])
  }

  // UpdateJobStatus.
  function Overwrite(s: State, job: JobId, status: JobStatus, reason: Option<string>): State {
    s.(jobs := SetStatus(s.jobs, job, status, None, reason, s.clock),
       hist := if job in s.jobs then Record(s.hist, job, status, reason, s.clock) else s.hist)
  }

  function StoreFacts(s: State, job: JobId, facts: Facts): State {
    s.(jobs := SetFacts(s.jobs, job, facts, s.clock))
  }

  function Insert(s: State, job: JobId): State {
    s.(jobs := s.jobs[job := NewJob(job, s.clock)], hist := Record(s.hist, job, Pending, None, s.clock))
  }

  function Goto(s: State, c: nat, pc: Controller): State
  {
    if c < |s.controllers| then s.(controllers := s.controllers[c := pc]) else s
  }

  // The controller's current job.
  function Current(pc: Controller): JobId
    requires pc.Working? && pc.next < |pc.batch|
  {
    pc.batch[pc.next].id
  }

  predicate At(pc: Controller, at: Point) {
    pc.Working? && pc.next < |pc.batch| && pc.at == at
  }

  function Timeout(k: Config, status: JobStatus): int {
    if status == Running then k.runningTimeout else k.dispatchTimeout
  }

  const CANCEL_REASON := "cancelled by user"
  const DISPATCH_ERROR := "dispatch error"
  const AGENT_ERROR := "agent dispatch error"
  const DISPATCH_STUCK := "dispatch timeout: agent never reported running"
  const RUNNING_STUCK := "running timeout: agent stopped reporting"

  function StuckReason(status: JobStatus): string {
    if status == Dispatched then DISPATCH_STUCK else RUNNING_STUCK
  }

  // Controllers ----------------------------------------------------------------------------

  // A statement that reports an error may have been applied or not; one that reports success
  // has been.
  ghost predicate CanAct(k: Config, s: State, pc: Controller, a: Action) {
    match a
    case ReadPending(batch, skipped) => pc.Idle? && PendingBatch(s.jobs, batch, skipped)
    case ReadPendingFails => pc.Idle?
    case ReadAgents(list) => pc.Fetched? && AvailableList(s.jobs, s.agents, k.heartbeatTTL, s.clock, list)
    case ReadAgentsFails => pc.Fetched?
    case NoAgent => At(pc, Offer) && pc.agents == []
    case PayloadFails => At(pc, Offer) && pc.agents != []
    case TryClaim => At(pc, Offer) && pc.agents != []
    case ClaimFails(_) => At(pc, Offer) && pc.agents != []
    case CallAgent => At(pc, Claimed) && pc.agents != []
    case Reply(_) => At(pc, Sent)
    case Revert(applied, error) => At(pc, Rejected) && (applied || error)
    case FailPending(applied, error) => At(pc, Failing) && (applied || error)
    case EndBatch => pc.Working? && pc.next >= |pc.batch|
    case ReadStuck(stuck, skipped) =>
      pc.Sweep? && StuckList(s.jobs, pc.status, Timeout(k, pc.status), s.clock, stuck, skipped)
    case ReadStuckFails(status) => pc == Sweep(status)
    case FailStuck(applied, error) => pc.Timing? && pc.done < |pc.stuck| && (applied || error)
    case EndSweep(status) => pc.Timing? && pc.done >= |pc.stuck| && pc.status == status
    case Crash => true
  }

  function CallAgentEffect(s: State, job: JobId, agent: AgentId): State {
    s.(hist := s.hist.(sent := s.hist.sent + multiset{(job, agent)}))
  }

  // What an action does to the tables.
  function Effect(s: State, pc: Controller, a: Action): State {
    match a
    case TryClaim => if At(pc, Offer) && pc.agents != [] then TakeClaim(s, Current(pc), Choose(pc.agents).id) else s
    case ClaimFails(applied) =>
      if applied && At(pc, Offer) && pc.agents != [] then TakeClaim(s, Current(pc), Choose(pc.agents).id) else s
    case CallAgent =>
      if At(pc, Claimed) && pc.agents != [] then CallAgentEffect(s, Current(pc), Choose(pc.agents).id) else s
    case Revert(applied, _) =>
      if applied && At(pc, Rejected) then Fail(s, Current(pc), Dispatched, AGENT_ERROR) else s
    case FailPending(applied, _) =>
      if applied && At(pc, Failing) then Fail(s, Current(pc), Pending, DISPATCH_ERROR) else s
    case FailStuck(applied, _) =>
      if applied && pc.Timing? && pc.done < |pc.stuck|
      then Fail(s, pc.stuck[pc.done], pc.status, StuckReason(pc.status)) else s
    case _ => s
  }

  // failStuck runs the sweep for dispatched rows and then the one for running rows.
  function AfterSweep(status: JobStatus): Controller {
    if status == Dispatched then Sweep(Running) else Idle
  }

  // Where an action leaves the controller.
  function NextPlace(s: State, pc: Controller, a: Action): Controller {
    match a
    case ReadPending(batch, skipped) => if batch == [] then Sweep(Dispatched) else Fetched(batch, skipped)
    case ReadPendingFails => Sweep(Dispatched)
    case ReadAgents(list) => if pc.Fetched? then Working(pc.batch, pc.skipped, list, 0, Offer, true) else pc
    case ReadAgentsFails => Sweep(Dispatched)
    case NoAgent => MoveTo(pc, Failing)
    case PayloadFails => MoveTo(pc, Failing)
    case TryClaim =>
      if At(pc, Offer) && Matches(s.jobs, Current(pc), Pending) then MoveTo(pc, Claimed) else NextJob(pc)
    case ClaimFails(_) => MoveTo(pc, Failing)
    case CallAgent => MoveTo(pc, Sent)
    case Reply(accepted) => if accepted then NextJob(pc) else MoveTo(pc, Rejected)
    case Revert(_, error) => if error then MoveTo(pc, Failing) else NextJob(pc)
    case FailPending(_, error) => if error then Unclean(NextJob(pc)) else NextJob(pc)
    case EndBatch => Sweep(Dispatched)
    case ReadStuck(stuck, _) => if pc.Sweep? then Timing(pc.status, stuck, 0, true) else pc
    case ReadStuckFails(status) => AfterSweep(status)
    case FailStuck(_, error) => if pc.Timing? then pc.(done := pc.done + 1, clear := pc.clear && !error) else pc
    case EndSweep(status) => AfterSweep(status)
    case Crash => Idle
  }

  function MoveTo(pc: Controller, at: Point): Controller {
    if pc.Working? then pc.(at := at) else pc
  }

  function NextJob(pc: Controller): Controller {
    if pc.Working? then pc.(next := pc.next + 1, at := Offer) else pc
  }

  function Unclean(pc: Controller): Controller {
    if pc.Working? then pc.(clean := false) else pc
  }

  // API requests ----------------------------------------------------------------------------

  // The read and the checks of CancelJob, AgentPostResult and AgentPostLogs.
  predicate CanBegin(s: State, req: Request) {
    match req
    case CancelRead(job) => job in s.jobs && !IsTerminal(s.jobs[job].status)
    case ResultRead(job, agent, result, _) => job in s.jobs && s.jobs[job].agentId == Some(agent) && IsTerminal(result)
    case LogsRead(job, agent) => job in s.jobs && s.jobs[job].agentId == Some(agent)
    case FactsDue(_, _) => false
  }

  function Accept(s: State, job: JobId, agent: AgentId): State {
    s.(hist := s.hist.(accepted := s.hist.accepted + {(job, agent)}))
  }

  function Cancel(s: State, job: JobId): State {
    var t := Overwrite(s, job, Cancelled, Some(CANCEL_REASON));
    if Matches(s.jobs, job, Pending)
    then t.(hist := t.hist.(cancelledPending := t.hist.cancelledPending + {job}))
    else t
  }

  // The write, whatever the row has become since the read.
  function Written(s: State, req: Request): State {
    match req
    case CancelRead(job) => Cancel(s, job)
    case ResultRead(job, agent, result, _) => Accept(Overwrite(s, job, result, None), job, agent)
    case FactsDue(job, facts) => StoreFacts(s, job, facts)
    case LogsRead(job, agent) => Accept(s, job, agent)
  }

  function Finished(s: State, r: nat, req: Request): State {
    if req.ResultRead? && req.facts != map[]
    then s.(requests := s.requests[r := FactsDue(req.job, req.facts)])
    else s.(requests := s.requests - {r})
  }

  // Steps -----------------------------------------------------------------------------------

  ghost predicate Enabled(k: Config, s: State, step: Step) {
    match step
    case Tick(_) => true
    case Create(job) => job !in s.jobs
    case Register(agent, capacity) => agent !in s.agents && capacity > 0
    case Heartbeat(agent) => agent in s.agents
    case Act(c, a) => c < |s.controllers| && CanAct(k, s, s.controllers[c], a)
    case Begin(r, req) => r !in s.requests && CanBegin(s, req)
    case Finish(r) => r in s.requests
    case Drop(r) => r in s.requests
  }

  function Beat(row: AgentRow, now: Time): AgentRow {
    row.(online := true, lastHeartbeatAt := Some(now))
  }

  ghost function Apply(k: Config, s: State, step: Step): State
    requires Enabled(k, s, step)
  {
    match step
    case Tick(elapsed) => s.(clock := s.clock + elapsed)
    case Create(job) => Insert(s, job)
    case Register(agent, capacity) => s.(agents := s.agents[agent := AgentRow(capacity, false, None)])
    case Heartbeat(agent) => s.(agents := s.agents[agent := Beat(s.agents[agent], s.clock)])
    case Act(c, a) => Goto(Effect(s, s.controllers[c], a), c, NextPlace(s, s.controllers[c], a))
    case Begin(r, req) => s.(requests := s.requests[r := req])
    case Finish(r) => Finished(Written(s, s.requests[r]), r, s.requests[r])
    case Drop(r) => s.(requests := s.requests - {r})
  }

  // Runs ------------------------------------------------------------------------------------

  ghost predicate Init(s: State) {
    && s.jobs == map[] && s.agents == map[] && s.requests == map[]
    && (forall c | 0 <= c < |s.controllers| :: s.controllers[c].Idle?)
    && s.hist == History(multiset{}, map[], multiset{}, {}, {}, map[], map[])
  }

  ghost function Next(k: Config): (State, Step) -> Option<State> {
    (s: State, step: Step) => if Enabled(k, s, step) then Some(Apply(k, s, step)) else None
  }

  lemma Onward(k: Config, s: State, steps: seq<Step>, t: State, step: Step)
    requires Leads(Next(k), s, steps, t) && Enabled(k, t, step)
    ensures Leads(Next(k), s, steps + [step], Apply(k, t, step))
  {
    LeadsOn(Next(k), s, steps, t, step, Apply(k, t, step));
  }

  lemma LedOnward(k: Config, s: State, steps: seq<Step>, t: State, step: Step)
    requires Led(Next(k), s, steps, t) && Enabled(k, t, step)
    ensures Led(Next(k), s, steps + [step], Apply(k, t, step))
  {
    LedLeads(Next(k), s, steps, t);
    Onward(k, s, steps, t, step);
    LedLeads(Next(k), s, steps + [step], Apply(k, t, step));
  }

  // A run: every step enabled in turn.
  ghost predicate IsRun(k: Config, s: State, steps: seq<Step>) {
    After(Next(k), s, steps).Some?
  }

  // The state after i steps of a run.
  ghost function StateAt(k: Config, s: State, steps: seq<Step>, i: nat): State
    requires IsRun(k, s, steps) && i <= |steps|
  {
    PrefixLeads(Next(k), s, steps, i);
    After(Next(k), s, steps[..i]).value
  }

  lemma StateAtStep(k: Config, s: State, steps: seq<Step>, i: nat)
    requires IsRun(k, s, steps) && i < |steps|
    ensures Enabled(k, StateAt(k, s, steps, i), steps[i])
    ensures StateAt(k, s, steps, i + 1) == Apply(k, StateAt(k, s, steps, i), steps[i])
  {
    PrefixLeads(Next(k), s, steps, i + 1);
    assert steps[..i + 1][..i] == steps[..i];
  }
}
