/**
 The jobs and agents tables as values: the rows, what each SQL statement of the two stores does
 to them, and what each query may return.
 */
module Jobs {
  import opened Wrappers
  import opened JobTypes

  type JobId = nat
  type AgentId = nat
  type Time = int

  // A JSON object, its values as text.
  type Facts = map<string, string>

  datatype Job = Job(
    id: JobId,
    status: JobStatus,
    agentId: Option<AgentId>,
    failureReason: Option<string>,
    createdAt: Time,
    updatedAt: Time,
    startedAt: Option<Time>,
    endedAt: Option<Time>,
    facts: Facts)

  type JobTable = map<JobId, Job>

  // A row of the agents table.
  datatype AgentRow = AgentRow(capacity: int, online: bool, lastHeartbeatAt: Option<Time>)

  type AgentTable = map<AgentId, AgentRow>

  // An agent as GetAvailableAgents reports it.
  datatype Agent = Agent(id: AgentId, capacity: int, runningJobs: nat, lastHeartbeatAt: Option<Time>)

  // INSERT INTO jobs with the column defaults.
  function NewJob(id: JobId, now: Time): Job {
    Job(id, Pending, None, None, now, now, None, None, map[])
  }

  function Coalesce<T>(a: Option<T>, b: Option<T>): Option<T> {
    if a.Some? then a else b
  }

  // The SET list of TransitionJob.
  function Transitioned(j: Job, to: JobStatus, agentId: Option<AgentId>, reason: string, now: Time): Job {
    j.(status := to,
       agentId := Coalesce(agentId, j.agentId),
       failureReason := if reason != "" then Some(reason) else j.failureReason,
       startedAt := if to == Running && j.startedAt.None? then Some(now) else j.startedAt,
       endedAt := if to == Success || to == Failed || to == Cancelled then Some(now) else j.endedAt,
       updatedAt := now)
  }

  // WHERE id = $1 AND status = $5.
  predicate Matches(jobs: JobTable, id: JobId, from: JobStatus) {
    id in jobs && jobs[id].status == from
  }

  // TransitionJob: a compare-and-set on the status.
  function CompareAndSet(jobs: JobTable, id: JobId, from: JobStatus, to: JobStatus, agentId: Option<AgentId>,
                         reason: string, now: Time): JobTable {
    if Matches(jobs, id, from) then jobs[id := Transitioned(jobs[id], to, agentId, reason, now)] else jobs
  }

  // The SET list of UpdateJobStatus; the table's trigger refreshes updated_at.
  function StatusUpdated(j: Job, status: JobStatus, agentId: Option<AgentId>, reason: Option<string>, now: Time): Job {
    j.(status := status,
       agentId := Coalesce(agentId, j.agentId),
       failureReason := Coalesce(reason, j.failureReason),
       startedAt := if status == Running && j.startedAt.None? then Some(now) else j.startedAt,
       endedAt := if status == Success || status == Failed || status == Cancelled then Some(now) else j.endedAt,
       updatedAt := now)
  }

  // UpdateJobStatus: no guard on the current status.
  function SetStatus(jobs: JobTable, id: JobId, status: JobStatus, agentId: Option<AgentId>, reason: Option<string>,
                     now: Time): JobTable {
    if id in jobs then jobs[id := StatusUpdated(jobs[id], status, agentId, reason, now)] else jobs
  }

  // SetJobFacts; the table's trigger refreshes updated_at.
  function SetFacts(jobs: JobTable, id: JobId, facts: Facts, now: Time): JobTable {
    if id in jobs then jobs[id := jobs[id].(facts := facts, updatedAt := now)] else jobs
  }

  const BATCH_LIMIT := 50

  // status = 'pending' ORDER BY created_at LIMIT 50 FOR UPDATE SKIP LOCKED. The rows in `skipped`
  // were locked, by whatever other statement was being executed at that moment.
  ghost predicate PendingBatch(jobs: JobTable, batch: seq<Job>, skipped: set<JobId>) {
    && |batch| <= BATCH_LIMIT
    && (forall i | 0 <= i < |batch| ::
        batch[i].id in jobs && jobs[batch[i].id] == batch[i] && batch[i].status == Pending)
    && (forall i, k | 0 <= i < k < |batch| :: batch[i].id != batch[k].id && batch[i].createdAt <= batch[k].createdAt)
    && (forall id | id in skipped :: id in jobs && jobs[id].status == Pending && Absent(batch, id))
    && (forall id | id in jobs && jobs[id].status == Pending && Absent(batch, id) && id !in skipped ::
          |batch| == BATCH_LIMIT && forall i | 0 <= i < |batch| :: batch[i].createdAt <= jobs[id].createdAt)
  }

  predicate Absent(batch: seq<Job>, id: JobId) {
    forall i | 0 <= i < |batch| :: batch[i].id != id
  }

  // status = $s AND updated_at < now() - timeout.
  predicate IsStuck(jobs: JobTable, id: JobId, status: JobStatus, timeout: int, now: Time) {
    id in jobs && jobs[id].status == status && jobs[id].updatedAt < now - timeout
  }

  // All such rows, FOR UPDATE SKIP LOCKED.
  ghost predicate StuckList(jobs: JobTable, status: JobStatus, timeout: int, now: Time, list: seq<JobId>,
                            skipped: set<JobId>) {
    && (forall id | id in skipped :: IsStuck(jobs, id, status, timeout, now))
    && (forall id :: id in list <==> IsStuck(jobs, id, status, timeout, now) && id !in skipped)
  }

  predicate InFlight(j: Job, a: AgentId) {
    j.agentId == Some(a) && (j.status == Dispatched || j.status == Running)
  }

  function InFlightJobs(jobs: JobTable, a: AgentId): set<JobId> {
    set id | id in jobs && InFlight(jobs[id], a)
  }

  // COUNT over the jobs of an agent that are dispatched or running.
  function RunningJobs(jobs: JobTable, a: AgentId): nat {
    |InFlightJobs(jobs, a)|
  }

  // The row of an agent as the query reports it.
  function Reported(jobs: JobTable, agents: AgentTable, a: AgentId): Agent
    requires a in agents
  {
    Agent(a, agents[a].capacity, RunningJobs(jobs, a), agents[a].lastHeartbeatAt)
  }

  // The WHERE and HAVING clauses of GetAvailableAgents.
  predicate IsAvailable(jobs: JobTable, agents: AgentTable, a: AgentId, ttl: int, now: Time) {
    && a in agents
    && agents[a].online
    && agents[a].lastHeartbeatAt.Some? && agents[a].lastHeartbeatAt.value > now - ttl
    && RunningJobs(jobs, a) < agents[a].capacity
  }

  // ORDER BY running jobs, then last_heartbeat_at DESC.
  predicate Precedes(a: Agent, b: Agent) {
    a.runningJobs < b.runningJobs
    || (a.runningJobs == b.runningJobs && b.lastHeartbeatAt.Some? && a.lastHeartbeatAt.Some?
        && b.lastHeartbeatAt.value <= a.lastHeartbeatAt.value)
  }

  ghost predicate AvailableList(jobs: JobTable, agents: AgentTable, ttl: int, now: Time, list: seq<Agent>) {
    && (forall i | 0 <= i < |list| ::
          IsAvailable(jobs, agents, list[i].id, ttl, now) && list[i] == Reported(jobs, agents, list[i].id))
    && (forall i, k | 0 <= i < k < |list| :: list[i].id != list[k].id && Precedes(list[i], list[k]))
    && (forall a | IsAvailable(jobs, agents, a, ttl, now) :: exists i :: 0 <= i < |list| && list[i].id == a)
  }
}
