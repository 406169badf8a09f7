/**
 The shared database. controller/internal/store/store.go and api/internal/store/jobs.go issue one
 SQL statement per method; each either reports success and has been applied, or reports an error
 and may have been applied or not.
 */
module Database {
  import opened Wrappers
  import opened JobTypes
  import opened Jobs

  class Store {
    var jobs: JobTable
    var agents: AgentTable
    var clock: Time

    // What this process has seen: errors reported to it, and pending and stuck rows that its
    // queries skipped because another statement had them locked.
    ghost var errors: nat
    ghost var skips: nat
    ghost var stuckSkips: nat

    // The rows that other statements have locked at this moment.
    var locked: set<JobId>

    // A store error: the statement may or may not have reached the table.
    method Fault() returns (error: bool, applied: bool)
      modifies this`errors
      ensures applied || error
      ensures errors == old(errors) + if error then 1 else 0
    {
      error := *;
      applied := *;
      applied := applied || !error;
      if error {
        errors := errors + 1;
      }
    }

    // UPDATE jobs ... WHERE id = $1 AND status = $5; ok is RowsAffected() == 1.
    method TransitionJob(id: JobId, from: JobStatus, to: JobStatus, agentId: Option<AgentId>, reason: string)
      returns (ok: bool, error: bool, ghost applied: bool)
      modifies this`jobs, this`errors
      ensures applied || error
      ensures errors == old(errors) + if error then 1 else 0
      ensures jobs == if applied then CompareAndSet(old(jobs), id, from, to, agentId, reason, clock) else old(jobs)
      ensures !error ==> (ok <==> id in old(jobs) && old(jobs)[id].status == from)
      ensures applied && id in old(jobs) && old(jobs)[id].status == from ==>
                var was := old(jobs)[id];
                jobs == old(jobs)[id := Job(was.id, to,
                                            if agentId.Some? then agentId else was.agentId,
                                            if reason != "" then Some(reason) else was.failureReason,
                                            was.createdAt, clock,
                                            if to.Running? && was.startedAt.None? then Some(clock) else was.startedAt,
                                            if to.Success? || to.Failed? || to.Cancelled? then Some(clock)
                                            else was.endedAt,
                                            was.facts)]
      ensures !applied || id !in old(jobs) || old(jobs)[id].status != from ==> jobs == old(jobs)
    {
      var reached;
      error, reached := Fault();
      applied := reached;
      var found := id in jobs && jobs[id].status == from;
      ok := !error && found;
      if reached && found {
        var updated := TransitionRow(jobs[id], to, agentId, reason);
        jobs := jobs[id := updated];
      }
    }

    // The SET list.
    method TransitionRow(job: Job, to: JobStatus, agentId: Option<AgentId>, reason: string) returns (updated: Job)
      ensures updated == Transitioned(job, to, agentId, reason, clock)
    {
      var reasonColumn := if reason != "" then Some(reason) else job.failureReason;
      var startedAt := if to == Running && job.startedAt.None? then Some(clock) else job.startedAt;
      var endedAt := if IsTerminal(to) then Some(clock) else job.endedAt;
      updated := Job(job.id, to, Coalesce(agentId, job.agentId), reasonColumn, job.createdAt, clock, startedAt,
                     endedAt, job.facts);
    }

    // UPDATE jobs ... WHERE id = $5.
    method UpdateJobStatus(id: JobId, status: JobStatus, agentId: Option<AgentId>, reason: Option<string>)
      returns (error: bool, ghost applied: bool)
      modifies this`jobs, this`errors
      ensures applied || error
      ensures errors == old(errors) + if error then 1 else 0
      ensures jobs == if applied then SetStatus(old(jobs), id, status, agentId, reason, clock) else old(jobs)
      ensures applied && id in old(jobs) ==>
                var was := old(jobs)[id];
                jobs == old(jobs)[id := Job(was.id, status,
                                            if agentId.Some? then agentId else was.agentId,
                                            if reason.Some? then reason else was.failureReason,
                                            was.createdAt, clock,
                                            if status.Running? && was.startedAt.None? then Some(clock)
                                            else was.startedAt,
                                            if status.Success? || status.Failed? || status.Cancelled? then Some(clock)
                                            else was.endedAt,
                                            was.facts)]
      ensures !applied || id !in old(jobs) ==> jobs == old(jobs)
    {
      var reached;
      error, reached := Fault();
      applied := reached;
      if reached && id in jobs {
        var job := jobs[id];
        var startedAt := if status == Running && job.startedAt.None? then Some(clock) else job.startedAt;
        var endedAt := if IsTerminal(status) then Some(clock) else job.endedAt;
        jobs := jobs[id := Job(job.id, status, Coalesce(agentId, job.agentId), Coalesce(reason, job.failureReason),
                               job.createdAt, clock, startedAt, endedAt, job.facts)];
      }
    }

    // UPDATE jobs SET facts = $1; the trigger refreshes updated_at.
    method SetJobFacts(id: JobId, facts: Facts) returns (error: bool, ghost applied: bool)
      modifies this`jobs, this`errors
      ensures applied || error
      ensures errors == old(errors) + if error then 1 else 0
      ensures jobs == if applied then SetFacts(old(jobs), id, facts, clock) else old(jobs)
      ensures applied && id in old(jobs) ==>
                jobs == old(jobs)[id := old(jobs)[id].(facts := facts, updatedAt := clock)]
      ensures !applied || id !in old(jobs) ==> jobs == old(jobs)
    {
      var reached;
      error, reached := Fault();
      applied := reached;
      if reached && id in jobs {
        jobs := jobs[id := jobs[id].(facts := facts, updatedAt := clock)];
      }
    }

    // SELECT ... WHERE id = $1: an error, no row, or the row.
    method GetJob(id: JobId) returns (found: Result<Option<Job>>)
      modifies this`errors
      ensures found.Ok? ==> found.value == if id in jobs then Some(jobs[id]) else None
      ensures errors == old(errors) + if found.Err? then 1 else 0
    {
      var error, _ := Fault();
      if error {
        return Err("store");
      }
      found := Ok(if id in jobs then Some(jobs[id]) else None);
    }

    // The pending job with the smallest created_at among candidates.
    method Oldest(candidates: set<JobId>) returns (oldest: JobId)
      requires candidates != {} && candidates <= jobs.Keys
      ensures oldest in candidates
      ensures forall id | id in candidates :: jobs[oldest].createdAt <= jobs[id].createdAt
    {
      oldest :| oldest in candidates;
      var rest := candidates - {oldest};
      while rest != {}
        invariant rest <= candidates && oldest in candidates
        invariant forall id | id in candidates && id !in rest :: jobs[oldest].createdAt <= jobs[id].createdAt
        decreases rest
      {
        var id :| id in rest;
        if jobs[id].createdAt < jobs[oldest].createdAt {
          oldest := id;
        }
        rest := rest - {id};
      }
    }

    // INSERT INTO jobs, with a generated id and the column defaults.
    method CreateJob() returns (id: JobId, error: bool, ghost applied: bool)
      modifies this`jobs, this`errors
      ensures applied || error
      ensures errors == old(errors) + if error then 1 else 0
      ensures id !in old(jobs)
      ensures jobs == if applied then old(jobs)[id := NewJob(id, clock)] else old(jobs)
      ensures applied ==> jobs == old(jobs)[id := Job(id, Pending, None, None, clock, clock, None, None, map[])]
    {
      id := NewId();
      var reached;
      error, reached := Fault();
      applied := reached;
      if reached {
        jobs := jobs[id := Job(id, Pending, None, None, clock, clock, None, None, map[])];
      }
    }

    // An id that no row has.
    method NewId() returns (id: JobId)
      ensures id !in jobs
    {
      id := 0;
      var rest := jobs.Keys;
      while rest != {}
        invariant rest <= jobs.Keys
        invariant forall other | other in jobs && other !in rest :: other < id
        decreases rest
      {
        var other :| other in rest;
        if id <= other {
          id := other + 1;
        }
        rest := rest - {other};
      }
    }

    // SELECT ... WHERE status = 'pending' ORDER BY created_at LIMIT 50 FOR UPDATE SKIP LOCKED, while
    // other statements may hold any rows; None is a store error.
    method GetPendingJobs() returns (batch: Option<seq<Job>>, ghost skipped: set<JobId>)
      requires forall id | id in jobs :: jobs[id].id == id
      modifies this`errors, this`skips
      ensures batch.Some? ==> PendingBatch(jobs, batch.value, skipped)
      ensures batch.Some? ==> skipped == (set id | id in jobs && jobs[id].status == Pending && id in locked)
      ensures batch.Some? ==> OldestUnlocked(jobs, locked, batch.value)
      ensures errors == old(errors) + if batch.None? then 1 else 0
      ensures skips == old(skips) + if batch.None? then 0 else |skipped|
    {
      var error, _ := Fault();
      if error {
        return None, {};
      }
      var pending := set id | id in jobs && jobs[id].status == Pending;
      skipped := pending * locked;
      skips := skips + |skipped|;
      var list := TakeOldest(pending - locked, skipped);
      UnlockedBatch(jobs, locked, list);
      batch := Some(list);
    }

    // ORDER BY created_at LIMIT 50.
    method TakeOldest(candidates: set<JobId>, ghost skipped: set<JobId>) returns (list: seq<Job>)
      requires TakenPending(jobs, skipped, candidates, []) && forall id | id in jobs :: jobs[id].id == id
      ensures PendingBatch(jobs, list, skipped)
    {
      list := [];
      var rest := candidates;
      while rest != {} && |list| < BATCH_LIMIT
        invariant |list| <= BATCH_LIMIT && TakenPending(jobs, skipped, rest, list)
        decreases rest
      {
        var id := Oldest(rest);
        TakePending(jobs, skipped, rest, list, id);
        list := list + [jobs[id]];
        rest := rest - {id};
      }
    }

    // SELECT ... WHERE status = $s AND updated_at < now() - $1 FOR UPDATE SKIP LOCKED; None is a
    // store error.
    method GetStuckJobs(status: JobStatus, timeout: int) returns (stuck: Option<seq<JobId>>, ghost skipped: set<JobId>)
      modifies this`errors, this`stuckSkips
      ensures stuck.Some? ==> StuckList(jobs, status, timeout, clock, stuck.value, skipped)
      ensures errors == old(errors) + if stuck.None? then 1 else 0
      ensures stuckSkips == old(stuckSkips) + |skipped|
      ensures skipped <= locked
      ensures stuck.Some? ==>
                forall id :: id in stuck.value <==>
                  id in jobs && jobs[id].status == status && jobs[id].updatedAt < clock - timeout && id !in locked
    {
      var error, _ := Fault();
      if error {
        return None, {};
      }
      skipped := set id | id in jobs && id in locked && IsStuck(jobs, id, status, timeout, clock);
      stuckSkips := stuckSkips + |skipped|;
      var list: seq<JobId> := [];
      var rest := jobs.Keys - locked;
      while rest != {}
        invariant rest <= jobs.Keys - locked
        invariant errors == old(errors) && stuckSkips == old(stuckSkips) + |skipped|
        invariant forall id :: id in list <==> IsStuck(jobs, id, status, timeout, clock) && id !in rest && id !in locked
        decreases rest
      {
        var id :| id in rest;
        if jobs[id].status == status && jobs[id].updatedAt < clock - timeout {
          list := list + [id];
        }
        rest := rest - {id};
      }
      stuck := Some(list);
    }

    method Report(a: AgentId) returns (agent: Agent)
      requires a in agents
      ensures agent == Reported(jobs, agents, a)
    {
      var inFlight := set id | id in jobs && InFlight(jobs[id], a);
      assert inFlight == InFlightJobs(jobs, a);
      agent := Agent(a, agents[a].capacity, |inFlight|, agents[a].lastHeartbeatAt);
    }

    // The first of the candidates in the query's order.
    method FirstInOrder(candidates: set<AgentId>) returns (first: AgentId)
      requires candidates != {} && forall a | a in candidates :: a in agents && agents[a].lastHeartbeatAt.Some?
      ensures first in candidates
      ensures forall a | a in candidates :: Precedes(Reported(jobs, agents, first), Reported(jobs, agents, a))
    {
      first :| first in candidates;
      var best := Report(first);
      var rest := candidates - {first};
      while rest != {}
        invariant rest <= candidates && first in candidates && best == Reported(jobs, agents, first)
        invariant forall a | a in candidates && a !in rest :: Precedes(best, Reported(jobs, agents, a))
        decreases rest
      {
        var a :| a in rest;
        var agent := Report(a);
        if !Precedes(best, agent) {
          first, best := a, agent;
        }
        rest := rest - {a};
      }
    }

    // The agents query; None is a store error.
    method GetAvailableAgents(ttl: int) returns (available: Option<seq<Agent>>)
      modifies this`errors
      ensures available.Some? ==> AvailableList(jobs, agents, ttl, clock, available.value)
      ensures available.Some? ==> LeastBusyFirst(jobs, agents, ttl, clock, available.value)
      ensures errors == old(errors) + if available.None? then 1 else 0
    {
      var error, _ := Fault();
      if error {
        return None;
      }
      var list: seq<Agent> := [];
      var all := set a | a in agents && IsAvailable(jobs, agents, a, ttl, clock);
      var rest := all;
      while rest != {}
        invariant TakenAgents(jobs, agents, all, rest, list) && errors == old(errors)
        decreases rest
      {
        var a := FirstInOrder(rest);
        var first := Report(a);
        TakeAgent(jobs, agents, all, rest, list, a);
        list := list + [first];
        rest := rest - {a};
      }
      assert forall a | IsAvailable(jobs, agents, a, ttl, clock) :: a in all;
      ListedAgents(jobs, agents, ttl, clock, list);
      available := Some(list);
    }
  }

  // What the queries promise, in terms of the columns ------------------------------------------

  // The pending query: LIMIT 50 of the unlocked rows by age.
  ghost predicate OldestUnlocked(jobs: JobTable, locked: set<JobId>, batch: seq<Job>) {
    && |batch| <= 50
    && (forall i | 0 <= i < |batch| ::
          && batch[i].id in jobs && jobs[batch[i].id] == batch[i]
          && batch[i].status == Pending && batch[i].id !in locked)
    && (forall i, l | 0 <= i < l < |batch| :: batch[i].id != batch[l].id && batch[i].createdAt <= batch[l].createdAt)
    && (forall id | id in jobs && jobs[id].status == Pending && id !in locked && jobs[id] !in batch ::
          |batch| == 50 && forall i | 0 <= i < |batch| :: batch[i].createdAt <= jobs[id].createdAt)
  }

  lemma UnlockedBatch(jobs: JobTable, locked: set<JobId>, batch: seq<Job>)
    requires PendingBatch(jobs, batch, set id | id in jobs && jobs[id].status == Pending && id in locked)
    ensures OldestUnlocked(jobs, locked, batch)
  {
    forall id | id in jobs && jobs[id].status == Pending && id !in locked && jobs[id] !in batch
      ensures Absent(batch, id)
    {
      assert forall i | 0 <= i < |batch| :: batch[i] in batch;
    }
  }

  // The jobs that count against an agent.
  function Assigned(jobs: JobTable, a: AgentId): set<JobId> {
    set id | id in jobs && jobs[id].agentId == Some(a) && (jobs[id].status == Dispatched || jobs[id].status == Running)
  }

  // WHERE and HAVING.
  predicate Eligible(jobs: JobTable, agents: AgentTable, ttl: int, now: Time, a: AgentId) {
    && a in agents && agents[a].online && agents[a].lastHeartbeatAt.Some?
    && agents[a].lastHeartbeatAt.value > now - ttl && |Assigned(jobs, a)| < agents[a].capacity
  }

  // ORDER BY jobs, then heartbeat, the latest first.
  predicate InOrder(x: Agent, y: Agent) {
    && x.lastHeartbeatAt.Some? && y.lastHeartbeatAt.Some?
    && (x.runningJobs < y.runningJobs
        || (x.runningJobs == y.runningJobs && x.lastHeartbeatAt.value >= y.lastHeartbeatAt.value))
  }

  // The agents query: exactly the eligible agents, each once as it is, in order.
  ghost predicate LeastBusyFirst(jobs: JobTable, agents: AgentTable, ttl: int, now: Time, list: seq<Agent>) {
    && (forall i | 0 <= i < |list| ::
          && Eligible(jobs, agents, ttl, now, list[i].id)
          && list[i].capacity == agents[list[i].id].capacity
          && list[i].lastHeartbeatAt == agents[list[i].id].lastHeartbeatAt
          && list[i].runningJobs == |Assigned(jobs, list[i].id)|)
    && (forall i, l | 0 <= i < l < |list| :: list[i].id != list[l].id && InOrder(list[i], list[l]))
    && (forall a | Eligible(jobs, agents, ttl, now, a) :: exists i :: 0 <= i < |list| && list[i].id == a)
  }

  lemma ListedAgents(jobs: JobTable, agents: AgentTable, ttl: int, now: Time, list: seq<Agent>)
    requires AvailableList(jobs, agents, ttl, now, list)
    ensures LeastBusyFirst(jobs, agents, ttl, now, list)
  {
    assert forall a :: InFlightJobs(jobs, a) == Assigned(jobs, a);
    forall a
      ensures Eligible(jobs, agents, ttl, now, a) <==> IsAvailable(jobs, agents, a, ttl, now)
    {
      assert InFlightJobs(jobs, a) == Assigned(jobs, a);
    }
    forall i, l | 0 <= i < l < |list|
      ensures InOrder(list[i], list[l])
    {
      assert Precedes(list[i], list[l]);
      assert IsAvailable(jobs, agents, list[i].id, ttl, now) && IsAvailable(jobs, agents, list[l].id, ttl, now);
    }
  }

  // The pending query part of the way: `list` holds the oldest pending rows that are not locked,
  // `rest` the others.
  ghost predicate TakenPending(jobs: JobTable, skipped: set<JobId>, rest: set<JobId>, list: seq<Job>) {
    && (forall id | id in rest :: id in jobs && jobs[id].status == Pending)
    && (forall i | 0 <= i < |list| ::
          list[i].id in jobs && jobs[list[i].id] == list[i] && list[i].status == Pending && list[i].id !in rest)
    && (forall i, k | 0 <= i < k < |list| :: list[i].id != list[k].id && list[i].createdAt <= list[k].createdAt)
    && (forall i, id | 0 <= i < |list| && id in rest :: list[i].createdAt <= jobs[id].createdAt)
    && (forall id | id in skipped :: id in jobs && jobs[id].status == Pending && id !in rest && Absent(list, id))
    && (forall id | id in jobs && jobs[id].status == Pending && Absent(list, id) && id !in skipped :: id in rest)
  }

  lemma TakePending(jobs: JobTable, skipped: set<JobId>, rest: set<JobId>, list: seq<Job>, id: JobId)
    requires TakenPending(jobs, skipped, rest, list) && id in rest && jobs[id].id == id
    requires forall other | other in rest :: jobs[id].createdAt <= jobs[other].createdAt
    ensures TakenPending(jobs, skipped, rest - {id}, list + [jobs[id]])
  {
    var longer := list + [jobs[id]];
    forall other | other in jobs && jobs[other].status == Pending && Absent(longer, other) && other !in skipped
      ensures other in rest - {id}
    {
      assert longer[|list|].id == id;
      assert forall i | 0 <= i < |list| :: list[i] == longer[i];
      assert Absent(list, other);
    }
  }

  // The agents query part of the way.
  ghost predicate TakenAgents(jobs: JobTable, agents: AgentTable, all: set<AgentId>, rest: set<AgentId>,
                              list: seq<Agent>) {
    && rest <= all <= agents.Keys
    && (forall a | a in all :: agents[a].lastHeartbeatAt.Some?)
    && (forall i | 0 <= i < |list| ::
          list[i].id in all && list[i].id !in rest && list[i] == Reported(jobs, agents, list[i].id))
    && (forall i, k | 0 <= i < k < |list| :: list[i].id != list[k].id && Precedes(list[i], list[k]))
    && (forall i, a | 0 <= i < |list| && a in rest :: Precedes(list[i], Reported(jobs, agents, a)))
    && (forall a | a in all && a !in rest :: exists i :: 0 <= i < |list| && list[i].id == a)
  }

  lemma TakeAgent(jobs: JobTable, agents: AgentTable, all: set<AgentId>, rest: set<AgentId>, list: seq<Agent>,
                  a: AgentId)
    requires TakenAgents(jobs, agents, all, rest, list) && a in rest
    requires forall b | b in rest :: Precedes(Reported(jobs, agents, a), Reported(jobs, agents, b))
    ensures TakenAgents(jobs, agents, all, rest - {a}, list + [Reported(jobs, agents, a)])
  {
    var longer := list + [Reported(jobs, agents, a)];
    forall b | b in all && b !in rest - {a}
      ensures exists i :: 0 <= i < |longer| && longer[i].id == b
    {
      if b == a {
        assert longer[|list|].id == b;
      } else {
        var i :| 0 <= i < |list| && list[i].id == b;
        assert longer[i].id == b;
      }
    }
  }
}
