/**
 The bounds of ProtocolCapacity and ProtocolOrdered are exact: there are runs in which an agent has
 capacity - 1 + 50 jobs in flight per controller that read a batch of its own. Jobs are created at
 different times; the batches do not overlap because each query skips the rows that the others,
 which are being executed at the same time, have locked.
 */
module ProtocolOvercommit {
  import opened Wrappers
  import opened Runs
  import opened JobTypes
  import opened Jobs
  import opened Selector
  import opened Protocol
  import opened ProtocolTheorems
  import ProtocolCapacity
  import opened ProtocolOrdered

  predicate Reads(step: Step) {
    step.Act? && step.action.ReadPending?
  }

  // Step j reads the job into its batch, and every step from there to i is another read: the
  // queries are being executed at the same time, and j's locks are still held at i.
  predicate LockedBy(steps: seq<Step>, j: nat, i: nat, id: JobId) {
    && j < i < |steps| && (forall l | j <= l <= i :: Reads(steps[l]))
    && steps[j].c != steps[i].c && !Absent(steps[j].action.batch, id)
  }

  // Every skipped row is one that a query of another controller, executed at the same time, has
  // locked.
  ghost predicate Explained(steps: seq<Step>) {
    forall i, id | 0 <= i < |steps| && Reads(steps[i]) && id in steps[i].action.skipped ::
      exists j: nat :: LockedBy(steps, j, i, id)
  }

  lemma ExplainedConcat(a: seq<Step>, b: seq<Step>)
    requires Explained(a) && Explained(b)
    ensures Explained(a + b)
  {
    var all := a + b;
    forall i, id | 0 <= i < |all| && Reads(all[i]) && id in all[i].action.skipped
      ensures exists j: nat :: LockedBy(all, j, i, id)
    {
      if i < |a| {
        assert all[i] == a[i];
        var j: nat :| LockedBy(a, j, i, id);
        assert forall l | j <= l <= i :: all[l] == a[l];
        assert LockedBy(all, j, i, id);
      } else {
        assert all[i] == b[i - |a|];
        var j: nat :| LockedBy(b, j, i - |a|, id);
        assert forall l | j <= l <= i - |a| :: all[|a| + l] == b[l];
        assert forall l | |a| + j <= l <= i :: all[l] == b[l - |a|];
        assert LockedBy(all, |a| + j, i, id);
      }
    }
  }

  // Some steps lead from s to t; in calm weather none of them skips a row.
  ghost predicate Goes(k: Config, calm: bool, s: State, t: State) {
    exists steps :: Leads(Next(k), s, steps, t) && Explained(steps) && (calm ==> NoSkips(steps))
  }

  lemma GoesSame(k: Config, calm: bool, s: State)
    ensures Goes(k, calm, s, s)
  {
    assert Leads(Next(k), s, [], s);
  }

  lemma GoesOn(k: Config, calm: bool, s: State, t: State, step: Step)
    requires Goes(k, calm, s, t) && Enabled(k, t, step) && (Reads(step) ==> step.action.skipped == {})
    ensures Goes(k, calm, s, Apply(k, t, step))
  {
    GoesSame(k, calm, t);
    Onward(k, t, [], t, step);
    assert [] + [step] == [step];
    assert Explained([step]) && NoSkips([step]);
    GoesThrough(k, calm, s, t, Apply(k, t, step));
  }

  lemma GoesThrough(k: Config, calm: bool, s: State, t: State, u: State)
    requires Goes(k, calm, s, t) && Goes(k, calm, t, u)
    ensures Goes(k, calm, s, u)
  {
    var a :| Leads(Next(k), s, a, t) && Explained(a) && (calm ==> NoSkips(a));
    var b :| Leads(Next(k), t, b, u) && Explained(b) && (calm ==> NoSkips(b));
    LeadsConcat(Next(k), s, a, t, b);
    ExplainedConcat(a, b);
    assert Leads(Next(k), s, a + b, u);
  }

  // The situation --------------------------------------------------------------------------------

  const AGENT: AgentId := 0

  function Only(capacity: int, beat: Time): AgentTable {
    map[AGENT := AgentRow(capacity, true, Some(beat))]
  }

  predicate RowAt(j: Job, id: JobId, d: nat) {
    j.id == id && j.createdAt == id + 1 && if id < d then InFlight(j, AGENT) else j.status == Pending
  }

  predicate SameSetting(s: State, t: State) {
    t.agents == s.agents && t.clock == s.clock && t.requests == s.requests
  }

  // One agent and jobs 0..p, created one after the other, of which the first d are in flight.
  ghost predicate Ready(s: State, capacity: int, d: nat, p: nat) {
    && d <= p && s.clock == p && s.agents == Only(capacity, p) && s.requests == map[]
    && (forall id: JobId :: id in s.jobs <==> id < p)
    && (forall id | id in s.jobs :: RowAt(s.jobs[id], id, d))
  }

  function Between(d: nat, p: nat): (r: set<JobId>)
    requires d <= p
    ensures forall id: JobId :: id in r <==> d <= id < p
    ensures |r| == p - d
  {
    if d == p then {} else Between(d, p - 1) + {p - 1}
  }

  lemma ReadyCount(s: State, capacity: int, d: nat, p: nat)
    requires Ready(s, capacity, d, p)
    ensures RunningJobs(s.jobs, AGENT) == d
  {
    forall id
      ensures id in InFlightJobs(s.jobs, AGENT) <==> id in Between(0, d)
    {
      assert id in s.jobs ==> RowAt(s.jobs[id], id, d);
    }
    assert InFlightJobs(s.jobs, AGENT) == Between(0, d);
  }

  lemma ReadyDistinct(s: State, capacity: int, d: nat, p: nat)
    requires Ready(s, capacity, d, p)
    ensures DistinctTimes(s.jobs)
  {
    forall a, b | a in s.jobs && b in s.jobs && s.jobs[a].createdAt == s.jobs[b].createdAt
      ensures a == b
    {
      assert RowAt(s.jobs[a], a, d) && RowAt(s.jobs[b], b, d);
    }
  }

  // Time passes, the agent reports, and a job is created.
  lemma CreateOne(k: Config, calm: bool, s: State, capacity: int, d: nat, p: nat) returns (t: State)
    requires Ready(s, capacity, d, p)
    ensures Ready(t, capacity, d, p + 1) && Goes(k, calm, s, t) && t.controllers == s.controllers
  {
    var u := s.(clock := s.clock + 1, agents := Only(capacity, p + 1));
    Beats(k, calm, s, capacity, u);
    t := Apply(k, u, Create(p));
    GoesOn(k, calm, s, u, Create(p));
    assert forall id | id in s.jobs :: RowAt(s.jobs[id], id, d);
  }

  lemma Beats(k: Config, calm: bool, s: State, capacity: int, t: State)
    requires s.agents == Only(capacity, s.clock) && t == s.(clock := s.clock + 1, agents := Only(capacity, s.clock + 1))
    ensures Goes(k, calm, s, t)
  {
    GoesSame(k, calm, s);
    GoesOn(k, calm, s, s, Tick(1));
    GoesOn(k, calm, s, Apply(k, s, Tick(1)), Heartbeat(AGENT));
    assert Apply(k, Apply(k, s, Tick(1)), Heartbeat(AGENT)).agents == t.agents;
  }

  lemma {:induction false} CreateMany(k: Config, calm: bool, s: State, capacity: int, d: nat, p: nat, n: nat)
    returns (t: State)
    requires Ready(s, capacity, d, p)
    ensures Ready(t, capacity, d, p + n) && Goes(k, calm, s, t) && t.controllers == s.controllers
  {
    if n == 0 {
      t := s;
      GoesSame(k, calm, s);
    } else {
      var u := CreateMany(k, calm, s, capacity, d, p, n - 1);
      t := CreateOne(k, calm, u, capacity, d, p + n - 1);
      GoesThrough(k, calm, s, u, t);
    }
  }

  // Reading a batch ------------------------------------------------------------------------------

  // Jobs from..from + n of the table.
  ghost function Batch(s: State, from: nat, n: nat): seq<Job>
    requires forall i | from <= i < from + n :: i in s.jobs
  {
    seq(n, i requires 0 <= i < n => s.jobs[from + i])
  }

  predicate IsBatch(batch: seq<Job>, from: nat) {
    forall i | 0 <= i < |batch| :: batch[i].id == from + i
  }

  lemma Member(batch: seq<Job>, from: nat, id: JobId)
    requires IsBatch(batch, from) && from <= id < from + |batch|
    ensures !Absent(batch, id)
  {
    assert batch[id - from].id == id;
  }

  // The query, while the pending rows before `from` are locked.
  lemma PendingFrom(s: State, capacity: int, d: nat, p: nat, from: nat, n: nat)
    requires Ready(s, capacity, d, p) && d <= from && from + n <= p
    requires n == BATCH_LIMIT || (n <= BATCH_LIMIT && from + n == p)
    ensures PendingBatch(s.jobs, Batch(s, from, n), Between(d, from)) && IsBatch(Batch(s, from, n), from)
  {
    var batch := Batch(s, from, n);
    forall i | 0 <= i < n
      ensures batch[i].id in s.jobs && s.jobs[batch[i].id] == batch[i] && RowAt(batch[i], from + i, d)
    {
      assert RowAt(s.jobs[from + i], from + i, d);
    }
    forall id | id in Between(d, from)
      ensures id in s.jobs && s.jobs[id].status == Pending && Absent(batch, id)
    {
      assert RowAt(s.jobs[id], id, d);
    }
    forall id | id in s.jobs && s.jobs[id].status == Pending && Absent(batch, id) && id !in Between(d, from)
      ensures n == BATCH_LIMIT && forall i | 0 <= i < n :: batch[i].createdAt <= s.jobs[id].createdAt
    {
      assert RowAt(s.jobs[id], id, d);
      if id < from + n {
        Member(batch, from, id);
      }
    }
  }

  function Seen(capacity: int, d: nat, beat: Time): Agent {
    Agent(AGENT, capacity, d, Some(beat))
  }

  lemma SnapshotOf(k: Config, s: State, capacity: int, d: nat, p: nat)
    requires Ready(s, capacity, d, p) && d < capacity && k.heartbeatTTL > 0
    ensures AvailableList(s.jobs, s.agents, k.heartbeatTTL, s.clock, [Seen(capacity, d, p)])
  {
    ReadyCount(s, capacity, d, p);
    var list := [Seen(capacity, d, p)];
    assert list[0].id == AGENT;
  }

  // The controller has been through `next` jobs of a batch of `size` for the agent.
  predicate Holding(pc: Controller, from: nat, size: nat, next: nat) {
    && pc.Working? && |pc.agents| == 1 && pc.agents[0].id == AGENT && pc.at == Offer && pc.next == next
    && |pc.batch| == size && IsBatch(pc.batch, from)
  }

  predicate OthersSame(s: State, t: State, c: nat) {
    |t.controllers| == |s.controllers| && forall e | 0 <= e < |s.controllers| && e != c ::
        t.controllers[e] == s.controllers[e]
  }

  // The controller has read such a batch.
  predicate HasRead(pc: Controller, from: nat, size: nat) {
    pc.Fetched? && |pc.batch| == size && IsBatch(pc.batch, from)
  }

  // The step that reads such a batch, while the pending rows before it are locked.
  predicate IsRead(step: Step, c: nat, d: nat, from: nat, n: nat)
    requires d <= from
  {
    && Reads(step) && step.c == c && step.action.skipped == Between(d, from)
    && |step.action.batch| == n && IsBatch(step.action.batch, from)
  }

  lemma ReadOne(k: Config, s: State, c: nat, capacity: int, d: nat, p: nat, from: nat, n: nat)
    returns (read: Step, t: State)
    requires Ready(s, capacity, d, p) && d <= from && from + n <= p && n > 0
    requires n == BATCH_LIMIT || (n <= BATCH_LIMIT && from + n == p)
    requires c < |s.controllers| && s.controllers[c].Idle?
    ensures Enabled(k, s, read) && t == Apply(k, s, read) && IsRead(read, c, d, from, n)
    ensures Ready(t, capacity, d, p) && OthersSame(s, t, c) && HasRead(t.controllers[c], from, n)
  {
    PendingFrom(s, capacity, d, p, from, n);
    read := Act(c, ReadPending(Batch(s, from, n), Between(d, from)));
    t := Apply(k, s, read);
  }

  // A controller that has read its batch takes its snapshot of the agents.
  lemma Snap(k: Config, calm: bool, s0: State, s: State, c: nat, capacity: int, d: nat, p: nat, from: nat, n: nat)
    returns (t: State)
    requires Goes(k, calm, s0, s) && Ready(s, capacity, d, p) && d < capacity && k.heartbeatTTL > 0
    requires c < |s.controllers| && HasRead(s.controllers[c], from, n)
    ensures Ready(t, capacity, d, p) && Goes(k, calm, s0, t)
    ensures OthersSame(s, t, c) && Holding(t.controllers[c], from, n, 0)
  {
    SnapshotOf(k, s, capacity, d, p);
    var shot := Act(c, ReadAgents([Seen(capacity, d, p)]));
    t := Apply(k, s, shot);
    GoesOn(k, calm, s0, s, shot);
  }

  // An idle controller reads the pending jobs and takes its snapshot.
  lemma Load(k: Config, calm: bool, s: State, c: nat, capacity: int, d: nat, p: nat) returns (t: State)
    requires Ready(s, capacity, d, p) && d < capacity && k.heartbeatTTL > 0 && d < p <= d + BATCH_LIMIT
    requires c < |s.controllers| && s.controllers[c].Idle?
    ensures Ready(t, capacity, d, p) && Goes(k, calm, s, t)
    ensures OthersSame(s, t, c) && Holding(t.controllers[c], d, p - d, 0)
  {
    var read, u := ReadOne(k, s, c, capacity, d, p, d, p - d);
    GoesSame(k, calm, s);
    GoesOn(k, calm, s, s, read);
    t := Snap(k, calm, s, u, c, capacity, d, p, d, p - d);
  }

  // Claiming it ----------------------------------------------------------------------------------

  lemma ClaimedRow(s: State, u: State, capacity: int, d: nat, p: nat)
    requires Ready(s, capacity, d, p) && d < p && SameSetting(s, u)
    requires u.jobs == CompareAndSet(s.jobs, d, Pending, Dispatched, Some(AGENT), "", s.clock)
    ensures Ready(u, capacity, d + 1, p)
  {
    assert RowAt(s.jobs[d], d, d);
    forall id | id in u.jobs
      ensures RowAt(u.jobs[id], id, d + 1)
    {
      assert id in s.jobs ==> RowAt(s.jobs[id], id, d);
    }
  }

  // The Dispatch call and a good reply.
  lemma Sending(k: Config, calm: bool, s0: State, s: State, c: nat) returns (t: State)
    requires Goes(k, calm, s0, s)
    requires c < |s.controllers| && At(s.controllers[c], Claimed) && s.controllers[c].agents != []
    ensures Goes(k, calm, s0, t) && t.jobs == s.jobs && SameSetting(s, t)
    ensures t.controllers == s.controllers[c := NextJob(s.controllers[c])]
  {
    var u := Apply(k, s, Act(c, CallAgent));
    GoesOn(k, calm, s0, s, Act(c, CallAgent));
    t := Apply(k, u, Act(c, Reply(true)));
    GoesOn(k, calm, s0, u, Act(c, Reply(true)));
  }

  // One job of its batch claimed and sent.
  lemma ClaimOne(k: Config, calm: bool, s: State, c: nat, capacity: int, d: nat, p: nat, from: nat, n: nat)
    returns (t: State)
    requires Ready(s, capacity, d, p) && d < p && from <= d < from + n
    requires c < |s.controllers| && Holding(s.controllers[c], from, n, d - from)
    ensures Ready(t, capacity, d + 1, p) && Goes(k, calm, s, t)
    ensures OthersSame(s, t, c) && Holding(t.controllers[c], from, n, d + 1 - from)
  {
    var pc := s.controllers[c];
    assert Current(pc) == d && RowAt(s.jobs[d], d, d);
    assert Choose(pc.agents) == pc.agents[0];
    var u := Apply(k, s, Act(c, TryClaim));
    GoesSame(k, calm, s);
    GoesOn(k, calm, s, s, Act(c, TryClaim));
    ClaimedRow(s, u, capacity, d, p);
    t := Sending(k, calm, s, u, c);
  }

  // The rest of a batch.
  lemma {:induction false} ClaimRest(k: Config, calm: bool, s: State, c: nat, capacity: int, d: nat, p: nat,
                                     from: nat, n: nat)
    returns (t: State)
    requires Ready(s, capacity, d, p) && from <= d <= from + n <= p
    requires c < |s.controllers| && Holding(s.controllers[c], from, n, d - from)
    ensures Ready(t, capacity, from + n, p) && Goes(k, calm, s, t)
    ensures OthersSame(s, t, c) && Holding(t.controllers[c], from, n, n)
    decreases from + n - d
  {
    if d == from + n {
      t := s;
      GoesSame(k, calm, s);
    } else {
      var u := ClaimOne(k, calm, s, c, capacity, d, p, from, n);
      t := ClaimRest(k, calm, u, c, capacity, d + 1, p, from, n);
      GoesThrough(k, calm, s, u, t);
    }
  }

  // From the end of its batch back to idle.
  lemma Rest(k: Config, calm: bool, s: State, c: nat) returns (t: State)
    requires c < |s.controllers| && s.controllers[c].Working? && s.controllers[c].next >= |s.controllers[c].batch|
    ensures Goes(k, calm, s, t) && t.jobs == s.jobs && SameSetting(s, t)
    ensures t.controllers == s.controllers[c := Idle]
  {
    var s1 := Apply(k, s, Act(c, EndBatch));
    GoesSame(k, calm, s);
    GoesOn(k, calm, s, s, Act(c, EndBatch));
    var s2 := SweepFails(k, calm, s, s1, c, Dispatched);
    t := SweepFails(k, calm, s, s2, c, Running);
  }

  lemma SweepFails(k: Config, calm: bool, s0: State, s: State, c: nat, status: JobStatus) returns (t: State)
    requires Goes(k, calm, s0, s) && c < |s.controllers| && s.controllers[c] == Sweep(status)
    ensures Goes(k, calm, s0, t) && t == s.(controllers := s.controllers[c := AfterSweep(status)])
  {
    t := Apply(k, s, Act(c, ReadStuckFails(status)));
    GoesOn(k, calm, s0, s, Act(c, ReadStuckFails(status)));
  }

  predicate AllIdle(s: State) {
    forall c | 0 <= c < |s.controllers| :: s.controllers[c].Idle?
  }

  // Controller 0 brings one more job to the agent, in a tick of its own.
  lemma OneMore(k: Config, calm: bool, s: State, capacity: int, d: nat) returns (t: State)
    requires Ready(s, capacity, d, d) && AllIdle(s) && |s.controllers| > 0 && d < capacity && k.heartbeatTTL > 0
    ensures Ready(t, capacity, d + 1, d + 1) && AllIdle(t) && |t.controllers| == |s.controllers| && Goes(k, calm, s, t)
  {
    var s1 := CreateOne(k, calm, s, capacity, d, d);
    var s2 := Load(k, calm, s1, 0, capacity, d, d + 1);
    var s3 := ClaimRest(k, calm, s2, 0, capacity, d, d + 1, d, 1);
    t := Rest(k, calm, s3, 0);
    GoesThrough(k, calm, s, s1, s2);
    GoesThrough(k, calm, s, s2, s3);
    GoesThrough(k, calm, s, s3, t);
  }

  lemma {:induction false} FillUp(k: Config, calm: bool, s: State, capacity: int, d: nat) returns (t: State)
    requires Ready(s, capacity, 0, 0) && AllIdle(s) && |s.controllers| > 0 && d <= capacity && k.heartbeatTTL > 0
    ensures Ready(t, capacity, d, d) && AllIdle(t) && |t.controllers| == |s.controllers| && Goes(k, calm, s, t)
  {
    if d == 0 {
      t := s;
      GoesSame(k, calm, s);
    } else {
      var u := FillUp(k, calm, s, capacity, d - 1);
      t := OneMore(k, calm, u, capacity, d - 1);
      GoesThrough(k, calm, s, u, t);
    }
  }

  // The reads of controllers 0..n, each of a batch of its own that skips those before it.
  predicate AreReads(steps: seq<Step>, d: nat) {
    forall i: nat | i < |steps| :: IsRead(steps[i], i, d, d + BATCH_LIMIT * i, BATCH_LIMIT)
  }

  lemma ReadsExplained(steps: seq<Step>, d: nat)
    requires AreReads(steps, d)
    ensures Explained(steps) && (|steps| <= 1 ==> NoSkips(steps))
  {
    forall i, id | 0 <= i < |steps| && Reads(steps[i]) && id in steps[i].action.skipped
      ensures exists j: nat :: LockedBy(steps, j, i, id)
    {
      assert IsRead(steps[i], i, d, d + BATCH_LIMIT * i, BATCH_LIMIT);
      var j := (id - d) / BATCH_LIMIT;
      assert forall l: nat | l < |steps| :: IsRead(steps[l], l, d, d + BATCH_LIMIT * l, BATCH_LIMIT);
      Member(steps[j].action.batch, d + BATCH_LIMIT * j, id);
      assert LockedBy(steps, j, i, id);
    }
  }

  // The first n controllers have read a batch each.
  predicate AllRead(s: State, d: nat, n: nat) {
    n <= |s.controllers|
    && (forall c | 0 <= c < n :: HasRead(s.controllers[c], d + BATCH_LIMIT * c, BATCH_LIMIT))
    && (forall c | n <= c < |s.controllers| :: s.controllers[c].Idle?)
  }

  lemma MoreReads(steps: seq<Step>, d: nat, read: Step)
    requires AreReads(steps, d) && IsRead(read, |steps|, d, d + BATCH_LIMIT * |steps|, BATCH_LIMIT)
    ensures AreReads(steps + [read], d)
  {
    var all := steps + [read];
    forall i: nat | i < |all|
      ensures IsRead(all[i], i, d, d + BATCH_LIMIT * i, BATCH_LIMIT)
    {
      assert i < |steps| ==> all[i] == steps[i] && IsRead(steps[i], i, d, d + BATCH_LIMIT * i, BATCH_LIMIT);
    }
  }

  lemma MoreHaveRead(s: State, t: State, d: nat, n: nat)
    requires AllRead(s, d, n) && n < |s.controllers| && OthersSame(s, t, n)
    requires HasRead(t.controllers[n], d + BATCH_LIMIT * n, BATCH_LIMIT)
    ensures AllRead(t, d, n + 1)
  {
  }

  // Controller n reads as well.
  lemma ReadToo(k: Config, s: State, front: seq<Step>, u: State, capacity: int, d: nat, n: nat, all: nat)
    returns (steps: seq<Step>, t: State)
    requires Led(Next(k), s, front, u) && |front| == n && AreReads(front, d)
    requires Ready(u, capacity, d, d + BATCH_LIMIT * all) && AllRead(u, d, n) && n < all <= |u.controllers|
    ensures Led(Next(k), s, steps, t) && |steps| == n + 1 && AreReads(steps, d)
    ensures Ready(t, capacity, d, d + BATCH_LIMIT * all) && AllRead(t, d, n + 1) && |t.controllers| == |u.controllers|
  {
    var read;
    read, t := ReadOne(k, u, n, capacity, d, d + BATCH_LIMIT * all, d + BATCH_LIMIT * n, BATCH_LIMIT);
    steps := front + [read];
    LedOnward(k, s, front, u, read);
    MoreReads(front, d, read);
    MoreHaveRead(u, t, d, n);
  }

  lemma {:induction false} ReadAll(k: Config, s: State, capacity: int, d: nat, n: nat, all: nat)
    returns (steps: seq<Step>, t: State)
    requires Ready(s, capacity, d, d + BATCH_LIMIT * all) && AllIdle(s) && n <= all <= |s.controllers|
    ensures Led(Next(k), s, steps, t) && |steps| == n && AreReads(steps, d)
    ensures Ready(t, capacity, d, d + BATCH_LIMIT * all) && AllRead(t, d, n) && |t.controllers| == |s.controllers|
  {
    steps, t := [], s;
    if n == 0 {
      LedLeads(Next(k), s, [], s);
    } else {
      steps, t := ReadAll(k, s, capacity, d, n - 1, all);
      steps, t := ReadToo(k, s, steps, t, capacity, d, n - 1, all);
    }
  }

  // The first n controllers hold a batch each, on a snapshot with d jobs in flight; up to `all`
  // they have read theirs.
  predicate Loaded(s: State, d: nat, n: nat, all: nat) {
    n <= all <= |s.controllers|
    && (forall c | 0 <= c < n :: Holding(s.controllers[c], d + BATCH_LIMIT * c, BATCH_LIMIT, 0))
    && (forall c | n <= c < all :: HasRead(s.controllers[c], d + BATCH_LIMIT * c, BATCH_LIMIT))
  }

  lemma {:induction false} SnapAll(k: Config, calm: bool, s: State, capacity: int, d: nat, n: nat, all: nat)
    returns (t: State)
    requires Ready(s, capacity, d, d + BATCH_LIMIT * all) && AllRead(s, d, all) && n <= all
    requires d < capacity && k.heartbeatTTL > 0
    ensures Ready(t, capacity, d, d + BATCH_LIMIT * all) && Loaded(t, d, n, all)
    ensures |t.controllers| == |s.controllers| && Goes(k, calm, s, t)
  {
    if n == 0 {
      t := s;
      GoesSame(k, calm, s);
    } else {
      var u := SnapAll(k, calm, s, capacity, d, n - 1, all);
      t := Snap(k, calm, s, u, n - 1, capacity, d, d + BATCH_LIMIT * all, d + BATCH_LIMIT * (n - 1), BATCH_LIMIT);
    }
  }

  // All of them read at the same time, and take their snapshots afterwards.
  lemma LoadAll(k: Config, calm: bool, s: State, capacity: int, d: nat, all: nat) returns (t: State)
    requires Ready(s, capacity, d, d + BATCH_LIMIT * all) && AllIdle(s) && all <= |s.controllers|
    requires d < capacity && k.heartbeatTTL > 0 && (calm ==> all <= 1)
    ensures Ready(t, capacity, d, d + BATCH_LIMIT * all) && Loaded(t, d, all, all)
    ensures |t.controllers| == |s.controllers| && Goes(k, calm, s, t)
  {
    var steps, u := ReadAll(k, s, capacity, d, all, all);
    ReadsExplained(steps, d);
    LedLeads(Next(k), s, steps, u);
    assert Goes(k, calm, s, u);
    t := SnapAll(k, calm, u, capacity, d, all, all);
    GoesThrough(k, calm, s, u, t);
  }

  // Controllers n..all still hold their whole batch.
  predicate StillLoaded(s: State, d: nat, n: nat, all: nat) {
    all <= |s.controllers|
    && forall c | n <= c < all :: Holding(s.controllers[c], d + BATCH_LIMIT * c, BATCH_LIMIT, 0)
  }

  lemma {:induction false} ClaimAll(k: Config, calm: bool, s: State, capacity: int, d: nat, n: nat, all: nat)
    returns (t: State)
    requires Ready(s, capacity, d, d + BATCH_LIMIT * all) && StillLoaded(s, d, 0, all) && n <= all
    ensures Ready(t, capacity, d + BATCH_LIMIT * n, d + BATCH_LIMIT * all) && StillLoaded(t, d, n, all)
    ensures |t.controllers| == |s.controllers| && Goes(k, calm, s, t)
  {
    if n == 0 {
      t := s;
      GoesSame(k, calm, s);
    } else {
      var u := ClaimAll(k, calm, s, capacity, d, n - 1, all);
      var from := d + BATCH_LIMIT * (n - 1);
      t := ClaimRest(k, calm, u, n - 1, capacity, from, d + BATCH_LIMIT * all, from, BATCH_LIMIT);
      GoesThrough(k, calm, s, u, t);
    }
  }

  function Empty(controllers: nat): State {
    State(0, map[], map[], seq(controllers, _ => Idle), map[],
          History(multiset{}, map[], multiset{}, {}, {}, map[], map[]))
  }

  // An agent registers and reports.
  lemma Online(k: Config, calm: bool, capacity: int, controllers: nat) returns (t: State)
    requires capacity >= 1
    ensures Init(Empty(controllers)) && Goes(k, calm, Empty(controllers), t)
    ensures Ready(t, capacity, 0, 0) && AllIdle(t) && |t.controllers| == controllers
  {
    var s := Empty(controllers);
    assert forall c | 0 <= c < controllers :: s.controllers[c] == Idle;
    assert Init(s);
    var u := Apply(k, s, Register(AGENT, capacity));
    GoesSame(k, calm, s);
    GoesOn(k, calm, s, s, Register(AGENT, capacity));
    t := Apply(k, u, Heartbeat(AGENT));
    GoesOn(k, calm, s, u, Heartbeat(AGENT));
    assert t.agents == Only(capacity, 0);
  }

  // `busy` of the controllers read a batch of their own, and then claim all of it.
  lemma AllAtOnce(k: Config, calm: bool, s: State, capacity: int, busy: nat) returns (t: State)
    requires capacity >= 1 && k.heartbeatTTL > 0 && (calm ==> busy == 1)
    requires Ready(s, capacity, capacity - 1, capacity - 1) && AllIdle(s) && busy <= |s.controllers|
    ensures Goes(k, calm, s, t)
      && Ready(t, capacity, capacity - 1 + BATCH_LIMIT * busy, capacity - 1 + BATCH_LIMIT * busy)
  {
    var d := capacity - 1;
    var s1 := CreateMany(k, calm, s, capacity, d, d, BATCH_LIMIT * busy);
    var s2 := LoadAll(k, calm, s1, capacity, d, busy);
    t := ClaimAll(k, calm, s2, capacity, d, busy, busy);
    GoesThrough(k, calm, s, s1, s2);
    GoesThrough(k, calm, s, s2, t);
  }

  // With `busy` of the controllers reading a batch of their own, an agent of capacity K comes to
  // have K - 1 + 50 * busy jobs in flight; with one of them, without any skipped row, and in any
  // case with none but those that the queries executed at the same time have locked.
  lemma OverCommitReached(k: Config, calm: bool, capacity: int, controllers: nat, busy: nat)
    returns (s: State, steps: seq<Step>, t: State)
    requires capacity >= 1 && 1 <= busy <= controllers && k.heartbeatTTL > 0 && (calm ==> busy == 1)
    ensures Init(s) && Leads(Next(k), s, steps, t) && |s.controllers| == controllers
    ensures Explained(steps) && (calm ==> NoSkips(steps))
    ensures AGENT in t.agents && t.agents[AGENT].capacity == capacity && DistinctTimes(t.jobs)
    ensures RunningJobs(t.jobs, AGENT) == capacity - 1 + BATCH_LIMIT * busy
  {
    s := Empty(controllers);
    t := Overcommitted(k, calm, capacity, controllers, busy);
    steps := StepsOf(k, calm, s, t);
    AllInFlight(t, capacity, capacity - 1 + BATCH_LIMIT * busy);
  }

  lemma Overcommitted(k: Config, calm: bool, capacity: int, controllers: nat, busy: nat) returns (t: State)
    requires capacity >= 1 && 1 <= busy <= controllers && k.heartbeatTTL > 0 && (calm ==> busy == 1)
    ensures Init(Empty(controllers)) && Goes(k, calm, Empty(controllers), t)
    ensures Ready(t, capacity, capacity - 1 + BATCH_LIMIT * busy, capacity - 1 + BATCH_LIMIT * busy)
  {
    var s := Empty(controllers);
    var s1 := Online(k, calm, capacity, controllers);
    var s2 := FillUp(k, calm, s1, capacity, capacity - 1);
    t := AllAtOnce(k, calm, s2, capacity, busy);
    GoesThrough(k, calm, s, s1, s2);
    GoesThrough(k, calm, s, s2, t);
  }

  lemma AllInFlight(t: State, capacity: int, n: nat)
    requires Ready(t, capacity, n, n)
    ensures AGENT in t.agents && t.agents[AGENT].capacity == capacity && DistinctTimes(t.jobs)
    ensures RunningJobs(t.jobs, AGENT) == n
  {
    ReadyCount(t, capacity, n, n);
    ReadyDistinct(t, capacity, n, n);
  }

  lemma StepsOf(k: Config, calm: bool, s: State, t: State) returns (steps: seq<Step>)
    requires Goes(k, calm, s, t)
    ensures Leads(Next(k), s, steps, t) && Explained(steps) && (calm ==> NoSkips(steps))
  {
    steps :| Leads(Next(k), s, steps, t) && Explained(steps) && (calm ==> NoSkips(steps));
  }

  // The exact bounds ------------------------------------------------------------------------------

  // In every run of so many controllers, agents of this capacity stay within n jobs in flight; if
  // `explained`, in those in which only rows are skipped that a query executed at the same time
  // has locked.
  ghost predicate StaysWithin(k: Config, explained: bool, capacity: int, controllers: nat, n: int) {
    forall s, steps, t, a |
      Init(s) && Leads(Next(k), s, steps, t) && |s.controllers| == controllers && (explained ==> Explained(steps))
      && a in t.agents && t.agents[a].capacity == capacity :: RunningJobs(t.jobs, a) <= n
  }

  // The same for the runs without a skipped row and with distinct creation times.
  ghost predicate StaysWithinOrdered(k: Config, capacity: int, controllers: nat, n: int) {
    forall s, steps, t, a |
      Init(s) && Leads(Next(k), s, steps, t) && |s.controllers| == controllers
      && NoSkips(steps) && DistinctTimes(t.jobs)
      && a in t.agents && t.agents[a].capacity == capacity :: RunningJobs(t.jobs, a) <= n
  }

  // The best bound on the jobs in flight for an agent of capacity K is K - 1 + 50 per controller,
  // whichever rows queries may skip.
  lemma OverCommitExact(k: Config, explained: bool, capacity: int, controllers: nat, n: int)
    requires capacity >= 1 && controllers >= 1 && k.heartbeatTTL > 0
    ensures StaysWithin(k, explained, capacity, controllers, n) <==> n >= capacity - 1 + BATCH_LIMIT * controllers
  {
    var s, steps, t := OverCommitReached(k, false, capacity, controllers, controllers);
    if n >= capacity - 1 + BATCH_LIMIT * controllers {
      forall s, steps, t, a |
        Init(s) && Leads(Next(k), s, steps, t) && |s.controllers| == controllers && (explained ==> Explained(steps))
        && a in t.agents && t.agents[a].capacity == capacity
        ensures RunningJobs(t.jobs, a) <= n
      {
        LeadsIsRun(k, s, steps, t);
        ProtocolCapacity.OverCommitBound(k, s, steps, |steps|, a);
      }
    }
  }

  // Without skipped rows and with distinct creation times it is K - 1 + 50 in all.
  lemma OrderedExact(k: Config, capacity: int, controllers: nat, n: int)
    requires capacity >= 1 && controllers >= 1 && k.heartbeatTTL > 0
    ensures StaysWithinOrdered(k, capacity, controllers, n) <==> n >= capacity - 1 + BATCH_LIMIT
  {
    var s, steps, t := OverCommitReached(k, true, capacity, controllers, 1);
    if n >= capacity - 1 + BATCH_LIMIT {
      forall s, steps, t, a |
        Init(s) && Leads(Next(k), s, steps, t) && |s.controllers| == controllers
        && NoSkips(steps) && DistinctTimes(t.jobs)
        && a in t.agents && t.agents[a].capacity == capacity
        ensures RunningJobs(t.jobs, a) <= n
      {
        OrderedBound(k, s, steps, t, a);
      }
    }
  }

  lemma LeadsIsRun(k: Config, s: State, steps: seq<Step>, t: State)
    requires Leads(Next(k), s, steps, t)
    ensures IsRun(k, s, steps) && StateAt(k, s, steps, |steps|) == t
  {
    assert steps[..|steps|] == steps;
  }

  // Runs that leave the documented table ----------------------------------------------------------

  // A request is served.
  lemma Served(k: Config, s: State, before: seq<Step>, t: State, req: Request) returns (steps: seq<Step>, u: State)
    requires Leads(Next(k), s, before, t) && t.requests == map[] && CanBegin(t, req)
    ensures steps == before + [Begin(0, req)] + [Finish(0)] && Leads(Next(k), s, steps, u)
    ensures Leads(Next(k), s, before + [Begin(0, req)], t.(requests := map[0 := req]))
    ensures u.jobs == Written(t.(requests := map[0 := req]), req).jobs
    ensures u.hist == Written(t.(requests := map[0 := req]), req).hist
  {
    var mid := Apply(k, t, Begin(0, req));
    Onward(k, s, before, t, Begin(0, req));
    Onward(k, s, before + [Begin(0, req)], mid, Finish(0));
    steps, u := before + [Begin(0, req)] + [Finish(0)], Apply(k, mid, Finish(0));
  }

  // A run in which a job succeeds.
  lemma SuccessRun(k: Config) returns (s: State, steps: seq<Step>)
    requires k.heartbeatTTL > 0
    ensures Init(s) && IsRun(k, s, steps) && Matches(StateAt(k, s, steps, |steps|).jobs, 0, Success)
  {
    s := Empty(1);
    var s1 := Online(k, true, 1, 1);
    var s2 := FillUp(k, true, s1, 1, 1);
    GoesThrough(k, true, s, s1, s2);
    var before := StepsOf(k, true, s, s2);
    assert RowAt(s2.jobs[0], 0, 1);
    var t;
    steps, t := Served(k, s, before, s2, ResultRead(0, AGENT, Success, map[]));
    LeadsIsRun(k, s, steps, t);
  }

  // A run of three steps, the last of which cancels job 0 while it is pending.
  ghost predicate CancelsPending(k: Config, s: State, steps: seq<Step>) {
    && Init(s) && IsRun(k, s, steps) && |steps| == 3 && CancelsPendingAt(k, s, steps, 2, 0)
    && !ValidPath(Trail(StateAt(k, s, steps, 3), 0))
  }

  // There is one, and the job's history leaves the table.
  lemma CancelRun(k: Config) returns (s: State, steps: seq<Step>)
    ensures CancelsPending(k, s, steps)
  {
    s := Empty(0);
    var created := Created(k);
    var t;
    steps, t := Served(k, s, [Create(0)], created, CancelRead(0));
    CancelTrail(created, t);
    CancelPoint(k, s, created, steps, t);
  }

  // An empty system without controllers, and a job.
  lemma Created(k: Config) returns (t: State)
    ensures Init(Empty(0)) && Leads(Next(k), Empty(0), [Create(0)], t)
    ensures t.requests == map[] && Matches(t.jobs, 0, Pending) && 0 in t.hist.trail && t.hist.trail[0] == [Pending]
  {
    var s := Empty(0);
    t := Apply(k, s, Create(0));
    Onward(k, s, [], s, Create(0));
    assert [] + [Create(0)] == [Create(0)];
  }

  lemma CancelPoint(k: Config, s: State, created: State, steps: seq<Step>, t: State)
    requires Init(s) && Matches(created.jobs, 0, Pending) && Leads(Next(k), s, steps, t)
    requires steps == [Create(0)] + [Begin(0, CancelRead(0))] + [Finish(0)] && !ValidPath(Trail(t, 0))
    requires Leads(Next(k), s, [Create(0)] + [Begin(0, CancelRead(0))], created.(requests := map[0 := CancelRead(0)]))
    ensures CancelsPending(k, s, steps)
  {
    LeadsIsRun(k, s, steps, t);
    LeadsPrefix(k, s, [Create(0)] + [Begin(0, CancelRead(0))], created.(requests := map[0 := CancelRead(0)]), steps);
  }

  lemma CancelTrail(s: State, t: State)
    requires 0 in s.jobs && s.jobs[0].status == Pending && 0 in s.hist.trail && s.hist.trail[0] == [Pending]
    requires t.hist == Cancel(s.(requests := map[0 := CancelRead(0)]), 0).hist
    ensures !ValidPath(Trail(t, 0))
  {
    var path := Trail(t, 0);
    assert path == [Pending, Cancelled];
    assert !CanTransitionTo(path[0], path[1]);
  }

  lemma LeadsPrefix(k: Config, s: State, steps: seq<Step>, t: State, longer: seq<Step>)
    requires Leads(Next(k), s, steps, t) && IsRun(k, s, longer) && steps <= longer
    ensures StateAt(k, s, longer, |steps|) == t
  {
    assert longer[..|steps|] == steps;
  }
}
