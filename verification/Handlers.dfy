/**
 api/internal/handler/jobs.go: each handler reads the job row, decides, and writes in a second
 statement. As in module Reconcilers, everyone else may run in between, and the reads and writes
 are shown to be steps of request `r` in the run of the whole system.
 */
module Handlers {
  import opened Wrappers
  import opened Runs
  import opened JobTypes
  import opened Jobs
  import opened JobLogs
  import opened Protocol
  import opened ProtocolInvariant
  import opened Database

  // HTTP status codes.
  const CREATED := 201
  const NO_CONTENT := 204
  const BAD_REQUEST := 400
  const UNAUTHORIZED := 401
  const FORBIDDEN := 403
  const NOT_FOUND := 404
  const CONFLICT := 409
  const INTERNAL := 500

  predicate OfRequest(step: Step, r: nat) {
    match step
    case Begin(n, _) => n == r
    case Finish(n) => n == r
    case Drop(n) => n == r
    case _ => false
  }

  predicate ByOtherRequests(steps: seq<Step>, r: nat) {
    forall i | 0 <= i < |steps| :: !OfRequest(steps[i], r)
  }

  predicate SameRequest(r: nat, s: State, t: State) {
    (r in s.requests <==> r in t.requests) && (r in s.requests ==> t.requests[r] == s.requests[r])
  }

  lemma RequestFrame(k: Config, r: nat, s: State, step: Step)
    requires Enabled(k, s, step) && !OfRequest(step, r)
    ensures SameRequest(r, s, Apply(k, s, step))
  {
    if step.Act? {
      EffectFrame(s, s.controllers[step.c], step.action);
    }
  }

  lemma {:induction false} OthersServing(k: Config, r: nat, s: State, steps: seq<Step>, t: State)
    requires Leads(Next(k), s, steps, t) && ByOtherRequests(steps, r)
    ensures SameRequest(r, s, t)
    decreases |steps|
  {
    if steps != [] {
      var n := |steps| - 1;
      var u := After(Next(k), s, steps[..n]).value;
      OthersServing(k, r, s, steps[..n], u);
      RequestFrame(k, r, u, steps[n]);
    }
  }

  // The decoded body of a result.
  datatype ResultBody = ResultBody(status: JobStatus, facts: Facts)

  predicate Owns(s: State, job: JobId, agent: AgentId) {
    job in s.jobs && s.jobs[job].agentId == Some(agent)
  }

  predicate Missing(s: State, id: Option<JobId>) {
    id.Some? && id.value !in s.jobs
  }

  predicate Ended(s: State, id: Option<JobId>) {
    id.Some? && id.value in s.jobs && IsTerminal(s.jobs[id.value].status)
  }

  predicate OwnedBy(s: State, id: Option<JobId>, agent: Option<AgentId>) {
    id.Some? && agent.Some? && Owns(s, id.value, agent.value)
  }

  predicate Foreign(s: State, id: Option<JobId>, agent: Option<AgentId>) {
    id.Some? && agent.Some? && id.value in s.jobs && !Owns(s, id.value, agent.value)
  }

  // The row of a job that a request has ended: a reason that was not given stays, and so does
  // every other row.
  predicate RowEnded(before: JobTable, after: JobTable, id: JobId, status: JobStatus, reason: Option<string>,
                     now: Time) {
    && id in before
    && var was := before[id];
       after == before[id := Job(was.id, status, was.agentId, if reason.Some? then reason else was.failureReason,
                                 was.createdAt, now, was.startedAt, Some(now), was.facts)]
  }

  // The row of a job that was given facts.
  predicate RowWithFacts(before: JobTable, after: JobTable, id: JobId, facts: Facts, now: Time) {
    && id in before
    && var was := before[id];
       after == before[id := Job(was.id, was.status, was.agentId, was.failureReason, was.createdAt, now,
                                 was.startedAt, was.endedAt, facts)]
  }

  class Api {
    const store: Store
    const logs: Logs
    ghost const k: Config
    ghost const r: nat
    ghost const origin: State
    ghost var run: seq<Step>
    ghost var w: State

    constructor (store: Store, logs: Logs, ghost k: Config, ghost r: nat, ghost origin: State, ghost run: seq<Step>,
                 ghost w: State)
      requires w.jobs == store.jobs && w.agents == store.agents && w.clock == store.clock
      requires Init(origin) && Led(Next(k), origin, run, w) && r !in w.requests
      ensures this.store == store && this.logs == logs && this.k == k && this.r == r
      ensures this.origin == origin && this.run == run && this.w == w
      ensures Agrees() && Free()
    {
      this.store, this.logs, this.k, this.r := store, logs, k, r;
      this.origin, this.run, this.w := origin, run, w;
    }

    ghost predicate Agrees()
      reads this, store
    {
      && w.jobs == store.jobs && w.agents == store.agents && w.clock == store.clock
      && Init(origin) && Led(Next(k), origin, run, w)
    }

    ghost predicate Free()
      reads this
    {
      r !in w.requests
    }

    ghost predicate Serving(req: Request)
      reads this
    {
      r in w.requests && w.requests[r] == req
    }

    // Errors that this request has seen.
    ghost function Errors(): nat
      reads store, logs
    {
      store.errors + logs.errors
    }

    // Anything that others may have done by now, to the job rows and to the log lines. Callers
    // know the contract and not the body.
    method Interfere()
      requires Agrees()
      modifies this`run, this`w, store, logs
      ensures Agrees() && old(run) <= run && ByOtherRequests(run[|old(run)|..], r)
      ensures Grown(old(logs.rows), logs.rows)
      ensures store.errors == old(store.errors) && logs.errors == old(logs.errors)
    {
    }

    method Yield()
      requires Agrees()
      modifies this`run, this`w, store, logs
      ensures Agrees() && SameRequest(r, old(w), w) && old(run) <= run
      ensures Grown(old(logs.rows), logs.rows)
      ensures store.errors == old(store.errors) && logs.errors == old(logs.errors)
    {
      ghost var s, before := w, run;
      Interfere();
      ghost var added := run[|before|..];
      assert run == before + added;
      LedLeads(Next(k), origin, before, s);
      LedLeads(Next(k), origin, run, w);
      LeadsConcat(Next(k), origin, before, s, added);
      OthersServing(k, r, s, added, w);
    }

    ghost method Took(step: Step)
      requires Led(Next(k), origin, run, w) && Enabled(k, w, step)
      modifies this`run, this`w
      ensures w == Apply(k, old(w), step) && run == old(run) + [step] && Led(Next(k), origin, run, w)
    {
      LedOnward(k, origin, run, w, step);
      run := run + [step];
      w := Apply(k, w, step);
    }

    // A request that has read the row of a job finds it again.
    lemma RowExists(id: JobId)
      requires Agrees() && r in w.requests && w.requests[r].job == id
      ensures id in w.jobs
      ensures w.requests[r].ResultRead? ==> IsTerminal(w.requests[r].result)
    {
      LedLeads(Next(k), origin, run, w);
      InitOk(k, origin);
      RunKeeps(k, origin, run, w);
      assert ReqOk(w, w.requests[r]) && JobOk(w, id);
    }

    // GetJob, answered from state `read`.
    method GetJob(id: JobId) returns (found: Result<Option<Job>>, ghost read: State)
      requires Agrees() && Free()
      modifies this`run, this`w, store, logs
      ensures Agrees() && Free() && read == w && Passed(Next(k), origin, old(run), run, read)
      ensures found.Ok? ==> found.value == if id in read.jobs then Some(read.jobs[id]) else None
      ensures Grown(old(logs.rows), logs.rows)
      ensures Errors() == old(Errors()) + if found.Err? then 1 else 0
    {
      ghost var start := run;
      Yield();
      read := w;
      PassedNow(Next(k), origin, start, run, read);
      found := store.GetJob(id);
    }

    // respondStoreErr
    static function StoreError(found: Result<Option<Job>>): int {
      if found.Err? then INTERNAL else NOT_FOUND
    }

    // CreateJob; body is None when it cannot be decoded, and template tells what GetJobTemplate
    // found. A job that could not be confirmed may still have been created.
    method CreateJob(body: Option<nat>, template: Result<bool>) returns (code: int, ghost written: State)
      requires Agrees()
      modifies this`run, this`w, store, logs
      ensures Agrees() && Passed(Next(k), origin, old(run), run, written)
      ensures code == BAD_REQUEST <==> body.None?
      ensures code == NOT_FOUND <==> body.Some? && template.Ok? && !template.value
      ensures code == INTERNAL <==> body.Some? && (template.Err? || store.errors > old(store.errors))
      ensures code == CREATED ==> exists id ::
          && id !in written.jobs
          && w.jobs == written.jobs[id := Job(id, Pending, None, None, written.clock, written.clock, None, None, map[])]
      ensures code in {BAD_REQUEST, NOT_FOUND, INTERNAL, CREATED}
      ensures code in {BAD_REQUEST, NOT_FOUND} ==> w == old(w)
    {
      ghost var start := run;
      written := w;
      PassedNow(Next(k), origin, start, run, written);
      if body.None? {
        code := BAD_REQUEST;
        return;
      }
      if template.Err? || !template.value {
        code := if template.Err? then INTERNAL else NOT_FOUND;
        return;
      }
      Yield();
      written := w;
      ghost var mid := run;
      PassedNow(Next(k), origin, start, mid, written);
      var id, error;
      ghost var applied;
      id, error, applied := store.CreateJob();
      if applied {
        Took(Create(id));
      }
      PassedLater(Next(k), origin, start, mid, run, written);
      code := if error then INTERNAL else CREATED;
    }

    // CancelJob. `read` is the state its decision was based on, `written` the one its write met.
    method CancelJob(id: Option<JobId>) returns (code: int, ghost read: State, ghost written: State)
      requires Agrees() && Free()
      modifies this`run, this`w, store, logs
      ensures Agrees() && Free()
      ensures Passed(Next(k), origin, old(run), run, read) && Passed(Next(k), origin, old(run), run, written)
      ensures code == BAD_REQUEST <==> id.None?
      ensures code == INTERNAL <==> Errors() > old(Errors())
      ensures code == NOT_FOUND ==> Missing(read, id) && w == read
      ensures code == CONFLICT ==> Ended(read, id) && w == read
      ensures code == NO_CONTENT ==>
                && id.Some? && id.value in read.jobs && !Ended(read, id)
                && RowEnded(written.jobs, w.jobs, id.value, Cancelled, Some("cancelled by user"), written.clock)
                && (Matches(written.jobs, id.value, Pending) ==> id.value in w.hist.cancelledPending)
      ensures code in {BAD_REQUEST, NOT_FOUND, CONFLICT, INTERNAL, NO_CONTENT}
    {
      ghost var start := run;
      read, written := w, w;
      PassedNow(Next(k), origin, start, run, w);
      if id.None? {
        return BAD_REQUEST, read, written;
      }
      var found;
      found, read := GetJob(id.value);
      ghost var mid := run;
      PassedLater(Next(k), origin, start, start, mid, written);
      if found.Err? || found.value.None? {
        return StoreError(found), read, written;
      }
      if IsTerminal(found.value.value.status) {
        return CONFLICT, read, written;
      }
      Took(Begin(r, CancelRead(id.value)));
      var error;
      error, written := WriteCancel(id.value, start);
      PassedLater(Next(k), origin, start, mid, run, read);
      code := if error then INTERNAL else NO_CONTENT;
    }

    // UpdateJobStatus to cancelled.
    method WriteCancel(id: JobId, ghost start: seq<Step>) returns (error: bool, ghost written: State)
      requires Agrees() && Serving(CancelRead(id)) && start <= run
      modifies this`run, this`w, store, logs
      ensures Agrees() && Free() && old(run) <= run && Passed(Next(k), origin, start, run, written)
      ensures Errors() == old(Errors()) + if error then 1 else 0
      ensures !error ==>
                && RowEnded(written.jobs, w.jobs, id, Cancelled, Some("cancelled by user"), written.clock)
                && (Matches(written.jobs, id, Pending) ==> id in w.hist.cancelledPending)
    {
      Yield();
      written := w;
      RowExists(id);
      ghost var mid := run;
      PassedNow(Next(k), origin, start, mid, written);
      ghost var applied;
      error, applied := store.UpdateJobStatus(id, Cancelled, None, Some(CANCEL_REASON));
      if applied {
        Took(Finish(r));
      } else {
        Took(Drop(r));
      }
      PassedLater(Next(k), origin, start, mid, run, written);
    }

    // The reads and checks that AgentPostLogs and AgentPostResult share; 0 is a pass.
    method CheckOwner(agent: Option<AgentId>, id: Option<JobId>) returns (code: int, ghost read: State)
      requires Agrees() && Free()
      modifies this`run, this`w, store, logs
      ensures Agrees() && Free() && read == w && Passed(Next(k), origin, old(run), run, read)
      ensures Grown(old(logs.rows), logs.rows)
      ensures Errors() == old(Errors()) + if code == INTERNAL then 1 else 0
      ensures code == UNAUTHORIZED <==> agent.None?
      ensures code == BAD_REQUEST <==> agent.Some? && id.None?
      ensures code == NOT_FOUND ==> Missing(read, id)
      ensures code == FORBIDDEN ==> Foreign(read, id, agent)
      ensures code == 0 ==> OwnedBy(read, id, agent)
      ensures code in {UNAUTHORIZED, BAD_REQUEST, NOT_FOUND, FORBIDDEN, INTERNAL, 0}
    {
      read := w;
      PassedNow(Next(k), origin, run, run, w);
      if agent.None? {
        return UNAUTHORIZED, read;
      }
      if id.None? {
        return BAD_REQUEST, read;
      }
      var found;
      found, read := GetJob(id.value);
      if found.Err? || found.value.None? {
        return StoreError(found), read;
      }
      var job := found.value.value;
      if job.agentId.None? || job.agentId.value != agent.value {
        return FORBIDDEN, read;
      }
      code := 0;
    }

    // AgentPostResult; body is None when it cannot be decoded. `read` is the state of the owner
    // check, `written` the one the write met, `done` the one it left after the steps `due`, and
    // `met` the one the write of the facts met. An error of that write is not reported.
    method AgentPostResult(agent: Option<AgentId>, id: Option<JobId>, body: Option<ResultBody>)
      returns (code: int, ghost read: State, ghost written: State, ghost done: State, ghost due: seq<Step>,
               ghost met: State)
      requires Agrees() && Free()
      modifies this`run, this`w, store, logs
      ensures Agrees() && Free()
      ensures Passed(Next(k), origin, old(run), run, read)
      ensures code == UNAUTHORIZED <==> agent.None?
      ensures code == NOT_FOUND ==> Missing(read, id) && w == read
      ensures code == FORBIDDEN ==> Foreign(read, id, agent) && w == read
      ensures code == BAD_REQUEST ==> id.None? || body.None? || !IsTerminal(body.value.status)
      ensures code == INTERNAL ==> Errors() > old(Errors())
      ensures Errors() > old(Errors()) ==>
          code == INTERNAL || (code == NO_CONTENT && body.Some? && body.value.facts != map[])
      ensures code == NO_CONTENT ==>
                && OwnedBy(read, id, agent) && body.Some? && IsTerminal(body.value.status)
                && Passed(Next(k), origin, old(run), due, written) && due <= run && Led(Next(k), origin, due, done)
                && RowEnded(written.jobs, done.jobs, id.value, body.value.status, None, written.clock)
                && (id.value, agent.value) in done.hist.accepted
                && Passed(Next(k), origin, due, run, met)
                && (body.value.facts == map[] ==> w == done)
                && (body.value.facts != map[] && Errors() == old(Errors()) ==>
                      RowWithFacts(met.jobs, w.jobs, id.value, body.value.facts, met.clock))
      ensures code in {UNAUTHORIZED, BAD_REQUEST, NOT_FOUND, FORBIDDEN, INTERNAL, NO_CONTENT}
    {
      ghost var start := run;
      written, done, due, met := w, w, run, w;
      code, read := CheckOwner(agent, id);
      if code != 0 {
        return;
      }
      if body.None? || !IsTerminal(body.value.status) {
        code := BAD_REQUEST;
        return;
      }
      ghost var mid := run;
      Took(Begin(r, ResultRead(id.value, agent.value, body.value.status, body.value.facts)));
      var error;
      error, written := WriteResult(id.value, agent.value, body.value, start);
      done, due, met := w, run, w;
      PassedNow(Next(k), origin, due, run, met);
      if !error && body.value.facts != map[] {
        met := WriteFacts(id.value, body.value.facts);
      }
      PassedLater(Next(k), origin, start, mid, run, read);
      code := if error then INTERNAL else NO_CONTENT;
    }

    // UpdateJobStatus to the reported status, whatever the row is by now.
    method WriteResult(id: JobId, agent: AgentId, body: ResultBody, ghost start: seq<Step>)
      returns (error: bool, ghost written: State)
      requires Agrees() && Serving(ResultRead(id, agent, body.status, body.facts)) && start <= run
      modifies this`run, this`w, store, logs
      ensures Agrees() && old(run) <= run && Passed(Next(k), origin, start, run, written)
      ensures Errors() == old(Errors()) + if error then 1 else 0
      ensures error || body.facts == map[] ==> Free()
      ensures !error ==>
                && (body.facts != map[] ==> Serving(FactsDue(id, body.facts)))
                && RowEnded(written.jobs, w.jobs, id, body.status, None, written.clock)
                && (id, agent) in w.hist.accepted
    {
      Yield();
      written := w;
      RowExists(id);
      ghost var mid := run;
      PassedNow(Next(k), origin, start, mid, written);
      ghost var applied;
      error, applied := store.UpdateJobStatus(id, body.status, None, None);
      if applied {
        Took(Finish(r));
      } else {
        Took(Drop(r));
      }
      if error && applied && body.facts != map[] {
        Took(Drop(r));
      }
      PassedLater(Next(k), origin, start, mid, run, written);
    }

    // SetJobFacts, whose error is ignored; `met` is the state it met.
    method WriteFacts(id: JobId, facts: Facts) returns (ghost met: State)
      requires Agrees() && Serving(FactsDue(id, facts))
      modifies this`run, this`w, store, logs
      ensures Agrees() && Free() && old(run) <= run && old(Errors()) <= Errors()
      ensures Passed(Next(k), origin, old(run), run, met)
      ensures Errors() == old(Errors()) ==> RowWithFacts(met.jobs, w.jobs, id, facts, met.clock)
    {
      ghost var start := run;
      Yield();
      met := w;
      RowExists(id);
      ghost var mid := run;
      PassedNow(Next(k), origin, start, mid, met);
      var error;
      ghost var applied;
      error, applied := store.SetJobFacts(id, facts);
      if applied {
        Took(Finish(r));
      } else {
        Took(Drop(r));
      }
      PassedLater(Next(k), origin, start, mid, run, met);
    }

    // AgentPostLogs; body is None when it cannot be decoded. Others may write to the table all the
    // while: the lines that landed went in one by one, line i into mets[i]. Whatever is inserted,
    // even by a post that fails, is of a job the agent owned when it asked.
    method AgentPostLogs(agent: Option<AgentId>, id: Option<JobId>, body: Option<seq<LogLine>>)
      returns (code: int, ghost read: State, ghost landed: nat, ghost mets: seq<LogTable>)
      requires Agrees() && Free()
      modifies this`run, this`w, store, logs
      ensures Agrees() && Free() && Passed(Next(k), origin, old(run), run, read)
      ensures code == UNAUTHORIZED <==> agent.None?
      ensures code == NOT_FOUND ==> Missing(read, id) && landed == 0
      ensures code == FORBIDDEN ==> Foreign(read, id, agent) && landed == 0
      ensures code == BAD_REQUEST ==> (id.None? || body.None?) && landed == 0
      ensures code == INTERNAL <==> Errors() > old(Errors())
      ensures if landed == 0 then Grown(old(logs.rows), logs.rows)
              else OwnedBy(read, id, agent) && body.Some? && landed <= |body.value|
                   && Interleaved(old(logs.rows), id.value, body.value[..landed], mets, logs.rows)
      ensures code == NO_CONTENT ==>
                && OwnedBy(read, id, agent) && body.Some? && landed == |body.value|
                && (id.value, agent.value) in w.hist.accepted
      ensures code in {UNAUTHORIZED, BAD_REQUEST, NOT_FOUND, FORBIDDEN, INTERNAL, NO_CONTENT}
    {
      ghost var start, rows := run, logs.rows;
      landed, mets := 0, [];
      code, read := CheckOwner(agent, id);
      if code != 0 {
        return;
      }
      if body.None? {
        code := BAD_REQUEST;
        return;
      }
      ghost var mid := run;
      Took(Begin(r, LogsRead(id.value, agent.value)));
      var error;
      error, landed, mets := AppendJobLogs(id.value, agent.value, body.value, rows);
      PassedLater(Next(k), origin, start, mid, run, read);
      code := if error then INTERNAL else NO_CONTENT;
    }

    // AppendJobLogs, one statement per line, from a table that has grown from `before`.
    method AppendJobLogs(job: JobId, agent: AgentId, lines: seq<LogLine>, ghost before: LogTable)
      returns (error: bool, ghost landed: nat, ghost mets: seq<LogTable>)
      requires Agrees() && Serving(LogsRead(job, agent)) && Grown(before, logs.rows)
      modifies this`run, this`w, store, logs
      ensures Agrees() && Free() && old(run) <= run && (job, agent) in w.hist.accepted
      ensures landed <= |lines| && (!error ==> landed == |lines|)
      ensures Errors() == old(Errors()) + if error then 1 else 0
      ensures Interleaved(before, job, lines[..landed], mets, logs.rows)
    {
      landed, mets, error := 0, [], false;
      for i := 0 to |lines|
        invariant Agrees() && Serving(LogsRead(job, agent)) && old(run) <= run
        invariant landed == i && Errors() == old(Errors()) && !error
        invariant Interleaved(before, job, lines[..i], mets, logs.rows)
      {
        error, landed, mets := AppendOne(job, agent, lines, i, mets, before);
        if error {
          break;
        }
      }
      Took(Finish(r));
    }

    method AppendOne(job: JobId, agent: AgentId, lines: seq<LogLine>, i: nat, ghost mets: seq<LogTable>,
                     ghost before: LogTable)
      returns (error: bool, ghost landed: nat, ghost mets': seq<LogTable>)
      requires Agrees() && Serving(LogsRead(job, agent)) && i < |lines|
        && Interleaved(before, job, lines[..i], mets, logs.rows)
      modifies this`run, this`w, store, logs
      ensures Agrees() && Serving(LogsRead(job, agent)) && old(run) <= run
      ensures i <= landed <= i + 1 && (!error ==> landed == i + 1)
      ensures Errors() == old(Errors()) + if error then 1 else 0
      ensures Interleaved(before, job, lines[..landed], mets', logs.rows)
    {
      ghost var rows := logs.rows;
      Yield();
      InterleavedOn(before, job, lines[..i], mets, rows, logs.rows);
      InterleavedNext(before, job, lines[..i], mets, logs.rows, lines[i]);
      assert lines[..i] + [lines[i]] == lines[..i + 1];
      landed, mets' := i, mets;
      ghost var met, applied := logs.rows, false;
      error, applied := logs.InsertLog(job, lines[i]);
      if applied {
        landed, mets' := i + 1, mets + [met];
      }
    }
  }
}
