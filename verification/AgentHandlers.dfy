/**
 The Server of agent/internal/server/server.go. Between any two atomic operations other handlers
 and jobs may run; the ghost `run` is everything that has happened since the agent started, as
 steps of module AgentServer, and each operation is shown to be the next of them.
 */
module AgentHandlers {
  import opened Wrappers
  import opened Runs
  import opened Jobs
  import opened AgentServer

  const NIL: JobId := 0

  const ACCEPTED := 202
  const BAD_REQUEST := 400
  const NOT_FOUND := 404
  const UNAVAILABLE := 503

  predicate Touches(step: Step, t: nat) {
    match step
    case Insert(u) => u == t
    case Start(u) => u == t
    case Delete(u) => u == t
    case Finish(u) => u == t
    case _ => false
  }

  predicate LeaveAlone(steps: seq<Step>, t: nat) {
    forall i | 0 <= i < |steps| :: !Touches(steps[i], t)
  }

  lemma OneOther(k: Limits, t: nat, s: State, step: Step)
    requires Inv(k, s) && Enabled(k, s, step) && !Touches(step, t) && t < s.next
    ensures var u := Apply(k, s, step);
            t < u.next && (t in s.tasks <==> t in u.tasks) && (t in s.tasks ==> u.tasks[t] == s.tasks[t])
  {
  }

  lemma {:induction false} OthersLeave(k: Limits, t: nat, s: State, steps: seq<Step>, u: State)
    requires Inv(k, s) && Leads(Next(k), s, steps, u) && LeaveAlone(steps, t) && t < s.next
    ensures t < u.next && (t in s.tasks <==> t in u.tasks) && (t in s.tasks ==> u.tasks[t] == s.tasks[t])
    decreases |steps|
  {
    if steps != [] {
      var n := |steps| - 1;
      var p := After(Next(k), s, steps[..n]).value;
      RunKeeps(k, s, steps[..n], p);
      OthersLeave(k, t, s, steps[..n], p);
      OneOther(k, t, p, steps[n]);
    }
  }

  class Server {
    const capacity: int
    var running: map<JobId, nat>
    var count: int
    var next: nat
    var cancelled: set<nat>
    ghost const k: Limits
    ghost var run: seq<Step>
    ghost var w: State

    constructor (capacity: int, ghost handlers: nat)
      ensures Agrees() && run == [] && k == Limits(capacity, handlers)
    {
      this.capacity, this.k := capacity, Limits(capacity, handlers);
      running, count, next, cancelled, w, run := map[], 0, 0, {}, EMPTY, [];
    }

    ghost predicate Agrees()
      reads this
    {
      && k.capacity == capacity
      && w.running == running && w.count == count && w.next == next && w.cancelled == cancelled
      && Leads(Next(k), EMPTY, run, w)
    }

    lemma Invariant()
      requires Leads(Next(k), EMPTY, run, w)
      ensures Inv(k, w)
    {
      EmptyOk(k);
      RunKeeps(k, EMPTY, run, w);
    }

    // RunningJobs
    method RunningJobs() returns (n: int)
      requires Agrees() && capacity >= 1 && k.handlers >= 1
      ensures n == w.count && 0 <= n <= k.capacity + k.handlers - 1
    {
      n := count;
      Invariant();
    }

    // Anything that others may have done by now: to a handler that is not past its check, which
    // holds one of the listener's slots and has no task yet, or to task t. Callers know the
    // contract and not the body.
    method Interfere(ghost t: nat, ghost slot: bool)
      requires Agrees() && (slot ==> |Handling(w)| < k.handlers)
      modifies this
      ensures Agrees() && old(run) <= run && (!slot ==> LeaveAlone(run[|old(run)|..], t))
      ensures slot ==> |Handling(w)| < k.handlers
    {
    }

    // Others run; task t is left alone.
    method Yield(ghost t: nat)
      requires Agrees() && t in w.tasks
      modifies this
      ensures Agrees() && old(run) <= run && LeaveAlone(run[|old(run)|..], t)
      ensures t in w.tasks && w.tasks[t] == old(w).tasks[t]
    {
      ghost var s, before := w, run;
      Invariant();
      Interfere(t, false);
      ghost var added := run[|before|..];
      assert run == before + added;
      LeadsConcat(Next(k), EMPTY, before, s, added);
      OthersLeave(k, t, s, added, w);
    }

    ghost method Took(step: Step)
      requires Leads(Next(k), EMPTY, run, w) && Enabled(k, w, step)
      modifies this`w, this`run
      ensures w == Apply(k, old(w), step) && run == old(run) + [step] && Leads(Next(k), EMPTY, run, w)
    {
      Onward(k, EMPTY, run, w, step);
      run := run + [step];
      w := Apply(k, w, step);
    }

    // handleDispatch; the payload is None when it cannot be decoded. `checked` is the state in
    // which the counter was compared with the capacity, t the task that was started.
    method HandleDispatch(payload: Option<JobId>) returns (code: int, ghost checked: State, ghost t: nat)
      requires Agrees() && |Handling(w)| < k.handlers
      modifies this
      ensures Agrees() && Passed(Next(k), EMPTY, old(run), run, checked)
      ensures code == BAD_REQUEST <==> payload.None? || payload.value == NIL
      ensures code == UNAVAILABLE ==> checked.count >= capacity && w == checked
      ensures code == ACCEPTED ==>
                && checked.count < capacity && t == checked.next
                && t in w.tasks && w.tasks[t] == Task(payload.value, Executing)
      ensures code in {BAD_REQUEST, UNAVAILABLE, ACCEPTED}
    {
      checked, t := w, 0;
      ghost var start := run;
      LedLeads(Next(k), EMPTY, run, w);
      PassedNow(Next(k), EMPTY, start, run, w);
      if payload.None? || payload.value == NIL {
        code := BAD_REQUEST;
        return;
      }
      var job := payload.value;
      Interfere(0, true);
      checked := w;
      LedLeads(Next(k), EMPTY, run, w);
      PassedNow(Next(k), EMPTY, start, run, w);
      ghost var mid := run;
      if count >= capacity {
        code := UNAVAILABLE;
        return;
      }
      var cancel := next;
      next := next + 1;
      t := cancel;
      Took(Admit(job));
      Yield(t);
      running := running[job := cancel];
      Took(Insert(t));
      Yield(t);
      count := count + 1;
      Took(Start(t));
      code := ACCEPTED;
      PassedLater(Next(k), EMPTY, start, mid, run, checked);
    }

    // handleCancel; id is None when it cannot be parsed.
    method HandleCancel(id: Option<JobId>) returns (code: int)
      requires Agrees()
      modifies this
      ensures Agrees()
      ensures code == BAD_REQUEST <==> id.None?
      ensures id.Some? ==> (code == ACCEPTED <==> id.value in old(running)) && w == Apply(k, old(w), Cancel(id.value))
      ensures id.None? ==> w == old(w)
      ensures running == old(running) && count == old(count)
      ensures cancelled == old(cancelled) + if code == ACCEPTED then {old(running)[id.value]} else {}
      ensures code in {BAD_REQUEST, NOT_FOUND, ACCEPTED}
    {
      if id.None? {
        return BAD_REQUEST;
      }
      Took(Cancel(id.value));
      if id.value !in running {
        return NOT_FOUND;
      }
      cancelled := cancelled + {running[id.value]};
      return ACCEPTED;
    }

    // executeJob: the job runs for as long as it runs, and then the deferred cleanup.
    method ExecuteJob(job: JobId, ghost t: nat)
      requires Agrees() && t in w.tasks && w.tasks[t] == Task(job, Executing)
      modifies this
      ensures Agrees() && old(run) <= run && t !in w.tasks
    {
      Yield(t);
      running := running - {job};
      Took(Delete(t));
      Yield(t);
      count := count - 1;
      Took(Finish(t));
    }
  }
}
