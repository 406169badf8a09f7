/**
 agent/internal/runner/runner.go (LogBatcher and the two readers of runPlaybook) and the onLog and
 flush closures of executeJob in agent/internal/server/server.go. Between any two atomic
 operations the other goroutines may run; the ghost `run` is everything that has happened to the
 job's output so far, as steps of module LogPipeline, and each operation is shown to be the next.
 */
module LogBatching {
  import opened Wrappers
  import opened Runs
  import opened JobLogs
  import opened LogPipeline
  import opened LogTheorems

  // The goroutines of one job.
  datatype Goroutine = ReaderOf(r: Stream) | FlushLoop | Executor

  predicate StepOf(step: Step, g: Goroutine) {
    match step
    case Take(r) => g == ReaderOf(r)
    case Store(r) => g == ReaderOf(r)
    case Stamp(r) => g == ReaderOf(r)
    case Add(r) => g == ReaderOf(r)
    case Close => g == Executor
    case Flush(_) => g == FlushLoop
    case Post(_) => g == FlushLoop
  }

  predicate ByOthers(steps: seq<Step>, g: Goroutine) {
    forall i | 0 <= i < |steps| :: !StepOf(steps[i], g)
  }

  // What a goroutine can rely on while the others run.
  predicate SameFor(o: Output, g: Goroutine, s: State, t: State) {
    match g
    case ReaderOf(r) => At(t, r) == At(s, r)
    case FlushLoop =>
      && t.flusher == s.flusher && (s.closed ==> t.closed && t.buf == s.buf) && s.buf <= t.buf
      && t.hist.delivered == s.hist.delivered && t.hist.dropped == s.hist.dropped
    case Executor => t.closed == s.closed && forall r :: Finished(o, s, r) ==> Finished(o, t, r)
  }

  lemma OthersStep(o: Output, g: Goroutine, s: State, step: Step)
    requires Enabled(o, s, step) && !StepOf(step, g)
    requires s.closed ==> Finished(o, s, Stdout) && Finished(o, s, Stderr)
    ensures SameFor(o, g, s, Apply(o, s, step))
  {
  }

  lemma {:induction false} OthersLeave(o: Output, before: LogTable, g: Goroutine, s: State, steps: seq<Step>, t: State)
    requires Inv(o, before, s) && Leads(Next(o), s, steps, t) && ByOthers(steps, g)
    ensures SameFor(o, g, s, t)
    decreases |steps|
  {
    if steps != [] {
      var n := |steps| - 1;
      var u := After(Next(o), s, steps[..n]).value;
      OthersLeave(o, before, g, s, steps[..n], u);
      RunKeeps(o, before, s, steps[..n], u);
      OthersStep(o, g, u, steps[n]);
    }
  }

  // How often the flusher has taken the buffer.
  function Flushes(steps: seq<Step>): nat {
    if steps == [] then 0
    else Flushes(steps[..|steps| - 1]) + if steps[|steps| - 1].Flush? then 1 else 0
  }

  lemma {:induction false} OthersDoNotFlush(run: seq<Step>, added: seq<Step>)
    requires ByOthers(added, FlushLoop)
    ensures Flushes(run + added) == Flushes(run)
    decreases |added|
  {
    if added == [] {
      assert run + added == run;
    } else {
      var n := |added| - 1;
      assert (run + added)[..|run + added| - 1] == run + added[..n];
      OthersDoNotFlush(run, added[..n]);
    }
  }

  class LogBatcher {
    var buf: seq<LogLine>
    var done: bool

    constructor ()
      ensures buf == [] && !done
    {
      buf, done := [], false;
    }

    // Add, under the mutex.
    method Add(line: LogLine)
      modifies this
      ensures buf == old(buf) + [line] && done == old(done)
    {
      buf := buf + [line];
    }

    // The critical section of doFlush.
    method Swap() returns (batch: seq<LogLine>)
      modifies this
      ensures batch == old(buf) && buf == [] && done == old(done)
    {
      if |buf| == 0 {
        return [];
      }
      batch := buf;
      buf := [];
    }

    // Flush only closes the channel.
    method Flush()
      modifies this
      ensures done && buf == old(buf)
    {
      done := true;
    }
  }

  // Everything delivered or buffered at s is delivered at t.
  predicate Covers(t: State, s: State) {
    s.hist.delivered + s.buf <= t.hist.delivered
  }

  // What was buffered at s still is, and nothing has been delivered since.
  predicate Waits(t: State, s: State) {
    s.buf <= t.buf && t.hist.delivered == s.hist.delivered
  }

  lemma CoversOn(s: State, t: State, u: State)
    requires t.hist.delivered <= u.hist.delivered
    ensures Covers(t, s) ==> Covers(u, s)
    ensures Waits(t, s) && Covers(u, t) ==> Covers(u, s)
  {
  }

  // The way to the API.
  class Network {
    ghost var lost: nat  // requests that did not arrive

    method Send() returns (reached: bool)
      modifies this
      ensures lost == old(lost) + if reached then 0 else 1
    {
      reached := *;
      if !reached {
        lost := lost + 1;
      }
    }
  }

  // One executing job: the runner's counter, the `seq` variable of onLog, the batcher and the
  // table the posts end up in. Only this job's posts write its rows.
  class Execution {
    const o: Output
    const batcher: LogBatcher
    const network: Network
    const logs: Logs
    var counter: nat
    var current: nat
    ghost const before: nat
    ghost const first: State
    ghost var run: seq<Step>
    ghost var w: State

    constructor (o: Output, network: Network, logs: Logs)
      requires NoRowsOf(logs.rows, o.job)
      ensures this.o == o && this.network == network && this.logs == logs && fresh(batcher)
      ensures Agrees() && NoneFailed() && run == [] && Init(o, first)
    {
      this.o, this.network, this.logs, this.before := o, network, logs, network.lost + logs.errors;
      this.batcher := new LogBatcher();
      this.counter, this.current := 0, 0;
      var s := START.(rows := logs.rows);
      this.w, this.first, this.run := s, s, [];
    }

    // Posts that did not arrive or were not stored.
    ghost function Failures(): nat
      reads network, logs
    {
      network.lost + logs.errors
    }

    ghost predicate NoneFailed()
      reads network, logs
    {
      Failures() == before
    }

    ghost predicate Agrees()
      reads this, batcher, network, logs
    {
      && before <= Failures() && (NoneFailed() ==> w.hist.dropped == [])
      && w.counter == counter && w.shared == current
      && Rows(w.buf) == batcher.buf && w.closed == batcher.done && w.rows == logs.rows
      && Init(o, first) && Leads(Next(o), first, run, w)
    }

    lemma Invariant()
      requires Agrees()
      ensures Inv(o, first.rows, w)
    {
      InitOk(o, first);
      RunKeeps(o, first.rows, first, run, w);
    }

    // Anything the other goroutines may have done by now. Callers know the contract and not the
    // body, so they are verified for every sequence of steps of the others.
    method Interfere(ghost g: Goroutine)
      requires Agrees()
      modifies this, batcher, network, logs
      ensures Agrees() && old(run) <= run && ByOthers(run[|old(run)|..], g)
      ensures g == FlushLoop ==> Failures() == old(Failures())
    {
    }

    method Yield(ghost g: Goroutine)
      requires Agrees()
      modifies this, batcher, network, logs
      ensures Agrees() && SameFor(o, g, old(w), w) && old(run) <= run
      ensures g == FlushLoop ==> Flushes(run) == Flushes(old(run)) && Failures() == old(Failures())
    {
      ghost var s, before := w, run;
      Invariant();
      Interfere(g);
      ghost var added := run[|before|..];
      assert run == before + added;
      LeadsConcat(Next(o), first, before, s, added);
      OthersLeave(o, first.rows, g, s, added, w);
      if g == FlushLoop {
        OthersDoNotFlush(before, added);
      }
    }

    ghost method Took(step: Step)
      requires Leads(Next(o), first, run, w) && Enabled(o, w, step)
      modifies this`w, this`run
      ensures w == Apply(o, old(w), step) && run == old(run) + [step] && Leads(Next(o), first, run, w)
      ensures Flushes(run) == Flushes(old(run)) + if step.Flush? then 1 else 0
    {
      Onward(o, first, run, w, step);
      assert (run + [step])[..|run|] == run;
      run := run + [step];
      w := Apply(o, w, step);
    }

    // nextSeq: an atomic increment.
    method NextSeq(r: Stream) returns (n: nat)
      requires Agrees() && At(w, r).at.Scanning? && At(w, r).next < |Emitted(o, r)|
      modifies this, batcher, network, logs
      ensures Agrees() && old(run) <= run
      ensures At(w, r) == Reader(old(At(w, r)).next, Taken(n))
    {
      Yield(ReaderOf(r));
      counter := counter + 1;
      n := counter;
      Took(Take(r));
    }

    // onLog for line `next` of the stream.
    method OnLog(n: nat, line: string, r: Stream)
      requires Agrees() && At(w, r).at == Taken(n)
      requires At(w, r).next < |Emitted(o, r)| && line == Emitted(o, r)[At(w, r).next]
      modifies this, batcher, network, logs
      ensures Agrees() && old(run) <= run
      ensures At(w, r) == Reader(old(At(w, r)).next + 1, Scanning)
    {
      SetCurrent(n, r);
      var l := MakeLine(line, r);
      AddLine(l, r);
    }

    method SetCurrent(n: nat, r: Stream)
      requires Agrees() && At(w, r).at == Taken(n)
      modifies this, batcher, network, logs
      ensures Agrees() && old(run) <= run
      ensures At(w, r).next == old(At(w, r)).next && At(w, r).at.Stored?
    {
      Yield(ReaderOf(r));
      current := n;
      Took(Store(r));
    }

    method MakeLine(line: string, r: Stream) returns (l: LogLine)
      requires Agrees() && At(w, r).at.Stored?
      requires At(w, r).next < |Emitted(o, r)| && line == Emitted(o, r)[At(w, r).next]
      modifies this, batcher, network, logs
      ensures Agrees() && old(run) <= run
      ensures At(w, r).next == old(At(w, r)).next && At(w, r).at.Stamped? && At(w, r).at.entry.row == l
    {
      Yield(ReaderOf(r));
      l := LogLine(current, line, r);
      Took(Stamp(r));
    }

    method AddLine(l: LogLine, r: Stream)
      requires Agrees() && At(w, r).at.Stamped? && At(w, r).at.entry.row == l
      modifies this, batcher, network, logs
      ensures Agrees() && old(run) <= run
      ensures At(w, r) == Reader(old(At(w, r)).next + 1, Scanning)
    {
      Yield(ReaderOf(r));
      batcher.Add(l);
      Took(Step.Add(r));
    }

    // One of the two scanner goroutines, from start to end of its stream.
    method ReadStream(r: Stream)
      requires Agrees() && At(w, r) == Reader(0, Scanning)
      modifies this, batcher, network, logs
      ensures Agrees() && old(run) <= run && Finished(o, w, r)
    {
      var lines := Emitted(o, r);
      for i := 0 to |lines|
        invariant Agrees() && old(run) <= run && At(w, r) == Reader(i, Scanning)
      {
        var n := NextSeq(r);
        OnLog(n, lines[i], r);
      }
    }

    // doFlush and the post of its batch; the reply is only logged. The batch is everything in the
    // buffer, and without a failed post all of it is delivered.
    method DoFlush(ghost last: bool) returns (ghost taken: seq<Entry>, ghost landed: nat)
      requires Agrees() && w.flusher.Waiting? && (last ==> w.closed)
      modifies this, batcher, network, logs
      ensures Agrees() && w.flusher == (if last then Stopped else Waiting) && (old(w).closed ==> w.closed)
      ensures old(run) <= run && Flushes(run) == Flushes(old(run)) + 1
      ensures old(w).buf <= taken && landed <= |taken|
      ensures w.hist.delivered == old(w).hist.delivered + taken[..landed]
      ensures w.hist.dropped == old(w).hist.dropped + taken[landed..]
      ensures old(Failures()) <= Failures()
      ensures Failures() == old(Failures()) ==> landed == |taken| && Covers(w, old(w))
    {
      var batch;
      batch, taken := TakeBatch(last);
      landed := 0;
      if batch != [] {
        landed := PostBatch(batch, last);
      }
    }

    method TakeBatch(ghost last: bool) returns (batch: seq<LogLine>, ghost taken: seq<Entry>)
      requires Agrees() && w.flusher.Waiting? && (last ==> w.closed)
      modifies this, batcher, network, logs
      ensures Agrees() && (old(w).closed ==> w.closed) && Rows(taken) == batch && old(w).buf <= taken
      ensures if batch == [] then w.flusher == (if last then Stopped else Waiting)
              else w.flusher == Posting(taken, last)
      ensures old(run) <= run && Flushes(run) == Flushes(old(run)) + 1 && Failures() == old(Failures())
      ensures w.hist.delivered == old(w).hist.delivered && w.hist.dropped == old(w).hist.dropped
    {
      Yield(FlushLoop);
      taken := w.buf;
      batch := batcher.Swap();
      Took(Step.Flush(last));
    }

    method PostBatch(batch: seq<LogLine>, ghost last: bool) returns (ghost landed: nat)
      requires Agrees() && w.flusher.Posting? && w.flusher.last == last && Rows(w.flusher.batch) == batch
      modifies this, batcher, network, logs
      ensures Agrees() && (old(w).closed ==> w.closed)
      ensures w.flusher == if last then Stopped else Waiting
      ensures old(run) <= run && Flushes(run) == Flushes(old(run))
      ensures landed <= |batch|
      ensures w.hist.delivered == old(w).hist.delivered + old(w).flusher.batch[..landed]
      ensures w.hist.dropped == old(w).hist.dropped + old(w).flusher.batch[landed..]
      ensures old(Failures()) <= Failures() && (Failures() == old(Failures()) ==> landed == |batch|)
    {
      Yield(FlushLoop);
      var reached := network.Send();
      landed := 0;
      if reached {
        var error;
        error, landed := logs.AppendJobLogs(o.job, batch);
      }
      assert Rows(w.flusher.batch[..landed]) == batch[..landed];
      Took(Post(landed));
    }

    // run: a flush on each of some number of ticks, and the last one once done is seen closed. If
    // no post fails nothing is dropped, and once stopped everything is delivered that was buffered.
    method RunFlusher(ticks: nat) returns (stopped: bool)
      requires Agrees() && w.flusher.Waiting?
      modifies this, batcher, network, logs
      ensures Agrees() && w.flusher == (if stopped then Stopped else Waiting)
      ensures old(w).closed ==> stopped
      ensures old(run) <= run && Flushes(run) == Flushes(old(run)) + ticks + if stopped then 1 else 0
      ensures old(Failures()) <= Failures() && old(w).hist.delivered <= w.hist.delivered
      ensures Failures() == old(Failures()) ==> w.hist.dropped == old(w).hist.dropped
      ensures Failures() == old(Failures()) && (ticks > 0 || stopped) ==> Covers(w, old(w))
    {
      ghost var start, failures := w, Failures();
      for i := 0 to ticks
        invariant Agrees() && w.flusher.Waiting? && (start.closed ==> w.closed)
        invariant old(run) <= run && Flushes(run) == Flushes(old(run)) + i
        invariant failures <= Failures() && start.hist.delivered <= w.hist.delivered
        invariant Failures() == failures ==> w.hist.dropped == start.hist.dropped
        invariant Failures() == failures ==> if i == 0 then Waits(w, start) else Covers(w, start)
      {
        ghost var met := w;
        ghost var _, _ := DoFlush(false);
        CoversOn(start, met, w);
      }
      Yield(FlushLoop);
      stopped := batcher.done;
      if stopped {
        ghost var met := w;
        ghost var _, _ := DoFlush(true);
        CoversOn(start, met, w);
      }
    }

    // executeJob once both readers are done.
    method FlushBatcher()
      requires Agrees() && !w.closed && Finished(o, w, Stdout) && Finished(o, w, Stderr)
      modifies this, batcher, network, logs
      ensures Agrees() && old(run) <= run && w.closed
    {
      Yield(Executor);
      batcher.Flush();
      Took(Close);
    }

    // When the flusher has stopped and no post has failed, what is read back is everything the playbook wrote, in the
    // order of each stream, exactly if no reader found the other's number.
    method ReadLogs() returns (read: Option<seq<LogLine>>)
      requires Agrees() && w.flusher.Stopped? && NoneFailed()
      requires forall key | key in logs.rows :: logs.rows[key].number == key.1
      modifies logs`unread
      ensures logs.unread == old(logs.unread) + if read.None? then 1 else 0
      ensures read.Some? ==> (Faithful(o, read.value) <==> !RacedRun(o, first, run))
      ensures read.Some? ==> (Faithful(o, read.value) <==> |read.value| == |o.stdout| + |o.stderr|)
    {
      read := logs.GetJobLogs(o.job);
      if read.Some? {
        Invariant();
        FaithfulIff(o, first.rows, w, read.value);
        LosslessIff(o, first, run, w, read.value);
      }
    }
  }
}
