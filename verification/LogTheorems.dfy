/** What the log pipeline keeps and what it loses, over whole runs. */
module LogTheorems {
  import opened Runs
  import opened Jobs
  import opened JobLogs
  import opened LogPipeline

  lemma {:induction false} RunKeeps(o: Output, before: LogTable, s: State, steps: seq<Step>, t: State)
    requires Inv(o, before, s) && Leads(Next(o), s, steps, t)
    ensures Inv(o, before, t)
    decreases |steps|
  {
    if steps != [] {
      var n := |steps| - 1;
      var u := After(Next(o), s, steps[..n]).value;
      RunKeeps(o, before, s, steps[..n], u);
      StepKeeps(o, before, u, steps[n]);
    }
  }

  // In every interleaving each number that was taken is in exactly one place: with its reader,
  // in the buffer, in the post under way, delivered or dropped.
  lemma Conservation(o: Output, s: State, steps: seq<Step>, t: State, n: nat)
    requires Init(o, s) && Leads(Next(o), s, steps, t)
    ensures Places(t, n) == if 1 <= n <= t.counter then 1 else 0
    ensures t.counter == |t.hist.taken|
    ensures forall r :: LinesOf(t.hist.taken, r) <= Emitted(o, r)
  {
    InitOk(o, s);
    RunKeeps(o, s.rows, s, steps, t);
    forall r: Stream
      ensures LinesOf(t.hist.taken, r) <= Emitted(o, r)
    {
      assert ReaderOk(o, t, r);
    }
  }

  // Races -------------------------------------------------------------------------------------

  // Some reader of the run found the other's number in `seq`.
  ghost predicate RacedRun(o: Output, s: State, steps: seq<Step>)
    decreases |steps|
  {
    steps != []
    && var n := |steps| - 1;
       RacedRun(o, s, steps[..n])
       || (After(Next(o), s, steps[..n]).Some? && Raced(After(Next(o), s, steps[..n]).value, steps[n]))
  }

  // Every line carries the number its own reader took.
  predicate Straight(entries: seq<Entry>) {
    forall i | 0 <= i < |entries| :: entries[i].seen == entries[i].stored
  }

  lemma StraightConcat(a: seq<Entry>, b: seq<Entry>)
    ensures Straight(a + b) <==> Straight(a) && Straight(b)
  {
    if Straight(a + b) {
      assert forall i | 0 <= i < |a| :: a[i] == (a + b)[i];
      assert forall i | 0 <= i < |b| :: b[i] == (a + b)[|a| + i];
    }
  }

  predicate Clean(s: State) {
    && Straight(HeldEntry(s.stdout)) && Straight(HeldEntry(s.stderr)) && Straight(s.buf)
    && Straight(InPost(s)) && Straight(s.hist.delivered) && Straight(s.hist.dropped)
  }

  lemma CleanStep(o: Output, s: State, step: Step)
    requires Enabled(o, s, step) && ReaderOk(o, s, Stdout) && ReaderOk(o, s, Stderr)
    ensures Clean(Apply(o, s, step)) <==> Clean(s) && !Raced(s, step)
  {
    match step
    case Stamp(r) => StampClean(o, s, r);
    case Add(r) => StraightConcat(s.buf, [At(s, r).at.entry]);
    case Post(landed) =>
      var batch := s.flusher.batch;
      assert batch == batch[..landed] + batch[landed..];
      StraightConcat(batch[..landed], batch[landed..]);
      StraightConcat(s.hist.delivered, batch[..landed]);
      StraightConcat(s.hist.dropped, batch[landed..]);
    case _ =>
  }

  lemma StampClean(o: Output, s: State, r: Stream)
    requires Enabled(o, s, Stamp(r)) && ReaderOk(o, s, r)
    ensures Clean(DidStamp(o, s, r)) <==> Clean(s) && !Raced(s, Stamp(r))
  {
    var held := HeldEntry(At(DidStamp(o, s, r), r));
    assert held == [Stamping(o, s, r)] && HeldEntry(At(s, r)) == [];
    assert Straight(held) <==> held[0].seen == held[0].stored;
  }

  lemma {:induction false} CleanRun(o: Output, before: LogTable, s: State, steps: seq<Step>, t: State)
    requires Inv(o, before, s) && Leads(Next(o), s, steps, t)
    ensures Clean(t) <==> Clean(s) && !RacedRun(o, s, steps)
    decreases |steps|
  {
    if steps != [] {
      var n := |steps| - 1;
      var u := After(Next(o), s, steps[..n]).value;
      RunKeeps(o, before, s, steps[..n], u);
      CleanRun(o, before, s, steps[..n], u);
      CleanStep(o, u, steps[n]);
    }
  }

  // Counting ----------------------------------------------------------------------------------

  predicate Distinct(xs: seq<int>) {
    forall i, j | 0 <= i < j < |xs| :: xs[i] != xs[j]
  }

  function Elements(xs: seq<int>): set<int> {
    set x | x in xs
  }

  lemma {:induction false} DistinctSize(xs: seq<int>)
    ensures |Elements(xs)| <= |xs|
    ensures Distinct(xs) <==> |Elements(xs)| == |xs|
  {
    if xs != [] {
      var n := |xs| - 1;
      DistinctSize(xs[..n]);
      assert xs == xs[..n] + [xs[n]];
      assert Elements(xs) == Elements(xs[..n]) + {xs[n]};
      DistinctSnoc(xs);
    }
  }

  lemma DistinctSnoc(xs: seq<int>)
    requires xs != []
    ensures Distinct(xs) <==> Distinct(xs[..|xs| - 1]) && xs[|xs| - 1] !in Elements(xs[..|xs| - 1])
  {
    var n := |xs| - 1;
    if Distinct(xs[..n]) && xs[n] !in Elements(xs[..n]) {
      forall i, j | 0 <= i < j < |xs|
        ensures xs[i] != xs[j]
      {
        assert xs[..n][i] == xs[i];
        assert j < n ==> xs[..n][j] == xs[j];
      }
    }
  }

  function Upto(n: nat): (r: set<int>)
    ensures forall i :: i in r <==> 1 <= i <= n
    ensures |r| == n
  {
    if n == 0 then {} else Upto(n - 1) + {n}
  }

  function TicketList(entries: seq<Entry>): seq<int> {
    seq(|entries|, i requires 0 <= i < |entries| => entries[i].ticket)
  }

  function NumberList(lines: seq<LogLine>): seq<int> {
    seq(|lines|, i requires 0 <= i < |lines| => lines[i].number)
  }

  // The end of a run with no failed post -------------------------------------------------------

  predicate Complete(s: State) {
    s.flusher.Stopped? && s.hist.dropped == []
  }

  // What is delivered at such an end: every number once.
  lemma AllDelivered(o: Output, before: LogTable, s: State, n: nat)
    requires Inv(o, before, s) && Complete(s)
    ensures Count(s.hist.delivered, n) == if 1 <= n <= |s.hist.taken| then 1 else 0
  {
    assert Places(s, n) == if 1 <= n <= s.counter then 1 else 0;
  }

  lemma TicketsDistinct(o: Output, before: LogTable, s: State)
    requires Inv(o, before, s) && Complete(s)
    ensures Distinct(TicketList(s.hist.delivered))
    ensures Elements(TicketList(s.hist.delivered)) == Upto(|s.hist.taken|)
    ensures |s.hist.delivered| == |s.hist.taken|
  {
    var list := TicketList(s.hist.delivered);
    forall n: int
      ensures n in Elements(list) <==> n in Upto(|s.hist.taken|)
    {
      if n >= 0 {
        AllDelivered(o, before, s, n);
        TicketListed(s.hist.delivered, n);
      }
    }
    assert Elements(list) == Upto(|s.hist.taken|);
    TicketsOnce(o, before, s);
    DistinctSize(list);
  }

  lemma TicketsOnce(o: Output, before: LogTable, s: State)
    requires Inv(o, before, s) && Complete(s)
    ensures Distinct(TicketList(s.hist.delivered))
  {
    var list := TicketList(s.hist.delivered);
    forall i, j | 0 <= i < j < |list|
      ensures list[i] != list[j]
    {
      AllDelivered(o, before, s, list[i]);
      CountAt(s.hist.delivered, list[i]);
    }
  }

  lemma TicketListed(entries: seq<Entry>, n: nat)
    ensures n in TicketList(entries) <==> Count(entries, n) > 0
  {
    CountAt(entries, n);
    if Count(entries, n) > 0 {
      var i :| 0 <= i < |entries| && entries[i].ticket == n;
      assert TicketList(entries)[i] == n;
    }
  }

  // If some line was given a later store's number, then some two lines share a number: the line
  // of that store carries the same one, or was itself overtaken, by a store that is later still.
  lemma {:induction false} Collision(o: Output, before: LogTable, s: State, i: nat)
    requires Inv(o, before, s) && Complete(s)
    requires i < |s.hist.delivered| && s.hist.delivered[i].seen != s.hist.delivered[i].stored
    ensures !Distinct(NumberList(Rows(s.hist.delivered)))
    decreases |s.hist.stores| - s.hist.delivered[i].stored
  {
    var e := s.hist.delivered[i];
    assert EntryOk(s.hist, e);
    var n := s.hist.stores[e.seen];
    AllDelivered(o, before, s, n);
    CountAt(s.hist.delivered, n);
    var j :| 0 <= j < |s.hist.delivered| && s.hist.delivered[j].ticket == n;
    var f := s.hist.delivered[j];
    assert EntryOk(s.hist, f);
    assert f.stored == e.seen;
    if f.seen != f.stored {
      Collision(o, before, s, j);
    } else {
      var list := NumberList(Rows(s.hist.delivered));
      assert list[i] == list[j] && i != j;
    }
  }

  lemma StraightDistinct(o: Output, before: LogTable, s: State)
    requires Inv(o, before, s) && Complete(s)
    ensures Straight(s.hist.delivered) <==> Distinct(NumberList(Rows(s.hist.delivered)))
  {
    TicketsDistinct(o, before, s);
    if Straight(s.hist.delivered) {
      StraightNumbers(s.hist, s.hist.delivered);
    } else {
      var i :| 0 <= i < |s.hist.delivered| && s.hist.delivered[i].seen != s.hist.delivered[i].stored;
      Collision(o, before, s, i);
    }
  }

  lemma StraightNumbers(h: History, entries: seq<Entry>)
    requires AllOk(h, entries) && Straight(entries)
    ensures NumberList(Rows(entries)) == TicketList(entries)
  {
    forall i | 0 <= i < |entries|
      ensures entries[i].row.number == entries[i].ticket
    {
      assert EntryOk(h, entries[i]);
    }
  }

  // Reading back ------------------------------------------------------------------------------

  predicate NoRowsOf(rows: LogTable, job: JobId) {
    forall key | key in rows :: key.0 != job
  }

  lemma RowsOfJob(o: Output, before: LogTable, s: State, number: int)
    requires Inv(o, before, s) && NoRowsOf(before, o.job)
    ensures (o.job, number) in s.rows <==> number in NumberList(Rows(s.hist.delivered))
    ensures (o.job, number) in s.rows ==>
              exists i :: 0 <= i < |s.hist.delivered| && s.hist.delivered[i].row.number == number
                          && s.rows[(o.job, number)] == s.hist.delivered[i].row
  {
    var lines := Rows(s.hist.delivered);
    FirstWriteWins(before, o.job, lines, o.job, number);
    if !Unused(lines, number) {
      var i := FirstIndex(lines, number);
      assert s.hist.delivered[i].row == lines[i];
      assert NumberList(lines)[i] == number;
    }
  }

  lemma ReadBackSize(rows: LogTable, job: JobId, lines: seq<LogLine>)
    requires ReadBack(rows, job, lines)
    ensures forall n :: n in NumberList(lines) <==> (job, n) in rows
    ensures |Elements(NumberList(lines))| == |lines|
  {
    var list := NumberList(lines);
    DistinctSize(list);
    forall n
      ensures n in list <==> (job, n) in rows
    {
      if (job, n) in rows {
        var i :| 0 <= i < |lines| && lines[i].number == n;
        assert list[i] == n;
      }
    }
  }

  // How many lines come back is how many different numbers were delivered.
  lemma LinesReadBack(o: Output, before: LogTable, s: State, lines: seq<LogLine>)
    requires Inv(o, before, s) && NoRowsOf(before, o.job) && ReadBack(s.rows, o.job, lines)
    ensures |lines| == |Elements(NumberList(Rows(s.hist.delivered)))|
  {
    ReadBackSize(s.rows, o.job, lines);
    forall n
      ensures n in Elements(NumberList(lines)) <==> n in Elements(NumberList(Rows(s.hist.delivered)))
    {
      RowsOfJob(o, before, s, n);
    }
    assert Elements(NumberList(lines)) == Elements(NumberList(Rows(s.hist.delivered)));
  }

  // At any moment of a run without races, the rows of the job are the delivered lines, each
  // under the number its reader took.
  lemma CleanRow(o: Output, before: LogTable, s: State, number: int)
    requires Inv(o, before, s) && NoRowsOf(before, o.job) && Straight(s.hist.delivered)
    ensures (o.job, number) in s.rows <==> number >= 0 && Count(s.hist.delivered, number) > 0
    ensures (o.job, number) in s.rows ==>
              && 1 <= number <= |s.hist.taken|
              && s.rows[(o.job, number)] == LogLine(number, s.hist.taken[number - 1].1, s.hist.taken[number - 1].0)
  {
    var h := s.hist;
    RowsOfJob(o, before, s, number);
    StraightNumbers(h, h.delivered);
    if number >= 0 {
      TicketListed(h.delivered, number);
    }
    if (o.job, number) in s.rows {
      var j :| 0 <= j < |h.delivered| && h.delivered[j].row.number == number
        && s.rows[(o.job, number)] == h.delivered[j].row;
      assert EntryOk(h, h.delivered[j]);
    }
  }

  // The lines in the order their numbers were taken.
  function Numbered(taken: seq<(Stream, string)>): seq<LogLine> {
    seq(|taken|, i requires 0 <= i < |taken| => LogLine(i + 1, taken[i].1, taken[i].0))
  }

  function Origin(lines: seq<LogLine>): seq<(Stream, string)> {
    seq(|lines|, i requires 0 <= i < |lines| => (lines[i].stream, lines[i].line))
  }

  // An interleaving of everything the two streams carried, each in its own order.
  predicate Faithful(o: Output, lines: seq<LogLine>) {
    forall r :: LinesOf(Origin(lines), r) == Emitted(o, r)
  }

  lemma CleanReadBack(o: Output, before: LogTable, s: State, lines: seq<LogLine>)
    requires Inv(o, before, s) && Complete(s) && NoRowsOf(before, o.job) && Straight(s.hist.delivered)
    requires ReadBack(s.rows, o.job, lines)
    ensures lines == Numbered(s.hist.taken)
  {
    var all := Numbered(s.hist.taken);
    forall number
      ensures (o.job, number) in s.rows <==> 1 <= number <= |all|
      ensures (o.job, number) in s.rows ==> s.rows[(o.job, number)] == all[number - 1]
    {
      CleanRow(o, before, s, number);
      if number >= 0 {
        AllDelivered(o, before, s, number);
      }
    }
    forall n | (o.job, n) in s.rows
      ensures exists i :: 0 <= i < |all| && all[i].number == n
    {
      assert all[n - 1].number == n;
    }
    ReadBackUnique(s.rows, o.job, lines, all);
  }

  lemma EverythingTaken(o: Output, before: LogTable, s: State)
    requires Inv(o, before, s) && s.flusher.Stopped?
    ensures forall r :: LinesOf(s.hist.taken, r) == Emitted(o, r)
    ensures |s.hist.taken| == |o.stdout| + |o.stderr|
  {
    assert Finished(o, s, Stdout) && Finished(o, s, Stderr);
    forall r: Stream
      ensures LinesOf(s.hist.taken, r) == Emitted(o, r)
    {
      assert ReaderOk(o, s, r) && Finished(o, s, r);
    }
    LinesOfSizes(s.hist.taken);
    assert LinesOf(s.hist.taken, Stdout) == Emitted(o, Stdout) && LinesOf(s.hist.taken, Stderr) == Emitted(o, Stderr);
  }

  lemma FaithfulIff(o: Output, before: LogTable, s: State, lines: seq<LogLine>)
    requires Inv(o, before, s) && Complete(s) && NoRowsOf(before, o.job) && ReadBack(s.rows, o.job, lines)
    ensures Faithful(o, lines) <==> Straight(s.hist.delivered)
    ensures Faithful(o, lines) <==> |lines| == |o.stdout| + |o.stderr|
    ensures |lines| <= |o.stdout| + |o.stderr|
  {
    EverythingTaken(o, before, s);
    StraightDistinct(o, before, s);
    LinesReadBack(o, before, s, lines);
    TicketsDistinct(o, before, s);
    DistinctSize(NumberList(Rows(s.hist.delivered)));
    if Straight(s.hist.delivered) {
      CleanReadBack(o, before, s, lines);
      assert Origin(lines) == s.hist.taken;
    }
    if Faithful(o, lines) {
      LinesOfSizes(Origin(lines));
      assert LinesOf(Origin(lines), Stdout) == Emitted(o, Stdout)
        && LinesOf(Origin(lines), Stderr) == Emitted(o, Stderr);
    }
  }

  // A run in which no post failed reads back as an interleaving of the two streams with nothing
  // lost exactly when no reader found the other's number in `seq`; any race loses a line.
  lemma LosslessIff(o: Output, s: State, steps: seq<Step>, t: State, lines: seq<LogLine>)
    requires Init(o, s) && Leads(Next(o), s, steps, t) && Complete(t) && ReadBack(t.rows, o.job, lines)
    ensures Faithful(o, lines) <==> !RacedRun(o, s, steps)
    ensures RacedRun(o, s, steps) ==> |lines| < |o.stdout| + |o.stderr|
  {
    InitOk(o, s);
    RunKeeps(o, s.rows, s, steps, t);
    CleanRun(o, s.rows, s, steps, t);
    FaithfulIff(o, s.rows, t, lines);
    ClosedClean(o, s.rows, t);
  }

  lemma ClosedClean(o: Output, before: LogTable, s: State)
    requires Inv(o, before, s) && Complete(s)
    ensures Clean(s) <==> Straight(s.hist.delivered)
  {
    assert Finished(o, s, Stdout) && Finished(o, s, Stderr);
  }

  // Which outputs are safe -----------------------------------------------------------------------

  // Only one of the readers ever has a number in `seq`.
  predicate Alone(o: Output, s: State) {
    forall r :: At(s, r).at.Stored? ==> At(s, r).at.stored + 1 == |s.hist.stores| && Emitted(o, Other(r)) == []
  }

  lemma {:induction false} SilentRun(o: Output, before: LogTable, s: State, steps: seq<Step>, t: State)
    requires Inv(o, before, s) && Leads(Next(o), s, steps, t) && Alone(o, s) && (o.stdout == [] || o.stderr == [])
    ensures !RacedRun(o, s, steps) && Alone(o, t)
    decreases |steps|
  {
    if steps != [] {
      var n := |steps| - 1;
      var u := After(Next(o), s, steps[..n]).value;
      RunKeeps(o, before, s, steps[..n], u);
      SilentRun(o, before, s, steps[..n], u);
      AloneStep(o, u, steps[n]);
    }
  }

  lemma AloneStep(o: Output, s: State, step: Step)
    requires ReaderOk(o, s, Stdout) && ReaderOk(o, s, Stderr) && Enabled(o, s, step)
    requires Alone(o, s) && (o.stdout == [] || o.stderr == [])
    ensures Alone(o, Apply(o, s, step)) && !Raced(s, step)
  {
    assert ReaderOk(o, s, Stdout) && ReaderOk(o, s, Stderr);
    var t := Apply(o, s, step);
    forall r | At(t, r).at.Stored?
      ensures At(t, r).at.stored + 1 == |t.hist.stores| && Emitted(o, Other(r)) == []
    {
      assert ReaderOk(o, s, r) && ReaderOk(o, s, Other(r));
    }
  }

  // Steps that bring a run to its end without losing a post: first the readers, then the flusher.
  function NextStep(o: Output, s: State): Step
    requires !s.flusher.Stopped?
  {
    if !Finished(o, s, Stdout) then ReaderStep(s, Stdout)
    else if !Finished(o, s, Stderr) then ReaderStep(s, Stderr)
    else if !s.closed then Close
    else if s.flusher.Posting? then Post(|s.flusher.batch|)
    else Flush(true)
  }

  function ReaderStep(s: State, r: Stream): Step {
    match At(s, r).at
    case Scanning => Take(r)
    case Taken(_) => Store(r)
    case Stored(_, _) => Stamp(r)
    case Stamped(_) => Add(r)
  }

  function ReaderLeft(o: Output, s: State, r: Stream): int {
    4 * (|Emitted(o, r)| - At(s, r).next)
    - match At(s, r).at
      case Scanning => 0
      case Taken(_) => 1
      case Stored(_, _) => 2
      case Stamped(_) => 3
  }

  function FlusherLeft(s: State): nat {
    (if s.closed then 0 else 1)
    + match s.flusher
      case Waiting => 2
      case Posting(_, last) => if last then 1 else 3
      case Stopped => 0
  }

  function Left(o: Output, s: State): int {
    ReaderLeft(o, s, Stdout) + ReaderLeft(o, s, Stderr) + FlusherLeft(s)
  }

  lemma LeftBounded(o: Output, s: State)
    requires ReaderOk(o, s, Stdout) && ReaderOk(o, s, Stderr)
    ensures Left(o, s) >= 0
  {
  }

  lemma ReaderProgress(o: Output, s: State, r: Stream)
    requires ReaderOk(o, s, r) && !Finished(o, s, r)
    ensures Enabled(o, s, ReaderStep(s, r))
    ensures Left(o, Apply(o, s, ReaderStep(s, r))) < Left(o, s)
    ensures Apply(o, s, ReaderStep(s, r)).hist.dropped == s.hist.dropped
  {
    match At(s, r).at
    case Scanning => assert ReaderStep(s, r) == Take(r);
    case Taken(_) => assert ReaderStep(s, r) == Store(r);
    case Stored(_, _) => assert ReaderStep(s, r) == Stamp(r);
    case Stamped(_) => assert ReaderStep(s, r) == Add(r);
  }

  lemma Progress(o: Output, s: State)
    requires ReaderOk(o, s, Stdout) && ReaderOk(o, s, Stderr) && !s.flusher.Stopped?
    ensures Enabled(o, s, NextStep(o, s))
    ensures Left(o, Apply(o, s, NextStep(o, s))) < Left(o, s)
    ensures Apply(o, s, NextStep(o, s)).hist.dropped == s.hist.dropped
  {
    if !Finished(o, s, Stdout) {
      ReaderProgress(o, s, Stdout);
    } else if !Finished(o, s, Stderr) {
      ReaderProgress(o, s, Stderr);
    }
  }

  // Every run can be brought to its end without dropping anything more.
  lemma {:induction false} Ends(o: Output, before: LogTable, s0: State, first: seq<Step>, s: State)
    returns (steps: seq<Step>, t: State)
    requires Leads(Next(o), s0, first, s) && Inv(o, before, s)
    ensures Leads(Next(o), s0, steps, t) && first <= steps && t.flusher.Stopped? && t.hist.dropped == s.hist.dropped
    ensures Clean(t) ==> Clean(s)
    decreases Left(o, s)
  {
    steps, t := first, s;
    if !s.flusher.Stopped? {
      LeftBounded(o, s);
      Progress(o, s);
      var step := NextStep(o, s);
      StepKeeps(o, before, s, step);
      CleanStep(o, s, step);
      Onward(o, s0, first, s, step);
      steps, t := Ends(o, before, s0, first + [step], Apply(o, s, step));
    }
  }

  ghost predicate AlwaysFaithful(o: Output) {
    forall s, steps, t, lines |
      Init(o, s) && Leads(Next(o), s, steps, t) && Complete(t) && ReadBack(t.rows, o.job, lines) :: Faithful(o, lines)
  }

  // The pipeline keeps every line of a job, whatever the timing, exactly when one of the job's
  // streams is silent.
  lemma SafeOutputs(o: Output)
    ensures AlwaysFaithful(o) <==> o.stdout == [] || o.stderr == []
  {
    if o.stdout == [] || o.stderr == [] {
      forall s, steps, t, lines | Init(o, s) && Leads(Next(o), s, steps, t) && Complete(t)
        && ReadBack(t.rows, o.job, lines)
        ensures Faithful(o, lines)
      {
        InitOk(o, s);
        SilentRun(o, s.rows, s, steps, t);
        LosslessIff(o, s, steps, t, lines);
      }
    } else {
      var s, steps, t, lines := LosingRun(o);
    }
  }

  const START := State(0, 0, Reader(0, Scanning), Reader(0, Scanning), [], false, Waiting, map[],
                       History([], [], [], []))

  // Both readers store their first number before either reads it back.
  lemma Race(o: Output) returns (steps: seq<Step>, t: State)
    requires o.stdout != [] && o.stderr != []
    ensures Leads(Next(o), START, steps, t) && t.hist.dropped == [] && !Clean(t)
  {
    var s1 := Apply(o, START, Take(Stdout));
    var s2 := Apply(o, s1, Store(Stdout));
    var s3 := Apply(o, s2, Take(Stderr));
    var s4 := Apply(o, s3, Store(Stderr));
    t := Apply(o, s4, Stamp(Stdout));
    steps := [] + [Take(Stdout)] + [Store(Stdout)] + [Take(Stderr)] + [Store(Stderr)] + [Stamp(Stdout)];
    Onward(o, START, [], START, Take(Stdout));
    Onward(o, START, [] + [Take(Stdout)], s1, Store(Stdout));
    Onward(o, START, [] + [Take(Stdout)] + [Store(Stdout)], s2, Take(Stderr));
    Onward(o, START, [] + [Take(Stdout)] + [Store(Stdout)] + [Take(Stderr)], s3, Store(Stderr));
    Onward(o, START, [] + [Take(Stdout)] + [Store(Stdout)] + [Take(Stderr)] + [Store(Stderr)], s4, Stamp(Stdout));
    var held := HeldEntry(t.stdout);
    assert held[0].stored == 0 && held[0].seen == 1;
  }

  lemma LosingRun(o: Output) returns (s: State, steps: seq<Step>, t: State, lines: seq<LogLine>)
    requires o.stdout != [] && o.stderr != []
    ensures Init(o, s) && Leads(Next(o), s, steps, t) && Complete(t) && ReadBack(t.rows, o.job, lines)
    ensures !Faithful(o, lines)
  {
    s := START;
    InitOk(o, s);
    var first, raced := Race(o);
    RunKeeps(o, s.rows, s, first, raced);
    steps, t := Ends(o, s.rows, s, first, raced);
    RunKeeps(o, s.rows, s, steps, t);
    CleanRun(o, s.rows, s, steps, t);
    lines := TableReadBack(o, s.rows, t);
    LosslessIff(o, s, steps, t, lines);
  }

  lemma TableReadBack(o: Output, before: LogTable, s: State) returns (lines: seq<LogLine>)
    requires Inv(o, before, s) && NoRowsOf(before, o.job)
    ensures ReadBack(s.rows, o.job, lines)
  {
    var keys := set key | key in s.rows && key.0 == o.job;
    forall key | key in keys
      ensures s.rows[key].number == key.1
    {
      RowsOfJob(o, before, s, key.1);
    }
    lines := TakeAll(s.rows, o.job, keys, []);
  }

  lemma {:induction false} TakeAll(rows: LogTable, job: JobId, rest: set<(JobId, int)>, lines: seq<LogLine>)
    returns (all: seq<LogLine>)
    requires TakenLines(rows, job, rest, lines) && forall key | key in rest :: rows[key].number == key.1
    ensures ReadBack(rows, job, all)
    decreases rest
  {
    if rest == {} {
      all := lines;
    } else {
      var next := LowestKey(rest);
      TakeLine(rows, job, rest, lines, next);
      all := TakeAll(rows, job, rest - {next}, lines + [rows[next]]);
    }
  }

  lemma {:induction false} LowestKey(keys: set<(JobId, int)>) returns (lowest: (JobId, int))
    requires keys != {} && forall a, b | a in keys && b in keys :: a.0 == b.0
    ensures lowest in keys && forall key | key in keys && key != lowest :: lowest.1 < key.1
    decreases keys
  {
    lowest :| lowest in keys;
    if keys - {lowest} != {} {
      var least := LowestKey(keys - {lowest});
      if least.1 < lowest.1 {
        lowest := least;
      }
    }
  }
}
