/**
 From the two output readers of a job to its rows in job_logs, as a step system: each reader takes
 a number from the shared counter, goes through the `seq` variable that both share, and adds a
 line to the batcher; one flusher takes the buffer and posts it.
 */
module LogPipeline {
  import opened Wrappers
  import opened Runs
  import opened Jobs
  import opened JobLogs

  // What the playbook writes.
  datatype Output = Output(job: JobId, stdout: seq<string>, stderr: seq<string>)

  function Emitted(o: Output, r: Stream): seq<string> {
    match r
    case Stdout => o.stdout
    case Stderr => o.stderr
  }

  // A line on its way. The last three fields only record where its number came from: the number
  // its reader took, the position of that reader's store to `seq`, and the position of the store
  // whose value was read back.
  datatype Entry = Entry(row: LogLine, ticket: nat, stored: nat, seen: nat)

  // Where a reader is with line `next` of its stream.
  datatype Place =
    | Scanning
    | Taken(ticket: nat)
    | Stored(ticket: nat, stored: nat)
    | Stamped(entry: Entry)

  datatype Reader = Reader(next: nat, at: Place)

  datatype Flusher = Waiting | Posting(batch: seq<Entry>, last: bool) | Stopped

  // What has happened so far; no step depends on it.
  datatype History = History(
    taken: seq<(Stream, string)>,   // the line for which each number was taken
    stores: seq<nat>,               // the values stored to `seq`
    delivered: seq<Entry>,          // lines handed to the table
    dropped: seq<Entry>)            // lines of failed posts

  datatype State = State(
    counter: nat,
    shared: nat,
    stdout: Reader,
    stderr: Reader,
    buf: seq<Entry>,
    closed: bool,
    flusher: Flusher,
    rows: LogTable,
    hist: History)

  datatype Step =
    | Take(r: Stream)       // seq.Add(1)
    | Store(r: Stream)      // seq = n
    | Stamp(r: Stream)      // read seq back into the log line
    | Add(r: Stream)        // batcher.Add
    | Close                 // batcher.Flush, after both readers are done
    | Flush(last: bool)     // doFlush takes the buffer, on the ticker or on done
    | Post(landed: nat)     // the post returns; `landed` of its lines reached the table

  function At(s: State, r: Stream): Reader {
    match r
    case Stdout => s.stdout
    case Stderr => s.stderr
  }

  function Move(s: State, r: Stream, to: Reader): State {
    match r
    case Stdout => s.(stdout := to)
    case Stderr => s.(stderr := to)
  }

  predicate Finished(o: Output, s: State, r: Stream) {
    At(s, r).at.Scanning? && At(s, r).next >= |Emitted(o, r)|
  }

  predicate Enabled(o: Output, s: State, step: Step) {
    match step
    case Take(r) => At(s, r).at.Scanning? && At(s, r).next < |Emitted(o, r)|
    case Store(r) => At(s, r).at.Taken?
    case Stamp(r) => At(s, r).at.Stored? && At(s, r).next < |Emitted(o, r)|
    case Add(r) => At(s, r).at.Stamped?
    case Close => !s.closed && Finished(o, s, Stdout) && Finished(o, s, Stderr)
    case Flush(last) => s.flusher.Waiting? && (last ==> s.closed)
    case Post(landed) => s.flusher.Posting? && landed <= |s.flusher.batch|
  }

  function Rows(entries: seq<Entry>): seq<LogLine> {
    seq(|entries|, i requires 0 <= i < |entries| => entries[i].row)
  }

  function Took(o: Output, s: State, r: Stream): State
    requires At(s, r).next < |Emitted(o, r)|
  {
    Move(s, r, At(s, r).(at := Taken(s.counter + 1)))
      .(counter := s.counter + 1, hist := s.hist.(taken := s.hist.taken + [(r, Emitted(o, r)[At(s, r).next])]))
  }

  function DidStore(s: State, r: Stream): State
    requires At(s, r).at.Taken?
  {
    var n := At(s, r).at.ticket;
    Move(s, r, At(s, r).(at := Stored(n, |s.hist.stores|)))
      .(shared := n, hist := s.hist.(stores := s.hist.stores + [n]))
  }

  function Stamping(o: Output, s: State, r: Stream): Entry
    requires At(s, r).at.Stored? && At(s, r).next < |Emitted(o, r)|
  {
    Entry(LogLine(s.shared, Emitted(o, r)[At(s, r).next], r),
          At(s, r).at.ticket, At(s, r).at.stored, if s.hist.stores == [] then 0 else |s.hist.stores| - 1)
  }

  function DidStamp(o: Output, s: State, r: Stream): State
    requires At(s, r).at.Stored? && At(s, r).next < |Emitted(o, r)|
  {
    Move(s, r, At(s, r).(at := Stamped(Stamping(o, s, r))))
  }

  function Added(s: State, r: Stream): State
    requires At(s, r).at.Stamped?
  {
    Move(s, r, Reader(At(s, r).next + 1, Scanning)).(buf := s.buf + [At(s, r).at.entry])
  }

  function Flushed(s: State, last: bool): State {
    if s.buf == [] then s.(flusher := if last then Stopped else Waiting)
    else s.(buf := [], flusher := Posting(s.buf, last))
  }

  function Posted(o: Output, s: State, landed: nat): State
    requires s.flusher.Posting? && landed <= |s.flusher.batch|
  {
    var batch := s.flusher.batch;
    s.(flusher := if s.flusher.last then Stopped else Waiting,
       rows := InsertLines(s.rows, o.job, Rows(batch[..landed])),
       hist := s.hist.(delivered := s.hist.delivered + batch[..landed], dropped := s.hist.dropped + batch[landed..]))
  }

  function Apply(o: Output, s: State, step: Step): State
    requires Enabled(o, s, step)
  {
    match step
    case Take(r) => Took(o, s, r)
    case Store(r) => DidStore(s, r)
    case Stamp(r) => DidStamp(o, s, r)
    case Add(r) => Added(s, r)
    case Close => s.(closed := true)
    case Flush(last) => Flushed(s, last)
    case Post(landed) => Posted(o, s, landed)
  }

  // The other reader has stored to `seq` since this one did.
  predicate Raced(s: State, step: Step) {
    step.Stamp? && At(s, step.r).at.Stored? && At(s, step.r).at.stored + 1 != |s.hist.stores|
  }

  predicate Init(o: Output, s: State) {
    && s.counter == 0 && s.shared == 0 && s.buf == [] && !s.closed && s.flusher.Waiting?
    && s.stdout == Reader(0, Scanning) && s.stderr == Reader(0, Scanning)
    && (forall key | key in s.rows :: key.0 != o.job)
    && s.hist == History([], [], [], [])
  }

  ghost function Next(o: Output): (State, Step) -> Option<State> {
    (s: State, step: Step) => if Enabled(o, s, step) then Some(Apply(o, s, step)) else None
  }

  lemma Onward(o: Output, s: State, steps: seq<Step>, t: State, step: Step)
    requires Leads(Next(o), s, steps, t) && Enabled(o, t, step)
    ensures Leads(Next(o), s, steps + [step], Apply(o, t, step))
  {
    LeadsOn(Next(o), s, steps, t, step, Apply(o, t, step));
  }

  // Where the lines are ---------------------------------------------------------------------

  function InPost(s: State): seq<Entry> {
    if s.flusher.Posting? then s.flusher.batch else []
  }

  function HeldEntry(x: Reader): seq<Entry> {
    if x.at.Stamped? then [x.at.entry] else []
  }

  // Every line that has been stamped.
  function Entries(s: State): seq<Entry> {
    HeldEntry(s.stdout) + HeldEntry(s.stderr) + s.buf + InPost(s) + s.hist.delivered + s.hist.dropped
  }

  function Held(x: Reader, n: nat): nat {
    match x.at
    case Scanning => 0
    case Taken(t) => if t == n then 1 else 0
    case Stored(t, _) => if t == n then 1 else 0
    case Stamped(e) => if e.ticket == n then 1 else 0
  }

  // How many of the lines took number n.
  function Count(entries: seq<Entry>, n: nat): nat {
    if entries == [] then 0
    else Count(entries[..|entries| - 1], n) + if entries[|entries| - 1].ticket == n then 1 else 0
  }

  // In how many places number n is: with a reader, buffered, in a post, delivered or dropped.
  function Places(s: State, n: nat): nat {
    Held(s.stdout, n) + Held(s.stderr, n) + Count(s.buf, n) + Count(InPost(s), n)
    + Count(s.hist.delivered, n) + Count(s.hist.dropped, n)
  }

  lemma {:induction false} CountConcat(a: seq<Entry>, b: seq<Entry>, n: nat)
    ensures Count(a + b, n) == Count(a, n) + Count(b, n)
    decreases |b|
  {
    if b == [] {
      assert a + b == a;
    } else {
      assert (a + b)[..|a + b| - 1] == a + b[..|b| - 1];
      CountConcat(a, b[..|b| - 1], n);
    }
  }

  lemma {:induction false} CountAt(entries: seq<Entry>, n: nat)
    ensures Count(entries, n) > 0 <==> exists i :: 0 <= i < |entries| && entries[i].ticket == n
    ensures forall i, j | 0 <= i < j < |entries| && entries[i].ticket == n && entries[j].ticket == n ::
        Count(entries, n) > 1
  {
    if entries != [] {
      var m := |entries| - 1;
      CountAt(entries[..m], n);
      assert entries == entries[..m] + [entries[m]];
    }
  }

  // The lines of one stream in a mixed sequence.
  function LinesOf(lines: seq<(Stream, string)>, r: Stream): seq<string> {
    if lines == [] then []
    else LinesOf(lines[..|lines| - 1], r) + if lines[|lines| - 1].0 == r then [lines[|lines| - 1].1] else []
  }

  lemma {:induction false} LinesOfSizes(lines: seq<(Stream, string)>)
    ensures |lines| == |LinesOf(lines, Stdout)| + |LinesOf(lines, Stderr)|
  {
    if lines != [] {
      LinesOfSizes(lines[..|lines| - 1]);
    }
  }

  lemma LinesOfSnoc(lines: seq<(Stream, string)>, x: (Stream, string), r: Stream)
    ensures LinesOf(lines + [x], r) == LinesOf(lines, r) + if x.0 == r then [x.1] else []
  {
    assert (lines + [x])[..|lines|] == lines;
  }

  // The invariant ---------------------------------------------------------------------------

  predicate EntryOk(h: History, e: Entry) {
    && e.stored <= e.seen < |h.stores|
    && h.stores[e.stored] == e.ticket && h.stores[e.seen] == e.row.number
    && 1 <= e.ticket <= |h.taken| && h.taken[e.ticket - 1] == (e.row.stream, e.row.line)
  }

  predicate AllOk(h: History, entries: seq<Entry>) {
    forall i | 0 <= i < |entries| :: EntryOk(h, entries[i])
  }

  predicate LineOk(lines: seq<string>, r: Stream, x: Reader, h: History) {
    var begun := x.next + if x.at.Scanning? then 0 else 1;
    && begun <= |lines| && LinesOf(h.taken, r) == lines[..begun]
    && match x.at
       case Scanning => true
       case Taken(t) => 1 <= t <= |h.taken| && h.taken[t - 1] == (r, lines[x.next]) && t !in h.stores
       case Stored(t, p) => 1 <= t <= |h.taken| && h.taken[t - 1] == (r, lines[x.next]) && p < |h.stores|
         && h.stores[p] == t
       case Stamped(e) => EntryOk(h, e) && e.row.stream == r && e.row.line == lines[x.next]
  }

  predicate ReaderOk(o: Output, s: State, r: Stream) {
    LineOk(Emitted(o, r), r, At(s, r), s.hist)
  }

  predicate StoresOk(s: State) {
    && s.counter == |s.hist.taken|
    && (s.hist.stores != [] ==> s.shared == s.hist.stores[|s.hist.stores| - 1])
    && (forall p | 0 <= p < |s.hist.stores| :: 1 <= s.hist.stores[p] <= |s.hist.taken|)
    && (forall p, q | 0 <= p < q < |s.hist.stores| :: s.hist.stores[p] != s.hist.stores[q])
  }

  predicate EntriesOk(s: State) {
    AllOk(s.hist, s.buf) && AllOk(s.hist, InPost(s)) && AllOk(s.hist, s.hist.delivered) && AllOk(s.hist, s.hist.dropped)
  }

  // Every number taken is in exactly one place, and nothing else is anywhere.
  ghost predicate Conserved(s: State) {
    forall n: nat :: Places(s, n) == if 1 <= n <= s.counter then 1 else 0
  }

  predicate ClosingOk(o: Output, s: State) {
    && (s.closed ==> Finished(o, s, Stdout) && Finished(o, s, Stderr))
    && (s.flusher.Stopped? || (s.flusher.Posting? && s.flusher.last) ==> s.closed && s.buf == [])
  }

  ghost predicate Inv(o: Output, before: LogTable, s: State) {
    && ReaderOk(o, s, Stdout) && ReaderOk(o, s, Stderr)
    && StoresOk(s) && EntriesOk(s) && Conserved(s) && ClosingOk(o, s)
    && s.rows == InsertLines(before, o.job, Rows(s.hist.delivered))
  }

  lemma InitOk(o: Output, s: State)
    requires Init(o, s)
    ensures Inv(o, s.rows, s)
  {
  }

  // The history only grows at its end.
  predicate Grows(h: History, g: History) {
    h.taken <= g.taken && h.stores <= g.stores
  }

  lemma EntryStays(h: History, g: History, e: Entry)
    requires EntryOk(h, e) && Grows(h, g)
    ensures EntryOk(g, e)
  {
  }

  lemma AllStay(h: History, g: History, entries: seq<Entry>)
    requires AllOk(h, entries) && Grows(h, g)
    ensures AllOk(g, entries)
  {
    forall i | 0 <= i < |entries|
      ensures EntryOk(g, entries[i])
    {
      EntryStays(h, g, entries[i]);
    }
  }

  lemma GrowsOnly(o: Output, s: State, step: Step)
    requires Enabled(o, s, step)
    ensures Grows(s.hist, Apply(o, s, step).hist)
  {
  }

  function Other(r: Stream): Stream {
    if r == Stdout then Stderr else Stdout
  }

  lemma LineStays(lines: seq<string>, r: Stream, x: Reader, h: History, g: History)
    requires LineOk(lines, r, x, h) && Grows(h, g) && LinesOf(g.taken, r) == LinesOf(h.taken, r)
    requires x.at.Taken? ==> x.at.ticket !in g.stores
    ensures LineOk(lines, r, x, g)
  {
  }

  // The other reader does not notice.
  lemma OtherReader(o: Output, s: State, step: Step, r: Stream)
    requires ReaderOk(o, s, r) && Enabled(o, s, step)
    requires (step.Take? || step.Store? || step.Stamp? || step.Add?) ==> step.r == Other(r)
    requires step.Store? && At(s, r).at.Taken? ==> At(s, step.r).at.ticket != At(s, r).at.ticket
    ensures ReaderOk(o, Apply(o, s, step), r)
  {
    var t := Apply(o, s, step);
    GrowsOnly(o, s, step);
    if step.Take? {
      LinesOfSnoc(s.hist.taken, (step.r, Emitted(o, step.r)[At(s, step.r).next]), r);
    }
    LineStays(Emitted(o, r), r, At(s, r), s.hist, t.hist);
  }

  lemma OwnStep(o: Output, s: State, step: Step, r: Stream)
    requires ReaderOk(o, s, r) && StoresOk(s) && Enabled(o, s, step)
    requires (step.Take? || step.Store? || step.Stamp? || step.Add?) && step.r == r
    ensures ReaderOk(o, Apply(o, s, step), r)
  {
    if step.Take? {
      var lines, n := Emitted(o, r), At(s, r).next;
      LinesOfSnoc(s.hist.taken, (r, lines[n]), r);
      assert lines[..n + 1] == lines[..n] + [lines[n]];
      assert forall p | 0 <= p < |s.hist.stores| :: s.hist.stores[p] != s.counter + 1;
    }
  }

  lemma StoresKeep(o: Output, s: State, step: Step)
    requires ReaderOk(o, s, Stdout) && ReaderOk(o, s, Stderr) && StoresOk(s) && Enabled(o, s, step)
    ensures StoresOk(Apply(o, s, step))
  {
    if step.Store? {
      assert forall p | 0 <= p < |s.hist.stores| :: s.hist.stores[p] in s.hist.stores;
    }
  }

  lemma EntriesKeep(o: Output, s: State, step: Step)
    requires ReaderOk(o, s, Stdout) && ReaderOk(o, s, Stderr) && EntriesOk(s) && Enabled(o, s, step)
    ensures EntriesOk(Apply(o, s, step))
  {
    var t := Apply(o, s, step);
    GrowsOnly(o, s, step);
    AllStay(s.hist, t.hist, s.buf);
    AllStay(s.hist, t.hist, InPost(s));
    AllStay(s.hist, t.hist, s.hist.delivered);
    AllStay(s.hist, t.hist, s.hist.dropped);
  }

  lemma PlacesKeep(o: Output, s: State, step: Step, n: nat)
    requires Places(s, n) == (if 1 <= n <= s.counter then 1 else 0) && Enabled(o, s, step)
    ensures Places(Apply(o, s, step), n) == if 1 <= n <= Apply(o, s, step).counter then 1 else 0
  {
    match step
    case Take(r) => TookPlaces(o, s, r, n);
    case Store(r) => StoredPlaces(s, r, n);
    case Stamp(r) => StampedPlaces(o, s, r, n);
    case Add(r) => AddedPlaces(s, r, n);
    case Close =>
    case Flush(last) => FlushedPlaces(s, last, n);
    case Post(landed) => PostedPlaces(o, s, landed, n);
  }

  lemma StoredPlaces(s: State, r: Stream, n: nat)
    requires At(s, r).at.Taken?
    ensures Places(DidStore(s, r), n) == Places(s, n)
  {
  }

  lemma StampedPlaces(o: Output, s: State, r: Stream, n: nat)
    requires At(s, r).at.Stored? && At(s, r).next < |Emitted(o, r)|
    ensures Places(DidStamp(o, s, r), n) == Places(s, n)
  {
  }

  lemma FlushedPlaces(s: State, last: bool, n: nat)
    requires s.flusher.Waiting?
    ensures Places(Flushed(s, last), n) == Places(s, n)
  {
  }

  lemma TookPlaces(o: Output, s: State, r: Stream, n: nat)
    requires At(s, r).at.Scanning? && At(s, r).next < |Emitted(o, r)|
    ensures Places(Took(o, s, r), n) == Places(s, n) + if n == s.counter + 1 then 1 else 0
  {
  }

  lemma AddedPlaces(s: State, r: Stream, n: nat)
    requires At(s, r).at.Stamped?
    ensures Places(Added(s, r), n) == Places(s, n)
  {
    assert (s.buf + [At(s, r).at.entry])[..|s.buf|] == s.buf;
  }

  lemma PostedPlaces(o: Output, s: State, landed: nat, n: nat)
    requires s.flusher.Posting? && landed <= |s.flusher.batch|
    ensures Places(Posted(o, s, landed), n) == Places(s, n)
  {
    var batch := s.flusher.batch;
    assert batch == batch[..landed] + batch[landed..];
    CountConcat(batch[..landed], batch[landed..], n);
    CountConcat(s.hist.delivered, batch[..landed], n);
    CountConcat(s.hist.dropped, batch[landed..], n);
  }

  lemma RowsKeep(o: Output, before: LogTable, s: State, step: Step)
    requires s.rows == InsertLines(before, o.job, Rows(s.hist.delivered)) && Enabled(o, s, step)
    ensures Apply(o, s, step).rows == InsertLines(before, o.job, Rows(Apply(o, s, step).hist.delivered))
  {
    if step.Post? {
      var landed := s.flusher.batch[..step.landed];
      InsertConcat(before, o.job, Rows(s.hist.delivered), Rows(landed));
      assert Rows(s.hist.delivered + landed) == Rows(s.hist.delivered) + Rows(landed);
    }
  }

  lemma ClosingKeeps(o: Output, s: State, step: Step)
    requires ClosingOk(o, s) && Enabled(o, s, step)
    ensures ClosingOk(o, Apply(o, s, step))
  {
  }

  lemma ReadersKeep(o: Output, s: State, step: Step, r: Stream)
    requires ReaderOk(o, s, r) && StoresOk(s) && Conserved(s) && Enabled(o, s, step)
    ensures ReaderOk(o, Apply(o, s, step), r)
  {
    if (step.Take? || step.Store? || step.Stamp? || step.Add?) && step.r == r {
      OwnStep(o, s, step, r);
    } else {
      if step.Store? && At(s, r).at.Taken? {
        assert Places(s, At(s, r).at.ticket) <= 1;
      }
      OtherReader(o, s, step, r);
    }
  }

  lemma StepKeeps(o: Output, before: LogTable, s: State, step: Step)
    requires Inv(o, before, s) && Enabled(o, s, step)
    ensures Inv(o, before, Apply(o, s, step))
  {
    ReadersKeep(o, s, step, Stdout);
    ReadersKeep(o, s, step, Stderr);
    StoresKeep(o, s, step);
    EntriesKeep(o, s, step);
    forall n: nat
      ensures Places(Apply(o, s, step), n) == if 1 <= n <= Apply(o, s, step).counter then 1 else 0
    {
      PlacesKeep(o, s, step, n);
    }
    ClosingKeeps(o, s, step);
    RowsKeep(o, before, s, step);
  }
}
