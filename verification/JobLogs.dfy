/** The job_logs table (migrations/000015) and the two methods of api/internal/store/jobs.go on it. */
module JobLogs {
  import opened Wrappers
  import opened Jobs

  datatype Stream = Stdout | Stderr

  datatype LogLine = LogLine(number: int, line: string, stream: Stream)

  // Rows by (job_id, seq), which is UNIQUE.
  type LogTable = map<(JobId, int), LogLine>

  // INSERT ... ON CONFLICT (job_id, seq) DO NOTHING.
  function InsertLine(rows: LogTable, job: JobId, l: LogLine): LogTable {
    if (job, l.number) in rows then rows else rows[(job, l.number) := l]
  }

  function InsertLines(rows: LogTable, job: JobId, lines: seq<LogLine>): LogTable {
    if lines == [] then rows
    else InsertLine(InsertLines(rows, job, lines[..|lines| - 1]), job, lines[|lines| - 1])
  }

  predicate Unused(lines: seq<LogLine>, number: int) {
    forall i | 0 <= i < |lines| :: lines[i].number != number
  }

  // The first line posted under a number.
  function FirstIndex(lines: seq<LogLine>, number: int): (i: nat)
    requires !Unused(lines, number)
    ensures i < |lines| && lines[i].number == number && Unused(lines[..i], number)
  {
    var n := |lines| - 1;
    if Unused(lines[..n], number) then n
    else
      var i := FirstIndex(lines[..n], number);
      assert lines[..i] == lines[..n][..i];
      i
  }

  // The row already there stays; otherwise the first line posted under a number wins; and other
  // jobs' rows are not touched.
  lemma {:induction false} FirstWriteWins(rows: LogTable, job: JobId, lines: seq<LogLine>, owner: JobId, number: int)
    ensures var after := InsertLines(rows, job, lines);
            && ((owner, number) in after <==> (owner, number) in rows || (owner == job && !Unused(lines, number)))
            && ((owner, number) in rows ==> after[(owner, number)] == rows[(owner, number)])
            && (owner == job && (job, number) !in rows && !Unused(lines, number) ==>
                  after[(job, number)] == lines[FirstIndex(lines, number)])
  {
    if lines != [] {
      var n := |lines| - 1;
      FirstWriteWins(rows, job, lines[..n], owner, number);
    }
  }

  lemma {:induction false} InsertConcat(rows: LogTable, job: JobId, a: seq<LogLine>, b: seq<LogLine>)
    ensures InsertLines(rows, job, a + b) == InsertLines(InsertLines(rows, job, a), job, b)
    decreases |b|
  {
    if b == [] {
      assert a + b == a;
    } else {
      assert (a + b)[..|a + b| - 1] == a + b[..|b| - 1];
      InsertConcat(rows, job, a, b[..|b| - 1]);
    }
  }

  lemma {:induction false} InsertAgain(rows: LogTable, job: JobId, lines: seq<LogLine>)
    requires forall i | 0 <= i < |lines| :: (job, lines[i].number) in rows
    ensures InsertLines(rows, job, lines) == rows
  {
    if lines != [] {
      InsertAgain(rows, job, lines[..|lines| - 1]);
    }
  }

  // Posting a batch again after a post that failed part of the way leaves the table as one
  // complete post would have.
  lemma RetrySafe(rows: LogTable, job: JobId, lines: seq<LogLine>, landed: nat)
    requires landed <= |lines|
    ensures InsertLines(InsertLines(rows, job, lines[..landed]), job, lines) == InsertLines(rows, job, lines)
  {
    var done, left := lines[..landed], lines[landed..];
    var partial := InsertLines(rows, job, done);
    assert lines == done + left;
    InsertConcat(rows, job, done, left);
    InsertConcat(partial, job, done, left);
    forall i | 0 <= i < |done|
      ensures (job, done[i].number) in partial
    {
      FirstWriteWins(rows, job, done, job, done[i].number);
    }
    InsertAgain(partial, job, done);
  }

  // Rows are only ever added.
  predicate Grown(a: LogTable, b: LogTable) {
    forall key | key in a :: key in b && b[key] == a[key]
  }

  // A post whose lines went in one at a time while others wrote to the table as well; line i met
  // the table mets[i].
  ghost predicate Interleaved(before: LogTable, job: JobId, lines: seq<LogLine>, mets: seq<LogTable>, after: LogTable) {
    && |mets| == |lines|
    && if lines == [] then Grown(before, after)
       else
         var n := |lines| - 1;
         Interleaved(before, job, lines[..n], mets[..n], mets[n]) && Grown(InsertLine(mets[n], job, lines[n]), after)
  }

  lemma InterleavedOn(before: LogTable, job: JobId, lines: seq<LogLine>, mets: seq<LogTable>, after: LogTable,
                      later: LogTable)
    requires Interleaved(before, job, lines, mets, after) && Grown(after, later)
    ensures Interleaved(before, job, lines, mets, later)
  {
  }

  lemma InterleavedNext(before: LogTable, job: JobId, lines: seq<LogLine>, mets: seq<LogTable>, met: LogTable,
                        l: LogLine)
    requires Interleaved(before, job, lines, mets, met)
    ensures Interleaved(before, job, lines + [l], mets + [met], InsertLine(met, job, l))
  {
    assert (lines + [l])[..|lines|] == lines && (mets + [met])[..|mets|] == mets;
  }

  // However others write meanwhile, every line of such a post is in the table at the end, as
  // posted unless its number was taken when it arrived; and nothing that was there is changed.
  lemma {:induction false} InterleavedLands(before: LogTable, job: JobId, lines: seq<LogLine>, mets: seq<LogTable>,
                                            after: LogTable)
    requires Interleaved(before, job, lines, mets, after)
    ensures Grown(before, after)
    ensures forall i | 0 <= i < |lines| ::
              && (job, lines[i].number) in after
              && ((job, lines[i].number) !in mets[i] ==> after[(job, lines[i].number)] == lines[i])
  {
    if lines != [] {
      var n := |lines| - 1;
      InterleavedLands(before, job, lines[..n], mets[..n], mets[n]);
      forall i | 0 <= i < n
        ensures (job, lines[i].number) in after
        ensures (job, lines[i].number) !in mets[i] ==> after[(job, lines[i].number)] == lines[i]
      {
        assert lines[..n][i] == lines[i] && mets[..n][i] == mets[i];
      }
    }
  }

  // SELECT ... WHERE job_id = $1 ORDER BY seq.
  ghost predicate ReadBack(rows: LogTable, job: JobId, lines: seq<LogLine>) {
    && (forall i | 0 <= i < |lines| :: (job, lines[i].number) in rows && rows[(job, lines[i].number)] == lines[i])
    && Sorted(lines)
    && (forall n | (job, n) in rows :: exists i :: 0 <= i < |lines| && lines[i].number == n)
  }

  class Logs {
    var rows: LogTable
    ghost var errors: nat  // INSERTs that reported an error
    ghost var unread: nat  // SELECTs that did

    // One INSERT; on an error it may have been applied or not.
    method InsertLog(job: JobId, l: LogLine) returns (error: bool, ghost applied: bool)
      modifies this`rows, this`errors
      ensures applied || error
      ensures rows == if applied then InsertLine(old(rows), job, l) else old(rows)
      ensures errors == old(errors) + if error then 1 else 0
    {
      error := *;
      var reached: bool := *;
      reached := reached || !error;
      applied := reached;
      if reached && (job, l.number) !in rows {
        rows := rows[(job, l.number) := l];
      }
      if error {
        errors := errors + 1;
      }
    }

    // One INSERT per line, each its own transaction, while nobody else writes to the table;
    // `landed` is how many took effect.
    method AppendJobLogs(job: JobId, lines: seq<LogLine>) returns (error: bool, ghost landed: nat)
      modifies this`rows, this`errors
      ensures landed <= |lines| && (!error ==> landed == |lines|)
      ensures rows == InsertLines(old(rows), job, lines[..landed])
      ensures errors == old(errors) + if error then 1 else 0
    {
      landed := 0;
      for i := 0 to |lines|
        invariant landed == i && rows == InsertLines(old(rows), job, lines[..i]) && errors == old(errors)
      {
        assert lines[..i + 1][..i] == lines[..i];
        ghost var applied;
        error, applied := InsertLog(job, lines[i]);
        if applied {
          landed := i + 1;
        }
        if error {
          return;
        }
      }
      error := false;
    }

    // The SELECT; None is a store error.
    method GetJobLogs(job: JobId) returns (read: Option<seq<LogLine>>)
      requires forall key | key in rows :: rows[key].number == key.1
      modifies this`unread
      ensures read.Some? ==> ReadBack(rows, job, read.value)
      ensures unread == old(unread) + if read.None? then 1 else 0
    {
      var error := *;
      if error {
        unread := unread + 1;
        return None;
      }
      var lines: seq<LogLine> := [];
      var rest := set key | key in rows && key.0 == job;
      while rest != {}
        invariant TakenLines(rows, job, rest, lines) && unread == old(unread)
        decreases rest
      {
        var next := Lowest(rest);
        TakeLine(rows, job, rest, lines, next);
        lines := lines + [rows[next]];
        rest := rest - {next};
      }
      read := Some(lines);
    }

    method Lowest(keys: set<(JobId, int)>) returns (lowest: (JobId, int))
      requires keys != {} && forall a, b | a in keys && b in keys :: a.0 == b.0
      ensures lowest in keys
      ensures forall key | key in keys && key != lowest :: lowest.1 < key.1
    {
      lowest :| lowest in keys;
      var rest := keys - {lowest};
      while rest != {}
        invariant rest <= keys && lowest in keys && lowest !in rest
        invariant forall key | key in keys && key !in rest && key != lowest :: lowest.1 < key.1
        decreases rest
      {
        var key :| key in rest;
        if key.1 < lowest.1 {
          lowest := key;
        }
        rest := rest - {key};
      }
    }
  }

  // The query part of the way.
  ghost predicate TakenLines(rows: LogTable, job: JobId, rest: set<(JobId, int)>, lines: seq<LogLine>) {
    && (forall key | key in rest :: key in rows && key.0 == job)
    && (forall i | 0 <= i < |lines| :: (job, lines[i].number) in rows && rows[(job, lines[i].number)] == lines[i])
    && Sorted(lines)
    && (forall i, key | 0 <= i < |lines| && key in rest :: lines[i].number < key.1)
    && (forall n | (job, n) in rows && (job, n) !in rest :: exists i :: 0 <= i < |lines| && lines[i].number == n)
  }

  lemma TakeLine(rows: LogTable, job: JobId, rest: set<(JobId, int)>, lines: seq<LogLine>, next: (JobId, int))
    requires TakenLines(rows, job, rest, lines) && next in rest && rows[next].number == next.1
    requires forall key | key in rest && key != next :: next.1 < key.1
    ensures TakenLines(rows, job, rest - {next}, lines + [rows[next]])
  {
    var longer := lines + [rows[next]];
    forall n | (job, n) in rows && (job, n) !in rest - {next}
      ensures exists i :: 0 <= i < |longer| && longer[i].number == n
    {
      if (job, n) == next {
        assert longer[|lines|].number == n;
      } else {
        var i :| 0 <= i < |lines| && lines[i].number == n;
        assert longer[i].number == n;
      }
    }
  }

  // The read-back of a table is unique.
  lemma ReadBackUnique(rows: LogTable, job: JobId, a: seq<LogLine>, b: seq<LogLine>)
    requires ReadBack(rows, job, a) && ReadBack(rows, job, b)
    ensures a == b
  {
    ReadBackHolds(rows, job, a, b);
    ReadBackHolds(rows, job, b, a);
    SortedUnique(a, b);
  }

  lemma ReadBackHolds(rows: LogTable, job: JobId, a: seq<LogLine>, b: seq<LogLine>)
    requires ReadBack(rows, job, a) && ReadBack(rows, job, b)
    ensures forall l | l in a :: l in b
  {
    forall l | l in a
      ensures l in b
    {
      var i :| 0 <= i < |b| && b[i].number == l.number;
      assert b[i] == l;
    }
  }

  predicate Sorted(lines: seq<LogLine>) {
    forall i, j | 0 <= i < j < |lines| :: lines[i].number < lines[j].number
  }

  lemma AllButLast(lines: seq<LogLine>, l: LogLine)
    requires lines != [] && Sorted(lines)
    ensures l in lines[..|lines| - 1] <==> l in lines && l != lines[|lines| - 1]
  {
    assert lines == lines[..|lines| - 1] + [lines[|lines| - 1]];
  }

  lemma NotEmpty(lines: seq<LogLine>)
    ensures lines != [] <==> exists l :: l in lines
  {
    if lines != [] {
      assert lines[0] in lines;
    }
  }

  lemma SameLast(a: seq<LogLine>, b: seq<LogLine>)
    requires Sorted(a) && Sorted(b) && a != [] && b != []
    requires forall l :: l in a <==> l in b
    ensures a[|a| - 1] == b[|b| - 1]
  {
    assert a[|a| - 1] in b && b[|b| - 1] in a;
  }

  lemma SortedPrefix(lines: seq<LogLine>)
    requires Sorted(lines) && lines != []
    ensures Sorted(lines[..|lines| - 1]) && lines == lines[..|lines| - 1] + [lines[|lines| - 1]]
  {
  }

  lemma {:induction false} SortedUnique(a: seq<LogLine>, b: seq<LogLine>)
    requires Sorted(a) && Sorted(b)
    requires forall l :: l in a <==> l in b
    ensures a == b
  {
    NotEmpty(a);
    NotEmpty(b);
    if a != [] && b != [] {
      var m, n := |a| - 1, |b| - 1;
      SameLast(a, b);
      forall l
        ensures l in a[..m] <==> l in b[..n]
      {
        AllButLast(a, l);
        AllButLast(b, l);
      }
      SortedPrefix(a);
      SortedPrefix(b);
      SortedUnique(a[..m], b[..n]);
    }
  }
}
