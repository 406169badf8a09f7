/**
 agent/internal/server/server.go: the capacity check, the `running` map and the counter as separate
 atomic steps of any number of dispatch handlers, executing jobs and cancel requests.
 */
module AgentServer {
  import opened Wrappers
  import opened Runs
  import opened Jobs

  // Where a dispatched job is, from the capacity check to the end of the deferred cleanup.
  datatype Stage =
    | Admitted   // passed the check, not in the map yet
    | Inserted   // in the map, not counted yet
    | Executing  // counted, its goroutine started
    | Deleted    // taken out of the map by its cleanup, still counted

  datatype Task = Task(job: JobId, stage: Stage)

  // A task's number stands for its context and cancel function.
  datatype State = State(
    next: nat,
    tasks: map<nat, Task>,
    running: map<JobId, nat>,
    count: int,
    cancelled: set<nat>)

  // capacity, and the most dispatch handlers that are ever active at once.
  datatype Limits = Limits(capacity: int, handlers: nat)

  datatype Step =
    | Admit(job: JobId)     // count.Load() < capacity
    | Insert(t: nat)        // running[job] = cancel
    | Start(t: nat)         // count.Add(1); go executeJob
    | Delete(t: nat)        // delete(running, job)
    | Finish(t: nat)        // count.Add(-1)
    | Cancel(job: JobId)    // look the job up and cancel what is found

  predicate InStage(s: State, t: nat, stage: Stage) {
    t in s.tasks && s.tasks[t].stage == stage
  }

  // Dispatch handlers that have passed the check and not returned.
  function Handling(s: State): set<nat> {
    set t | t in s.tasks && (s.tasks[t].stage.Admitted? || s.tasks[t].stage.Inserted?)
  }

  function Counted(s: State): set<nat> {
    set t | t in s.tasks && (s.tasks[t].stage.Executing? || s.tasks[t].stage.Deleted?)
  }

  predicate Enabled(k: Limits, s: State, step: Step) {
    match step
    case Admit(_) => s.count < k.capacity && |Handling(s)| < k.handlers
    case Insert(t) => InStage(s, t, Admitted)
    case Start(t) => InStage(s, t, Inserted)
    case Delete(t) => InStage(s, t, Executing)
    case Finish(t) => InStage(s, t, Deleted)
    case Cancel(_) => true
  }

  function Moved(s: State, t: nat, stage: Stage): State
    requires t in s.tasks
  {
    s.(tasks := s.tasks[t := s.tasks[t].(stage := stage)])
  }

  function Apply(k: Limits, s: State, step: Step): State
    requires Enabled(k, s, step)
  {
    match step
    case Admit(job) => s.(next := s.next + 1, tasks := s.tasks[s.next := Task(job, Admitted)])
    case Insert(t) => Moved(s, t, Inserted).(running := s.running[s.tasks[t].job := t])
    case Start(t) => Moved(s, t, Executing).(count := s.count + 1)
    case Delete(t) => Moved(s, t, Deleted).(running := s.running - {s.tasks[t].job})
    case Finish(t) => s.(tasks := s.tasks - {t}, count := s.count - 1)
    case Cancel(job) => if job in s.running then s.(cancelled := s.cancelled + {s.running[job]}) else s
  }

  const EMPTY := State(0, map[], map[], 0, {})

  ghost function Next(k: Limits): (State, Step) -> Option<State> {
    (s: State, step: Step) => if Enabled(k, s, step) then Some(Apply(k, s, step)) else None
  }

  lemma Onward(k: Limits, s: State, steps: seq<Step>, t: State, step: Step)
    requires Leads(Next(k), s, steps, t) && Enabled(k, t, step)
    ensures Leads(Next(k), s, steps + [step], Apply(k, t, step))
  {
    LeadsOn(Next(k), s, steps, t, step, Apply(k, t, step));
  }

  // A task whose entry in the map is, or should be, its own.
  predicate Listed(s: State, t: nat) {
    t in s.tasks && (s.tasks[t].stage.Inserted? || s.tasks[t].stage.Executing?)
  }

  predicate EntryOk(s: State, job: JobId) {
    job in s.running ==> Listed(s, s.running[job]) && s.tasks[s.running[job]].job == job
  }

  // Jobs being handled, together with those counted.
  predicate Bounded(k: Limits, s: State) {
    s.count + |Handling(s)| == 0 || s.count + |Handling(s)| <= k.capacity + k.handlers - 1
  }

  ghost predicate Inv(k: Limits, s: State) {
    && s.count == |Counted(s)|
    && Bounded(k, s)
    && (forall job :: EntryOk(s, job))
    && (forall t | t in s.tasks :: t < s.next)
  }

  lemma CountStep(k: Limits, s: State, step: Step)
    requires Inv(k, s) && Enabled(k, s, step)
    ensures var u := Apply(k, s, step); u.count == |Counted(u)| && Bounded(k, u)
  {
    var u := Apply(k, s, step);
    match step
    case Admit(job) => AdmitCount(k, s, job);
    case Insert(t) => SameCount(s, u, t, Inserted);
    case Start(t) => StartCount(k, s, t);
    case Delete(t) => SameCount(s, u, t, Deleted);
    case Finish(t) => FinishCount(k, s, t);
    case Cancel(job) =>
  }

  lemma SameCount(s: State, u: State, t: nat, stage: Stage)
    requires t in s.tasks && u.tasks == s.tasks[t := s.tasks[t].(stage := stage)]
    requires (stage.Inserted? && InStage(s, t, Admitted)) || (stage.Deleted? && InStage(s, t, Executing))
    ensures Counted(u) == Counted(s) && Handling(u) == Handling(s)
  {
  }

  lemma StartCount(k: Limits, s: State, t: nat)
    requires Inv(k, s) && Enabled(k, s, Start(t))
    ensures var u := Apply(k, s, Start(t)); u.count == |Counted(u)| && Bounded(k, u)
  {
    var u := Apply(k, s, Start(t));
    assert Counted(u) == Counted(s) + {t};
    assert Handling(u) == Handling(s) - {t};
  }

  lemma AdmitCount(k: Limits, s: State, job: JobId)
    requires Inv(k, s) && Enabled(k, s, Admit(job))
    ensures var u := Apply(k, s, Admit(job)); u.count == |Counted(u)| && Bounded(k, u)
  {
    AdmitSets(s, Apply(k, s, Admit(job)), job);
  }

  lemma AdmitSets(s: State, u: State, job: JobId)
    requires s.next !in s.tasks && u.tasks == s.tasks[s.next := Task(job, Admitted)]
    ensures Counted(u) == Counted(s) && Handling(u) == Handling(s) + {s.next} && s.next !in Handling(s)
  {
  }

  lemma FinishCount(k: Limits, s: State, t: nat)
    requires Inv(k, s) && Enabled(k, s, Finish(t))
    ensures var u := Apply(k, s, Finish(t)); u.count == |Counted(u)| && Bounded(k, u)
  {
    var u := Apply(k, s, Finish(t));
    assert Counted(u) == Counted(s) - {t};
    assert Handling(u) == Handling(s);
  }

  lemma EntryStep(k: Limits, s: State, step: Step, job: JobId)
    requires Inv(k, s) && Enabled(k, s, step)
    ensures EntryOk(Apply(k, s, step), job)
  {
    assert EntryOk(s, job);
  }

  lemma StepKeeps(k: Limits, s: State, step: Step)
    requires Inv(k, s) && Enabled(k, s, step)
    ensures Inv(k, Apply(k, s, step))
  {
    CountStep(k, s, step);
    forall job
      ensures EntryOk(Apply(k, s, step), job)
    {
      EntryStep(k, s, step, job);
    }
  }

  lemma {:induction false} RunKeeps(k: Limits, s: State, steps: seq<Step>, t: State)
    requires Inv(k, s) && Leads(Next(k), s, steps, t)
    ensures Inv(k, t)
    decreases |steps|
  {
    if steps != [] {
      var n := |steps| - 1;
      var u := After(Next(k), s, steps[..n]).value;
      RunKeeps(k, s, steps[..n], u);
      StepKeeps(k, u, steps[n]);
    }
  }

  lemma EmptyOk(k: Limits)
    ensures Inv(k, EMPTY)
  {
    assert Counted(EMPTY) == {} && Handling(EMPTY) == {};
  }

  // In every run the counter stays between 0 and capacity + handlers - 1.
  lemma AdmissionBound(k: Limits, steps: seq<Step>, s: State)
    requires Leads(Next(k), EMPTY, steps, s) && k.capacity >= 1 && k.handlers >= 1
    ensures 0 <= s.count <= k.capacity + k.handlers - 1
  {
    EmptyOk(k);
    RunKeeps(k, EMPTY, steps, s);
  }

  // The bound is exact -------------------------------------------------------------------------

  // n jobs one after the other, each admitted, inserted and started.
  lemma {:induction false} Fill(k: Limits, n: nat) returns (steps: seq<Step>, s: State)
    requires n <= k.capacity && k.handlers >= 1
    ensures Leads(Next(k), EMPTY, steps, s) && s.count == n && Handling(s) == {}
  {
    if n == 0 {
      steps, s := [], EMPTY;
      assert Handling(s) == {};
    } else {
      steps, s := Fill(k, n - 1);
      EmptyOk(k);
      RunKeeps(k, EMPTY, steps, s);
      steps, s := StartJob(k, EMPTY, steps, s, n);
    }
  }

  // One more job, admitted, inserted and started.
  lemma StartJob(k: Limits, s0: State, before: seq<Step>, p: State, job: JobId) returns (steps: seq<Step>, s: State)
    requires Leads(Next(k), s0, before, p) && Enabled(k, p, Admit(job)) && Handling(p) == {}
    ensures Leads(Next(k), s0, steps, s)
    ensures s == State(p.next + 1, p.tasks[p.next := Task(job, Executing)], p.running[job := p.next], p.count + 1,
                       p.cancelled)
    ensures Handling(s) == {}
  {
    var p1 := Apply(k, p, Admit(job));
    var p2 := Apply(k, p1, Insert(p.next));
    s := Apply(k, p2, Start(p.next));
    steps := before + [Admit(job)] + [Insert(p.next)] + [Start(p.next)];
    Onward(k, s0, before, p, Admit(job));
    Onward(k, s0, before + [Admit(job)], p1, Insert(p.next));
    Onward(k, s0, before + [Admit(job)] + [Insert(p.next)], p2, Start(p.next));
    assert forall t | t in p.tasks :: t !in Handling(p);
  }

  // n handlers pass the check before any of them counts.
  lemma {:induction false} Crowd(k: Limits, s0: State, before: seq<Step>, p: State, n: nat)
    returns (steps: seq<Step>, s: State)
    requires Leads(Next(k), s0, before, p) && Inv(k, p) && p.count < k.capacity && n <= k.handlers && Handling(p) == {}
    ensures Leads(Next(k), s0, steps, s) && Inv(k, s) && s.count == p.count && |Handling(s)| == n
    ensures forall t | t in Handling(s) :: InStage(s, t, Admitted)
  {
    steps, s := before, p;
    if n > 0 {
      var q;
      steps, q := Crowd(k, s0, before, p, n - 1);
      Onward(k, s0, steps, q, Admit(0));
      StepKeeps(k, q, Admit(0));
      steps, s := steps + [Admit(0)], Apply(k, q, Admit(0));
      assert Handling(s) == Handling(q) + {q.next};
    }
  }

  // Then all of them go on to count.
  lemma {:induction false} Release(k: Limits, s0: State, before: seq<Step>, p: State)
    returns (steps: seq<Step>, s: State)
    requires Leads(Next(k), s0, before, p) && Inv(k, p) && forall t | t in Handling(p) :: InStage(p, t, Admitted)
    ensures Leads(Next(k), s0, steps, s) && s.count == p.count + |Handling(p)|
    decreases |Handling(p)|
  {
    steps, s := before, p;
    if Handling(p) != {} {
      var t :| t in Handling(p);
      var p1 := Apply(k, p, Insert(t));
      var p2 := Apply(k, p1, Start(t));
      StepKeeps(k, p, Insert(t));
      StepKeeps(k, p1, Start(t));
      Onward(k, s0, before, p, Insert(t));
      Onward(k, s0, before + [Insert(t)], p1, Start(t));
      assert Handling(p2) == Handling(p) - {t};
      steps, s := Release(k, s0, before + [Insert(t)] + [Start(t)], p2);
    }
  }

  // The counter does reach capacity + handlers - 1.
  lemma AdmissionBoundReached(k: Limits) returns (steps: seq<Step>, s: State)
    requires k.capacity >= 1 && k.handlers >= 1
    ensures Leads(Next(k), EMPTY, steps, s) && s.count == k.capacity + k.handlers - 1
  {
    steps, s := Fill(k, k.capacity - 1);
    EmptyOk(k);
    RunKeeps(k, EMPTY, steps, s);
    steps, s := Crowd(k, EMPTY, steps, s, k.handlers);
    steps, s := Release(k, EMPTY, steps, s);
  }

  // So that is the best bound: every run stays within n exactly from there on.
  lemma AdmissionBoundExact(k: Limits, n: int)
    requires k.capacity >= 1 && k.handlers >= 1
    ensures (forall steps, s | Leads(Next(k), EMPTY, steps, s) :: s.count <= n) <==> n >= k.capacity + k.handlers - 1
  {
    var steps, s := AdmissionBoundReached(k);
    if n >= k.capacity + k.handlers - 1 {
      forall steps, s | Leads(Next(k), EMPTY, steps, s)
        ensures s.count <= n
      {
        AdmissionBound(k, steps, s);
      }
    }
  }

  // The map --------------------------------------------------------------------------------------

  // No handler and no finishing job is between its two updates.
  predicate Quiet(s: State) {
    forall t | t in s.tasks :: !s.tasks[t].stage.Inserted? && !s.tasks[t].stage.Deleted?
  }

  // Every task that should be in the map is what its job's entry names.
  ghost predicate OwnEntries(s: State) {
    forall t | Listed(s, t) :: s.tasks[t].job in s.running && s.running[s.tasks[t].job] == t
  }

  function Entered(running: map<JobId, nat>): set<nat> {
    set job | job in running :: running[job]
  }

  lemma {:induction false} InjectiveSize(m: map<JobId, nat>)
    requires forall a, b | a in m && b in m && a != b :: m[a] != m[b]
    ensures |m| == |Entered(m)|
  {
    if m != map[] {
      var a :| a in m;
      var rest := m - {a};
      InjectiveSize(rest);
      forall t
        ensures t in Entered(m) <==> t in Entered(rest) || t == m[a]
      {
        if t in Entered(m) && t != m[a] {
          var job :| job in m && m[job] == t;
          assert job in rest;
        }
      }
      assert Entered(m) == Entered(rest) + {m[a]};
      assert m[a] !in Entered(rest);
      assert m == rest[a := m[a]];
    }
  }

  lemma EntriesDistinct(k: Limits, s: State)
    requires Inv(k, s) && Quiet(s)
    ensures |s.running| == |Entered(s.running)| && Entered(s.running) <= Counted(s)
  {
    forall a, b | a in s.running && b in s.running && a != b
      ensures s.running[a] != s.running[b]
    {
      assert EntryOk(s, a) && EntryOk(s, b);
    }
    InjectiveSize(s.running);
    forall t | t in Entered(s.running)
      ensures t in Counted(s)
    {
      var job :| job in s.running && s.running[job] == t;
      assert EntryOk(s, job);
    }
  }

  lemma OwnIffEntered(k: Limits, s: State)
    requires Inv(k, s) && Quiet(s)
    ensures OwnEntries(s) <==> Counted(s) <= Entered(s.running)
  {
    if OwnEntries(s) {
      assert forall t | t in Counted(s) :: Listed(s, t);
    }
    if Counted(s) <= Entered(s.running) {
      forall t | Listed(s, t)
        ensures s.tasks[t].job in s.running && s.running[s.tasks[t].job] == t
      {
        assert t in Counted(s);
        var job :| job in s.running && s.running[job] == t;
        assert EntryOk(s, job);
      }
    }
  }

  // At a quiet moment the map has at most as many entries as the counter says, and exactly as
  // many when every executing job has its own entry.
  lemma QuietSizes(k: Limits, s: State)
    requires Inv(k, s) && Quiet(s)
    ensures |s.running| <= s.count
    ensures |s.running| == s.count <==> OwnEntries(s)
  {
    EntriesDistinct(k, s);
    OwnIffEntered(k, s);
    var entered, counted := Entered(s.running), Counted(s);
    assert counted == entered + (counted - entered);
  }

  // When the map and the counter agree ----------------------------------------------------------

  // running[job] = cancel replaces an entry that is still there.
  predicate Overwrites(s: State, step: Step) {
    step.Insert? && step.t in s.tasks && s.tasks[step.t].job in s.running
  }

  // Only such a write, and no other step, makes a task lose its entry.
  lemma StepOwn(k: Limits, s: State, step: Step)
    requires Inv(k, s) && Enabled(k, s, step) && OwnEntries(s)
    ensures OwnEntries(Apply(k, s, step)) <==> !Overwrites(s, step)
  {
    var u := Apply(k, s, step);
    if Overwrites(s, step) {
      var job := s.tasks[step.t].job;
      assert EntryOk(s, job);
      assert Listed(u, s.running[job]) && u.running[job] == step.t;
    } else {
      forall t | Listed(u, t)
        ensures u.tasks[t].job in u.running && u.running[u.tasks[t].job] == t
      {
        assert step != Insert(t) ==> Listed(s, t);
        assert step.Delete? ==> Listed(s, step.t);
      }
    }
  }

  // Some insert of the run overwrote an entry.
  ghost predicate Overwriting(k: Limits, s: State, steps: seq<Step>)
    decreases |steps|
  {
    steps != []
    && var n := |steps| - 1;
       Overwriting(k, s, steps[..n])
       || (After(Next(k), s, steps[..n]).Some? && Overwrites(After(Next(k), s, steps[..n]).value, steps[n]))
  }

  // At every moment of the run, every task that should be in the map is.
  ghost predicate AlwaysOwn(k: Limits, s: State, steps: seq<Step>)
    decreases |steps|
  {
    && (After(Next(k), s, steps).Some? ==> OwnEntries(After(Next(k), s, steps).value))
    && (steps != [] ==> AlwaysOwn(k, s, steps[..|steps| - 1]))
  }

  lemma {:induction false} OwnExactly(k: Limits, s: State, steps: seq<Step>, t: State)
    requires Inv(k, s) && OwnEntries(s) && Leads(Next(k), s, steps, t)
    ensures AlwaysOwn(k, s, steps) <==> !Overwriting(k, s, steps)
    ensures AlwaysOwn(k, s, steps) ==> OwnEntries(t)
    decreases |steps|
  {
    if steps != [] {
      var n := |steps| - 1;
      var u := After(Next(k), s, steps[..n]).value;
      RunKeeps(k, s, steps[..n], u);
      OwnExactly(k, s, steps[..n], u);
      if OwnEntries(u) {
        StepOwn(k, u, steps[n]);
      }
    }
  }

  // Letting handlers and finishing jobs make their second update, and nothing else.
  predicate Settling(steps: seq<Step>) {
    forall i | 0 <= i < |steps| :: steps[i].Start? || steps[i].Finish?
  }

  lemma {:induction false} SettlingKeeps(k: Limits, s: State, steps: seq<Step>, t: State)
    requires Inv(k, s) && Leads(Next(k), s, steps, t) && Settling(steps)
    ensures Inv(k, t) && (OwnEntries(t) <==> OwnEntries(s))
    decreases |steps|
  {
    if steps != [] {
      var n := |steps| - 1;
      var u := After(Next(k), s, steps[..n]).value;
      SettlingKeeps(k, s, steps[..n], u);
      StepKeeps(k, u, steps[n]);
      SecondUpdate(k, u, steps[n]);
    }
  }

  lemma SecondUpdate(k: Limits, s: State, step: Step)
    requires Enabled(k, s, step) && (step.Start? || step.Finish?)
    ensures OwnEntries(Apply(k, s, step)) <==> OwnEntries(s)
  {
    var u := Apply(k, s, step);
    assert forall t :: Listed(u, t) <==> Listed(s, t);
    assert forall t | Listed(s, t) :: u.tasks[t].job == s.tasks[t].job;
  }

  // Tasks between their two updates.
  function Unsettled(s: State): set<nat> {
    set t | t in s.tasks && (s.tasks[t].stage.Inserted? || s.tasks[t].stage.Deleted?)
  }

  lemma {:induction false} Settle(k: Limits, s0: State, before: seq<Step>, s: State)
    returns (steps: seq<Step>, t: State)
    requires Leads(Next(k), s0, before, s) && Settling(before)
    ensures Leads(Next(k), s0, steps, t) && Settling(steps) && Quiet(t)
    decreases |Unsettled(s)|
  {
    steps, t := before, s;
    if Unsettled(s) != {} {
      var u :| u in Unsettled(s);
      var step := if s.tasks[u].stage.Inserted? then Start(u) else Finish(u);
      Onward(k, s0, before, s, step);
      assert Unsettled(Apply(k, s, step)) == Unsettled(s) - {u};
      steps, t := Settle(k, s0, before + [step], Apply(k, s, step));
    } else {
      assert forall u | u in s.tasks :: u !in Unsettled(s);
    }
  }

  // Whenever everyone who is between two updates has made the second, the sizes agree.
  ghost predicate SettledAgrees(k: Limits, s: State) {
    forall steps, t | Leads(Next(k), s, steps, t) && Settling(steps) && Quiet(t) :: |t.running| == t.count
  }

  lemma SettledIffOwn(k: Limits, s: State)
    requires Inv(k, s)
    ensures SettledAgrees(k, s) <==> OwnEntries(s)
  {
    forall steps, t | Leads(Next(k), s, steps, t) && Settling(steps) && Quiet(t)
      ensures |t.running| == t.count <==> OwnEntries(s)
    {
      SettlingKeeps(k, s, steps, t);
      QuietSizes(k, t);
    }
    LeadsNone(k, s);
    var steps, t := Settle(k, s, [], s);
  }

  lemma LeadsNone(k: Limits, s: State)
    ensures Leads(Next(k), s, [], s)
  {
  }

  ghost predicate AlwaysAgrees(k: Limits, s: State, steps: seq<Step>)
    decreases |steps|
  {
    && (After(Next(k), s, steps).Some? ==> SettledAgrees(k, After(Next(k), s, steps).value))
    && (steps != [] ==> AlwaysAgrees(k, s, steps[..|steps| - 1]))
  }

  lemma {:induction false} AgreesIffOwn(k: Limits, s: State, steps: seq<Step>, t: State)
    requires Inv(k, s) && Leads(Next(k), s, steps, t)
    ensures AlwaysAgrees(k, s, steps) <==> AlwaysOwn(k, s, steps)
    decreases |steps|
  {
    RunKeeps(k, s, steps, t);
    SettledIffOwn(k, t);
    if steps != [] {
      var n := |steps| - 1;
      AgreesIffOwn(k, s, steps[..n], After(Next(k), s, steps[..n]).value);
    }
  }

  // The map and the counter agree all through a run, at every moment once those between two
  // updates have made the second, exactly when no insert of the run finds its job in the map.
  // Then a cancel reaches every task that is in the map, and a cancel of a job that has none is
  // refused.
  lemma AgreeExactly(k: Limits, steps: seq<Step>, s: State)
    requires Leads(Next(k), EMPTY, steps, s)
    ensures AlwaysAgrees(k, EMPTY, steps) <==> !Overwriting(k, EMPTY, steps)
    ensures !Overwriting(k, EMPTY, steps) ==>
              && (Quiet(s) ==> |s.running| == s.count)
              && (forall t | Listed(s, t) :: t in Apply(k, s, Cancel(s.tasks[t].job)).cancelled)
    ensures forall job | (forall t | Listed(s, t) :: s.tasks[t].job != job) :: Apply(k, s, Cancel(job)) == s
  {
    EmptyOk(k);
    RunKeeps(k, EMPTY, steps, s);
    OwnExactly(k, EMPTY, steps, s);
    AgreesIffOwn(k, EMPTY, steps, s);
    if !Overwriting(k, EMPTY, steps) && Quiet(s) {
      QuietSizes(k, s);
    }
    forall job | (forall t | Listed(s, t) :: s.tasks[t].job != job)
      ensures job !in s.running
    {
      assert EntryOk(s, job);
    }
  }

  // Jobs that come once ---------------------------------------------------------------------------

  // The job of an admission is not that of any task still around.
  predicate NewJob(s: State, step: Step) {
    step.Admit? ==> forall t | t in s.tasks :: s.tasks[t].job != step.job
  }

  ghost predicate DistinctRun(k: Limits, s: State, steps: seq<Step>)
    decreases |steps|
  {
    steps != [] ==>
      var n := |steps| - 1;
      && DistinctRun(k, s, steps[..n])
      && (After(Next(k), s, steps[..n]).Some? ==> NewJob(After(Next(k), s, steps[..n]).value, steps[n]))
  }

  predicate DistinctJobs(s: State) {
    forall t, u | t in s.tasks && u in s.tasks && t != u :: s.tasks[t].job != s.tasks[u].job
  }

  lemma DistinctStep(k: Limits, s: State, step: Step)
    requires Inv(k, s) && Enabled(k, s, step) && NewJob(s, step) && DistinctJobs(s)
    ensures DistinctJobs(Apply(k, s, step)) && !Overwrites(s, step)
  {
    assert step.Insert? ==> EntryOk(s, s.tasks[step.t].job);
  }

  lemma {:induction false} DistinctRunKeeps(k: Limits, s: State, steps: seq<Step>, t: State)
    requires Inv(k, s) && Leads(Next(k), s, steps, t) && DistinctRun(k, s, steps) && DistinctJobs(s)
    ensures DistinctJobs(t) && !Overwriting(k, s, steps)
    decreases |steps|
  {
    if steps != [] {
      var n := |steps| - 1;
      var u := After(Next(k), s, steps[..n]).value;
      DistinctRunKeeps(k, s, steps[..n], u);
      RunKeeps(k, s, steps[..n], u);
      DistinctStep(k, u, steps[n]);
    }
  }

  // When no job is dispatched again while it is still around, no entry is ever overwritten: the
  // map's size is the counter at every quiet moment, and a cancel reaches the job's own task
  // exactly while it is in the map.
  lemma DistinctAgree(k: Limits, steps: seq<Step>, s: State)
    requires Leads(Next(k), EMPTY, steps, s) && DistinctRun(k, EMPTY, steps)
    ensures AlwaysAgrees(k, EMPTY, steps)
    ensures Quiet(s) ==> |s.running| == s.count
    ensures forall t | Listed(s, t) :: t in Apply(k, s, Cancel(s.tasks[t].job)).cancelled
    ensures forall t | t in s.tasks && !Listed(s, t) :: Apply(k, s, Cancel(s.tasks[t].job)) == s
  {
    EmptyOk(k);
    DistinctRunKeeps(k, EMPTY, steps, s);
    AgreeExactly(k, steps, s);
  }

  // A job dispatched twice leaves the two apart: one entry, two counted, and the first cannot be
  // cancelled any more. When the first ends it takes the entry of the second with it, which then
  // cannot be cancelled either. It takes another caller of the listener than a controller.
  lemma TwiceDisagrees(k: Limits) returns (steps: seq<Step>, s: State, u: State)
    requires k.capacity >= 2 && k.handlers >= 1
    ensures Leads(Next(k), EMPTY, steps, s) && Quiet(s) && |s.running| == 1 && s.count == 2
    ensures Listed(s, 0) && 0 !in Apply(k, s, Cancel(7)).cancelled
    ensures Leads(Next(k), EMPTY, steps + [Delete(0)], u) && u.running == map[]
    ensures Listed(u, 1) && u.tasks[1].job == 7 && Apply(k, u, Cancel(7)) == u
  {
    assert Handling(EMPTY) == {};
    steps, s := StartJob(k, EMPTY, [], EMPTY, 7);
    steps, s := StartJob(k, EMPTY, steps, s, 7);
    assert s.running == map[7 := 1];
    u := Apply(k, s, Delete(0));
    Onward(k, EMPTY, steps, s, Delete(0));
  }
}
