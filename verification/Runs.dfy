/**
 Runs of a step system. A system is given by its step function, which is None where a step is
 not enabled.
 */
module Runs {
  import opened Wrappers

  // The state after the steps, each enabled in turn.
  ghost function After<S, T>(next: (S, T) -> Option<S>, s: S, steps: seq<T>): Option<S>
    decreases |steps|
  {
    if steps == [] then Some(s)
    else
      var before := After(next, s, steps[..|steps| - 1]);
      if before.None? then None else next(before.value, steps[|steps| - 1])
  }

  // From s, these steps lead to t.
  ghost predicate Leads<S, T>(next: (S, T) -> Option<S>, s: S, steps: seq<T>, t: S) {
    After(next, s, steps) == Some(t)
  }

  // One more step at the end.
  lemma LeadsOn<S, T>(next: (S, T) -> Option<S>, s: S, steps: seq<T>, t: S, step: T, u: S)
    requires Leads(next, s, steps, t) && next(t, step) == Some(u)
    ensures Leads(next, s, steps + [step], u)
  {
    assert (steps + [step])[..|steps|] == steps;
  }

  lemma {:induction false} LeadsConcat<S, T>(next: (S, T) -> Option<S>, s: S, a: seq<T>, t: S, b: seq<T>)
    requires Leads(next, s, a, t)
    ensures After(next, s, a + b) == After(next, t, b)
    decreases |b|
  {
    if b == [] {
      assert a + b == a;
    } else {
      assert (a + b)[..|a + b| - 1] == a + b[..|b| - 1];
      LeadsConcat(next, s, a, t, b[..|b| - 1]);
    }
  }

  // Every prefix of a run is one.
  lemma {:induction false} PrefixLeads<S, T>(next: (S, T) -> Option<S>, s: S, steps: seq<T>, i: nat)
    requires After(next, s, steps).Some? && i <= |steps|
    ensures After(next, s, steps[..i]).Some?
    decreases |steps|
  {
    if i < |steps| {
      var front := steps[..|steps| - 1];
      PrefixLeads(next, s, front, i);
      assert front[..i] == steps[..i];
    } else {
      assert steps[..i] == steps;
    }
  }

  // The same as Leads, put in such a way that the verifier looks into it only on request.
  ghost predicate Led<S, T>(next: (S, T) -> Option<S>, s: S, steps: seq<T>, t: S) {
    forall i | i == |steps| :: Leads(next, s, steps[..i], t)
  }

  lemma LedLeads<S, T>(next: (S, T) -> Option<S>, s: S, steps: seq<T>, t: S)
    ensures Led(next, s, steps, t) <==> Leads(next, s, steps, t)
  {
    assert steps[..|steps|] == steps;
  }

  // A run that was `before` and is now `run` has been in state `at` in between.
  ghost predicate Passed<S, T>(next: (S, T) -> Option<S>, s: S, before: seq<T>, run: seq<T>, at: S) {
    before <= run && exists i :: |before| <= i <= |run| && Led(next, s, run[..i], at)
  }

  lemma PassedLater<S, T>(next: (S, T) -> Option<S>, s: S, before: seq<T>, run: seq<T>, longer: seq<T>, at: S)
    requires Passed(next, s, before, run, at) && run <= longer
    ensures Passed(next, s, before, longer, at)
  {
    var i :| |before| <= i <= |run| && Led(next, s, run[..i], at);
    assert longer[..i] == run[..i];
  }

  lemma PassedBefore<S, T>(next: (S, T) -> Option<S>, s: S, earlier: seq<T>, before: seq<T>, run: seq<T>, at: S)
    requires Passed(next, s, before, run, at) && earlier <= before
    ensures Passed(next, s, earlier, run, at)
  {
  }

  lemma PassedNow<S, T>(next: (S, T) -> Option<S>, s: S, before: seq<T>, run: seq<T>, at: S)
    requires before <= run && Led(next, s, run, at)
    ensures Passed(next, s, before, run, at)
  {
    assert run[..|run|] == run;
  }
}
