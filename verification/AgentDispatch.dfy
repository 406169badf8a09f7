/**
 The controllers' Dispatch calls as the agent's admissions: what ProtocolTheorems shows of the
 calls is what AgentServer needs of the jobs.
 */
module AgentDispatch {
  import opened Runs
  import opened Jobs
  import P = Protocol
  import PI = ProtocolInvariant
  import A = AgentServer

  // The jobs that the agent has admitted.
  function Admitted(steps: seq<A.Step>): multiset<JobId> {
    if steps == [] then multiset{}
    else
      var n := |steps| - 1;
      Admitted(steps[..n]) + if steps[n].Admit? then multiset{steps[n].job} else multiset{}
  }

  // Every admission answers a Dispatch call of the protocol run, and no call is answered twice.
  ghost predicate Answers(steps: seq<A.Step>, s: P.State, agent: AgentId) {
    forall job :: Admitted(steps)[job] <= s.hist.sent[(job, agent)]
  }

  lemma {:induction false} TasksAdmitted(k: A.Limits, steps: seq<A.Step>, s: A.State)
    requires Leads(A.Next(k), A.EMPTY, steps, s)
    ensures forall t | t in s.tasks :: Admitted(steps)[s.tasks[t].job] > 0
    decreases |steps|
  {
    if steps != [] {
      var n := |steps| - 1;
      TasksAdmitted(k, steps[..n], After(A.Next(k), A.EMPTY, steps[..n]).value);
    }
  }

  lemma {:induction false} OnceDistinct(k: A.Limits, steps: seq<A.Step>, s: A.State)
    requires Leads(A.Next(k), A.EMPTY, steps, s) && forall job :: Admitted(steps)[job] <= 1
    ensures A.DistinctRun(k, A.EMPTY, steps)
    decreases |steps|
  {
    if steps != [] {
      var n := |steps| - 1;
      var u := After(A.Next(k), A.EMPTY, steps[..n]).value;
      assert forall job :: Admitted(steps[..n])[job] <= Admitted(steps)[job];
      OnceDistinct(k, steps[..n], u);
      TasksAdmitted(k, steps[..n], u);
      assert steps[n].Admit? ==> Admitted(steps[..n])[steps[n].job] == 0;
    }
  }

  // In any run of the controllers, no job is sent to an agent twice. So whatever the agent admits
  // of what they send it, its map and its counter agree and every cancel finds the job's own task.
  lemma ControllersAgree(k: P.Config, s0: P.State, run: seq<P.Step>, s: P.State, agent: AgentId,
                         limits: A.Limits, steps: seq<A.Step>, t: A.State)
    requires P.Init(s0) && Leads(P.Next(k), s0, run, s)
    requires Leads(A.Next(limits), A.EMPTY, steps, t) && Answers(steps, s, agent)
    ensures A.DistinctRun(limits, A.EMPTY, steps) && A.AlwaysAgrees(limits, A.EMPTY, steps)
    ensures A.Quiet(t) ==> |t.running| == t.count
    ensures forall u | A.Listed(t, u) :: u in A.Apply(limits, t, A.Cancel(t.tasks[u].job)).cancelled
  {
    PI.InitOk(k, s0);
    PI.RunKeeps(k, s0, run, s);
    forall job
      ensures Admitted(steps)[job] <= 1
    {
      assert PI.PairOk(s, job, agent);
    }
    OnceDistinct(limits, steps, t);
    A.DistinctAgree(limits, steps, t);
  }
}
