/** From a submission to its run: what createWorkFlow accepts, followed through every interleaving of steps. */
module Submissions {
  import opened Common
  import opened Graphs
  import opened Workflows
  import opened SchedulerMachine
  import opened WorkflowRuns
  import opened Forests
  import opened RunOrder
  import opened Chain

  lemma {:induction false} AcceptedIsInstance(jobs: seq<JobDto>, fails: seq<nat>)
    requires Rejection(jobs).None? && FirstIncomplete(jobs, 0) == FirstOrphan(jobs, 0) == |jobs|
    requires forall j :: 0 <= j < |jobs| ==> jobs[j].dependsOn.One? || |jobs[j].dependsOn.keys| <= 1
    requires |fails| == |jobs|
    ensures AllStorable(jobs) && |Stored(jobs, |jobs|).jobs| == |jobs| && Instance(Stored(jobs, |jobs|), fails)
  {
    hide KeyGraph, HasCycle, AllStorable, Rejection, WellFormed, FirstIncomplete, FirstOrphan;
    StorableIff(jobs);
    forall j | 0 <= j < |jobs| ensures |Dependencies(jobs[j])| <= 1 {
    }
    AcceptedIsForest(jobs);
  }

  /**
   * End to end: whatever attempts fail and however steps interleave, an accepted submission whose run has come to
   * rest has queued its jobs exactly in the reference order, a job being queued if and only if it is eligible.
   */
  lemma {:induction false} AcceptedRunsAsPlanned(jobs: seq<JobDto>, fails: seq<nat>, run: seq<State>, n: nat)
    requires Rejection(jobs).None? && FirstIncomplete(jobs, 0) == FirstOrphan(jobs, 0) == |jobs|
    requires forall j :: 0 <= j < |jobs| ==> jobs[j].dependsOn.One? || |jobs[j].dependsOn.keys| <= 1
    requires |fails| == |jobs|
    requires WellFormed(Stored(jobs, |jobs|)) && Outcomes(Stored(jobs, |jobs|), fails)
    requires Run(Stored(jobs, |jobs|), fails, run) && n < |run| && run[n].threads == []
    ensures var w := Stored(jobs, |jobs|);
      && run[n].queued == Plan(w, fails, None, 0)
      && (forall j: nat :: j < |jobs| ==> (j in run[n].queued <==> Eligible(w, fails, j)))
  {
    hide KeyGraph, HasCycle, AllStorable, Rejection, FirstIncomplete, FirstOrphan, Stored, Run, Eligible, Plan, Instance;
    AcceptedIsInstance(jobs, fails);
    var w := Stored(jobs, |jobs|);
    FinishedRunIsPlan(w, fails, run, n);
    forall j: nat | j < |jobs| ensures j in run[n].queued <==> Eligible(w, fails, j) {
      PlanIsEligible(w, fails, j);
    }
  }

  /** When a job is queued, the job it names as its parent has been queued and has completed. */
  lemma {:induction false} NamedParentFirst(jobs: seq<JobDto>, fails: seq<nat>, run: seq<State>, n: nat, j: nat, i: nat)
    requires Rejection(jobs).None? && FirstIncomplete(jobs, 0) == FirstOrphan(jobs, 0) == |jobs|
    requires forall j :: 0 <= j < |jobs| ==> jobs[j].dependsOn.One? || |jobs[j].dependsOn.keys| <= 1
    requires |fails| == |jobs| && j < |jobs| && i < |Dependencies(jobs[j])|
    requires WellFormed(Stored(jobs, |jobs|)) && Outcomes(Stored(jobs, |jobs|), fails)
    requires Run(Stored(jobs, |jobs|), fails, run) && n < |run| && j in run[n].queued
    ensures var p := IndexOf(jobs, Dependencies(jobs[j])[i]);
      p < |jobs| && jobs[p].key == Dependencies(jobs[j])[i] && p in run[n].queued && |run[n].st| == |jobs| && run[n].st[p] == COMPLETED
  {
    hide KeyGraph, HasCycle, Rejection, FirstIncomplete, FirstOrphan, Run, Instance, WellFormed;
    AcceptedIsInstance(jobs, fails);
    var w := Stored(jobs, |jobs|);
    StoredParents(jobs, j);
    var p := IndexOf(jobs, Dependencies(jobs[j])[i]);
    assert ParentsKnown(jobs, jobs[j]);
    assert Parents(jobs, jobs[j])[i] == p;
    QueuedIsStarted(w, fails, run, n, j);
    DependenciesRespected(w, fails, run, n, j, p);
    StartedIsQueued(w, fails, run, n, p);
  }

  lemma {:induction false} QueuedIsStarted(w: Workflow, fails: seq<nat>, run: seq<State>, n: nat, j: nat)
    requires WellFormed(w) && Outcomes(w, fails) && Run(w, fails, run) && n < |run| && j in run[n].queued
    ensures w.IsJob(j) && |run[n].st| == |w.jobs| && run[n].st[j] in {QUEUED, PROCESSING, COMPLETED, FAILED}
  {
    RunKeepsInv(w, fails, run, n);
  }

  lemma {:induction false} StartedIsQueued(w: Workflow, fails: seq<nat>, run: seq<State>, n: nat, j: nat)
    requires WellFormed(w) && Outcomes(w, fails) && Run(w, fails, run) && n < |run| && w.IsJob(j)
    ensures |run[n].st| == |w.jobs| && (run[n].st[j] == COMPLETED ==> j in run[n].queued)
  {
    RunKeepsInv(w, fails, run, n);
  }
}
