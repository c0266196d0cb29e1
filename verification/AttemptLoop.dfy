/** BaseProcessor: one delivery of a queued job, and what a job's deliveries add up to. */
module AttemptLoop {
  import opened Common
  import opened Graphs
  import opened Workflows
  import opened SchedulerMachine
  import opened Queues
  import opened TenantCap
  import opened Chain

  /** A delivery: the payload, failed attempts so far, and the attempts option it was enqueued with. */
  datatype BullJob = BullJob(payload: Payload, attemptsMade: nat, attempts: Option<nat>)

  datatype AttemptRow = AttemptRow(job: JobRef, number: nat, status: Status)

  function MaxAttempts(job: BullJob): nat {
    if job.attempts.Some? then job.attempts.value else 5
  }

  // execute's test, before the failure is counted.
  predicate IsFinalFailure(job: BullJob, succeeded: bool) {
    !succeeded && job.attemptsMade + 1 >= MaxAttempts(job)
  }

  // The workers' test in their failed handler, after the queue has counted it.
  predicate GoesToDlq(job: BullJob) {
    job.attemptsMade >= MaxAttempts(job)
  }

  // ---------- all deliveries of one job ----------

  /** What one delivery leaves behind. */
  datatype Trace = Trace(number: nat, failed: bool, released: bool, markedFailed: bool, dead: bool)

  function Deliver(job: BullJob, succeeded: bool): Trace {
    Trace(job.attemptsMade + 1, !succeeded, succeeded || IsFinalFailure(job, succeeded), IsFinalFailure(job, succeeded),
          !succeeded && GoesToDlq(job.(attemptsMade := job.attemptsMade + 1)))
  }

  /** The queue redelivers a failed job while attempts are left; its first `fails` attempts throw. */
  function Deliveries(job: BullJob, fails: nat): seq<Trace>
    decreases fails - job.attemptsMade
  {
    var succeeded := job.attemptsMade >= fails;
    var again := job.(attemptsMade := job.attemptsMade + 1);
    [Deliver(job, succeeded)] +
    if !succeeded && again.attemptsMade < MaxAttempts(job) then Deliveries(again, fails) else []
  }

  function Least(a: nat, b: nat): nat { if a <= b then a else b }

  function AtLeastOne(n: nat): nat { if n == 0 then 1 else n }

  /**
   * One release per job: whatever the failures, attempts are numbered in order, all but the last failed,
   * and the slot is given back exactly once, at the last. The job is marked FAILED there exactly when it
   * goes to the dead-letter queue, exactly when every permitted attempt threw.
   */
  lemma {:induction false} OneReleasePerJob(job: BullJob, fails: nat)
    requires job.attemptsMade <= fails && job.attemptsMade < AtLeastOne(MaxAttempts(job))
    ensures var d, cap := Deliveries(job, fails), AtLeastOne(MaxAttempts(job));
      && |d| == Least(fails + 1, cap) - job.attemptsMade
      && forall i :: 0 <= i < |d| ==>
           && d[i].number == job.attemptsMade + i + 1
           && (d[i].released <==> i == |d| - 1)
           && (d[i].failed <==> i < |d| - 1 || fails >= cap)
           && (d[i].markedFailed <==> d[i].dead)
           && (d[i].dead <==> i == |d| - 1 && fails >= cap)
    ensures job.attempts == None ==> |Deliveries(job, fails)| == (if fails < 5 then fails + 1 else 5) - job.attemptsMade
    ensures forall n :: job.attempts == Some(n) && n > 0 ==>
      |Deliveries(job, fails)| == (if fails < n then fails + 1 else n) - job.attemptsMade
    decreases fails - job.attemptsMade
  {
    var again := job.(attemptsMade := job.attemptsMade + 1);
    if job.attemptsMade < fails && again.attemptsMade < MaxAttempts(job) {
      OneReleasePerJob(again, fails);
    }
  }

  // ---------- what one delivery does to the stored state ----------

  /** Job rows of a workflow and the cap, once the attempt has been recorded and the slot handled. */
  function ExecuteFlow(w: Workflow, st: seq<Status>, cap: Cap, job: BullJob, flow: nat, j: nat, tenant: nat,
                       succeeded: bool, upNext: bool, upDrain: bool): (r: (seq<Status>, Cap))
    requires WellFormed(w) && |st| == |w.jobs| && w.IsJob(j)
    requires HasTenant(cap, tenant) && HasTenant(cap, job.payload.tenant)
    ensures |r.0| == |st|
  {
    var t, q := job.payload.tenant, job.payload.queueName;
    var begun := if job.attemptsMade == 0 then st[j := PROCESSING] else st;
    if succeeded then
      var (st', cap', _) := Schedule(w, UnlockAll(w, begun[j := COMPLETED], j), cap, flow, tenant, upNext);
      ScheduleKeepsTenants(w, UnlockAll(w, begun[j := COMPLETED], j), cap, flow, tenant, upNext);
      (st', Release(cap'.(totals := AddCompleted(cap'.totals, q)), t, upDrain))
    else if IsFinalFailure(job, false) then
      var counted := cap.(totals := AddFailed(cap.totals, q));
      var (st', cap', _) := Schedule(w, SkipAll(w, begun[j := FAILED], j), counted, flow, tenant, upNext);
      ScheduleKeepsTenants(w, SkipAll(w, begun[j := FAILED], j), counted, flow, tenant, upNext);
      (st', Release(cap', t, upDrain))
    else
      var (st', cap', _) := Schedule(w, SkipAll(w, begun, j), cap, flow, tenant, upNext);
      (st', cap')
  }

  lemma ScheduleKeepsTenants(w: Workflow, st: seq<Status>, cap: Cap, flow: nat, tenant: nat, up: bool)
    requires WellFormed(w) && |st| == |w.jobs| && HasTenant(cap, tenant)
    ensures var cap' := Schedule(w, st, cap, flow, tenant, up).1;
      |cap'.inflight| == |cap.inflight| && |cap'.staging| == |cap.staging|
  {
  }

  function ExecuteSingle(cap: Cap, job: BullJob, succeeded: bool, upDrain: bool): Cap
    requires HasTenant(cap, job.payload.tenant)
  {
    var t, q := job.payload.tenant, job.payload.queueName;
    if succeeded then Release(cap.(totals := AddCompleted(cap.totals, q)), t, upDrain)
    else if IsFinalFailure(job, false) then Release(cap.(totals := AddFailed(cap.totals, q)), t, upDrain)
    else cap
  }

  function EndStatus(job: BullJob, before: Status, succeeded: bool): Status {
    if succeeded then COMPLETED
    else if IsFinalFailure(job, false) then FAILED
    else if job.attemptsMade == 0 then PROCESSING else before
  }

  // ---------- the processor ----------

  class BaseProcessor {
    const chain: ChainService
    var singles: map<nat, Status>         // rows of jobs outside workflows
    var attempts: seq<AttemptRow>
    var sequences: map<QueueName, nat>    // last sequence number per queue

    constructor (chain: ChainService)
      ensures this.chain == chain && singles == map[] && attempts == [] && sequences == map[]
      ensures forall id :: Known(SingleJob(id))
      ensures forall f: nat, i: nat :: chain.Live(f) && chain.flows[f].IsJob(i) ==> Known(FlowJob(f, i))
    {
      this.chain := chain;
      singles, attempts, sequences := map[], [], map[];
    }

    ghost predicate Known(job: JobRef)
      reads this, chain, chain.cap
    {
      job.FlowJob? ==> chain.Live(job.flow) && chain.flows[job.flow].IsJob(job.index)
    }

    function StatusOf(job: JobRef): Option<Status>
      requires Known(job)
      reads this, chain, chain.cap
    {
      match job
      case FlowJob(f, i) => Some(chain.statuses[f][i])
      case SingleJob(id) => if id in singles then Some(singles[id]) else None
    }

    // An update by id; a missing row is left missing.
    method UpdateStatus(job: JobRef, s: Status)
      requires Known(job)
      modifies this`singles, chain`statuses
      ensures Known(job)
      ensures job.FlowJob? ==>
        && singles == old(singles)
        && chain.statuses == old(chain.statuses)[job.flow := old(chain.statuses)[job.flow][job.index := s]]
      ensures job.SingleJob? ==>
        && chain.statuses == old(chain.statuses)
        && singles == if job.id in old(singles) then old(singles)[job.id := s] else old(singles)
    {
      match job
      case FlowJob(f, i) => chain.statuses := chain.statuses[f := chain.statuses[f][i := s]];
      case SingleJob(id) =>
        if id in singles {
          singles := singles[id := s];
        }
    }

    /** The attempt's row and the queue's sequence number; the first attempt moves the job to PROCESSING. */
    method Begin(job: BullJob)
      requires Known(job.payload.job)
      modifies this, chain`statuses
      ensures Known(job.payload.job)
      ensures attempts == old(attempts) + [AttemptRow(job.payload.job, job.attemptsMade + 1, PROCESSING)]
      ensures var q := job.payload.queueName;
        sequences == old(sequences)[q := (if q in old(sequences) then old(sequences)[q] else 0) + 1]
      ensures job.attemptsMade > 0 ==> chain.statuses == old(chain.statuses) && singles == old(singles)
      ensures job.attemptsMade == 0 && job.payload.job.FlowJob? ==>
        var f, i := job.payload.job.flow, job.payload.job.index;
        singles == old(singles) && chain.statuses == old(chain.statuses)[f := old(chain.statuses)[f][i := PROCESSING]]
      ensures job.attemptsMade == 0 && job.payload.job.SingleJob? ==>
        var id := job.payload.job.id;
        && chain.statuses == old(chain.statuses)
        && singles == if id in old(singles) then old(singles)[id := PROCESSING] else old(singles)
    {
      var q := job.payload.queueName;
      var last := if q in sequences then sequences[q] else 0;
      sequences := sequences[q := last + 1];
      attempts := attempts + [AttemptRow(job.payload.job, job.attemptsMade + 1, PROCESSING)];
      if job.attemptsMade == 0 {
        UpdateStatus(job.payload.job, PROCESSING);
      }
    }

    method FinishAttempt(s: Status)
      requires attempts != []
      modifies this`attempts
      ensures attempts == old(attempts)[|old(attempts)| - 1 := old(attempts)[|old(attempts)| - 1].(status := s)]
    {
      var last := |attempts| - 1;
      attempts := attempts[last := attempts[last].(status := s)];
    }

    /**
     * One delivery. `succeeded` is the outcome of process(job); upNext and upDrain say whether the queue
     * can be reached when the next workflow job is submitted and when a staged payload is drained.
     */
    method Execute(job: BullJob, succeeded: bool, upNext: bool, upDrain: bool) returns (threw: bool)
      requires Known(job.payload.job) && HasTenant(chain.cap.State(), job.payload.tenant)
      modifies this, chain`statuses, chain.cap, chain.cap.collector, chain.cap.queue
      ensures var skipped := match job.payload.job
          case FlowJob(f, i) => old(chain.statuses)[f][i] == COMPLETED
          case SingleJob(id) => id in old(singles) && old(singles)[id] == COMPLETED;
        && (skipped ==>
              && !threw && attempts == old(attempts) && sequences == old(sequences)
              && singles == old(singles) && chain.statuses == old(chain.statuses)
              && chain.cap.State() == Release(old(chain.cap.State()), job.payload.tenant, upDrain))
        && (!skipped ==>
              && threw == !succeeded
              && attempts == old(attempts) + [AttemptRow(job.payload.job, job.attemptsMade + 1,
                                                          if succeeded then COMPLETED else FAILED)]
              && var q := job.payload.queueName;
                 sequences == old(sequences)[q := (if q in old(sequences) then old(sequences)[q] else 0) + 1])
        && (!skipped && job.payload.job.FlowJob? ==>
              var f, j := job.payload.job.flow, job.payload.job.index;
              && singles == old(singles) && chain.Live(f)
              && chain.statuses == old(chain.statuses)[f := chain.statuses[f]]
              && (chain.statuses[f], chain.cap.State()) ==
                 ExecuteFlow(chain.flows[f], old(chain.statuses[f]), old(chain.cap.State()), job, f, j,
                             chain.tenants[f], succeeded, upNext, upDrain))
        && (!skipped && job.payload.job.SingleJob? ==>
              var id := job.payload.job.id;
              && chain.statuses == old(chain.statuses)
              && singles == (if id in old(singles)
                             then old(singles)[id := EndStatus(job, old(singles)[id], succeeded)] else old(singles))
              && chain.cap.State() == ExecuteSingle(old(chain.cap.State()), job, succeeded, upDrain))
    {
      hide Schedule, UnlockAll, SkipAll, Release, AddCompleted, AddFailed;
      if StatusOf(job.payload.job) == Some(COMPLETED) {
        chain.cap.ReleaseSlot(job.payload.tenant, upDrain);
        return false;
      }
      Begin(job);
      if succeeded {
        Succeed(job, upNext);
      } else {
        Fail(job, upNext);
      }
      // finally: success and final failure give the slot back, a retry keeps it
      if succeeded || IsFinalFailure(job, succeeded) {
        chain.cap.ReleaseSlot(job.payload.tenant, upDrain);
      }
      return !succeeded;
    }

    method Succeed(job: BullJob, upNext: bool)
      requires Known(job.payload.job) && attempts != [] && HasTenant(chain.cap.State(), job.payload.tenant)
      modifies this`singles, this`attempts, chain`statuses, chain.cap, chain.cap.collector, chain.cap.queue
      ensures Known(job.payload.job) && HasTenant(chain.cap.State(), job.payload.tenant)
      ensures attempts == old(attempts)[|old(attempts)| - 1 := old(attempts)[|old(attempts)| - 1].(status := COMPLETED)]
      ensures job.payload.job.FlowJob? ==>
        var f, j := job.payload.job.flow, job.payload.job.index;
        && singles == old(singles) && chain.statuses == old(chain.statuses)[f := chain.statuses[f]]
        && var (st', cap', _) := Schedule(chain.flows[f], UnlockAll(chain.flows[f], old(chain.statuses[f])[j := COMPLETED], j),
                                          old(chain.cap.State()), f, chain.tenants[f], upNext);
           chain.statuses[f] == st' && chain.cap.State() == cap'.(totals := AddCompleted(cap'.totals, job.payload.queueName))
      ensures job.payload.job.SingleJob? ==>
        var id, cap := job.payload.job.id, old(chain.cap.State());
        && chain.statuses == old(chain.statuses)
        && singles == (if id in old(singles) then old(singles)[id := COMPLETED] else old(singles))
        && chain.cap.State() == cap.(totals := AddCompleted(cap.totals, job.payload.queueName))
    {
      FinishAttempt(COMPLETED);
      UpdateStatus(job.payload.job, COMPLETED);
      if job.payload.job.FlowJob? {
        ghost var f := job.payload.job.flow;
        ScheduleKeepsTenants(chain.flows[f], UnlockAll(chain.flows[f], chain.statuses[f], job.payload.job.index),
                             chain.cap.State(), f, chain.tenants[f], upNext);
        var ignored := chain.OnJobCompleted(job.payload.job.flow, job.payload.job.index, upNext);
      }
      chain.cap.collector.IncrementCompleted(job.payload.queueName);
    }

    method Fail(job: BullJob, upNext: bool)
      requires Known(job.payload.job) && attempts != [] && HasTenant(chain.cap.State(), job.payload.tenant)
      modifies this`singles, this`attempts, chain`statuses, chain.cap, chain.cap.collector, chain.cap.queue
      ensures Known(job.payload.job) && HasTenant(chain.cap.State(), job.payload.tenant)
      ensures attempts == old(attempts)[|old(attempts)| - 1 := old(attempts)[|old(attempts)| - 1].(status := FAILED)]
      ensures var cap, final := old(chain.cap.State()), IsFinalFailure(job, false);
        var counted := if final then cap.(totals := AddFailed(cap.totals, job.payload.queueName)) else cap;
        && (job.payload.job.FlowJob? ==>
              var f, j := job.payload.job.flow, job.payload.job.index;
              var st := old(chain.statuses[f]);
              && singles == old(singles) && chain.statuses == old(chain.statuses)[f := chain.statuses[f]]
              && var (st', cap', _) := Schedule(chain.flows[f], SkipAll(chain.flows[f], if final then st[j := FAILED] else st, j),
                                                counted, f, chain.tenants[f], upNext);
                 chain.statuses[f] == st' && chain.cap.State() == cap')
        && (job.payload.job.SingleJob? ==>
              var id := job.payload.job.id;
              && chain.statuses == old(chain.statuses) && chain.cap.State() == counted
              && singles == (if id in old(singles) && final then old(singles)[id := FAILED] else old(singles)))
    {
      FinishAttempt(FAILED);
      if job.attemptsMade + 1 >= MaxAttempts(job) {
        UpdateStatus(job.payload.job, FAILED);
        chain.cap.collector.IncrementFailed(job.payload.queueName);
      }
      if job.payload.job.FlowJob? {
        ghost var f := job.payload.job.flow;
        ScheduleKeepsTenants(chain.flows[f], SkipAll(chain.flows[f], chain.statuses[f], job.payload.job.index),
                             chain.cap.State(), f, chain.tenants[f], upNext);
        var ignored := chain.HandleParentFailure(job.payload.job.flow, job.payload.job.index, upNext);
      }
    }
  }

  /** The failed handler shared by the boot-time worker and the autoscaled ones. */
  class FailedHandler {
    var dlq: seq<Payload>

    constructor ()
      ensures dlq == []
    {
      dlq := [];
    }

    method OnFailed(job: BullJob)
      modifies this
      ensures dlq == if GoesToDlq(job) then old(dlq) + [job.payload] else old(dlq)
      ensures dlq != old(dlq) <==> job.attemptsMade >= match job.attempts case None => 5 case Some(n) => n
    {
      var maxAttempts := if job.attempts.Some? then job.attempts.value else 5;
      if job.attemptsMade >= maxAttempts {
        dlq := dlq + [job.payload];
      }
    }
  }
}
