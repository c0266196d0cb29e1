/**
 * The attempt loop (AttemptLoop) against the accounting (CapAccounting): however often a job outside a
 * workflow is delivered, all its deliveries together are one complete or one final-fail operation.
 */
module JobLifecycle {
  import opened Common
  import opened Queues
  import opened TenantCap
  import opened CapAccounting
  import opened AttemptLoop

  /** The cap after every delivery of the job, its first `fails` attempts throwing. */
  function AllDeliveries(cap: Cap, job: BullJob, fails: nat, up: bool): Cap
    requires HasTenant(cap, job.payload.tenant)
    decreases fails - job.attemptsMade
  {
    var succeeded := job.attemptsMade >= fails;
    var again := job.(attemptsMade := job.attemptsMade + 1);
    var cap' := ExecuteSingle(cap, job, succeeded, up);
    if !succeeded && again.attemptsMade < MaxAttempts(job) then AllDeliveries(cap', again, fails, up) else cap'
  }

  lemma {:induction false} DeliveriesReleaseOnce(cap: Cap, job: BullJob, fails: nat, up: bool)
    requires HasTenant(cap, job.payload.tenant)
    requires job.attemptsMade <= fails && job.attemptsMade < AtLeastOne(MaxAttempts(job))
    ensures var q := job.payload.queueName;
      AllDeliveries(cap, job, fails, up) ==
        Release(cap.(totals := if fails < AtLeastOne(MaxAttempts(job)) then AddCompleted(cap.totals, q)
                               else AddFailed(cap.totals, q)), job.payload.tenant, up)
    decreases fails - job.attemptsMade
  {
    hide Release, AddCompleted, AddFailed;
    var again := job.(attemptsMade := job.attemptsMade + 1);
    if job.attemptsMade < fails && again.attemptsMade < MaxAttempts(job) {
      DeliveriesReleaseOnce(cap, again, fails, up);
    }
  }

  /** A live job's whole life after admission changes the cap exactly as one operation of the accounting. */
  lemma JobIsOneOperation(w: System, i: nat, job: BullJob, fails: nat, up: bool)
    requires Shaped(w) && i < |w.cap.live| && job.payload == w.cap.live[i] && job.attemptsMade == 0
    requires job.payload.tenant < |w.cap.inflight|
    ensures var op := if fails < AtLeastOne(MaxAttempts(job)) then CompleteOp(i, up) else FailOp(i, up);
      Apply(w, op).cap == AllDeliveries(w.cap.(live := Without(w.cap.live, i)), job, fails, up)
  {
    hide Release, AddCompleted, AddFailed, Enqueue;
    DeliveriesReleaseOnce(w.cap.(live := Without(w.cap.live, i)), job, fails, up);
  }

  /** It goes to the dead-letter queue of that operation exactly when its last delivery goes there. */
  lemma DeadLettersAgree(w: System, i: nat, job: BullJob, fails: nat, up: bool)
    requires Shaped(w) && i < |w.cap.live| && job.payload == w.cap.live[i] && job.attemptsMade == 0
    requires job.payload.tenant < |w.cap.inflight|
    ensures var op := if fails < AtLeastOne(MaxAttempts(job)) then CompleteOp(i, up) else FailOp(i, up);
      var d := Deliveries(job, fails);
      && d != [] && Apply(w, op).dlq == w.dlq + (if d[|d| - 1].dead then [job.payload] else [])
      && forall n :: 0 <= n < |d| - 1 ==> !d[n].dead
  {
    hide Release, AddCompleted, AddFailed, Enqueue;
    OneReleasePerJob(job, fails);
  }
}
