/**
 * Workflow jobs against the accounting: the deliveries of one job, scheduler calls included, change the cap
 * exactly as the submission of the next job, if one is picked, followed by one complete or final-fail operation.
 */
module FlowLifecycle {
  import opened Common
  import opened Workflows
  import opened SchedulerMachine
  import opened Queues
  import opened TenantCap
  import opened Chain
  import opened AttemptLoop
  import opened ExecuteRuns
  import Accounts = CapAccounting

  // ---------- one scheduler call ----------

  /** What a scheduler call on these rows submits, if anything. */
  function NextPayload(w: Workflow, st: seq<Status>, flow: nat, tenant: nat): Option<Payload>
    requires WellFormed(w) && |st| == |w.jobs|
  {
    if AnyActive(st) || PickNextJob(w, st).None? then None else
      var c := PickNextJob(w, st).value;
      match ResolveQueueName(w.jobs[c].jobType)
      case Err(_) => None
      case Ok(q) => Some(PayloadOf(w, flow, tenant, c, q))
  }

  predicate Submittable(s: Accounts.System, next: Option<Payload>) {
    next.Some? ==> Accounts.Allowed(s, Accounts.SubmitOp(next.value, true))
  }

  function AfterNext(s: Accounts.System, next: Option<Payload>, up: bool): (s': Accounts.System)
    requires Submittable(s, next)
  {
    if next.None? then s else Accounts.Apply(s, Accounts.SubmitOp(next.value, up))
  }

  lemma ScheduleSubmitsNext(w: Workflow, st: seq<Status>, cap: Cap, flow: nat, tenant: nat, up: bool)
    requires WellFormed(w) && |st| == |w.jobs| && HasTenant(cap, tenant)
    ensures var next, r := NextPayload(w, st, flow, tenant), Schedule(w, st, cap, flow, tenant, up);
      && r.0 == ScheduledRows(w, st)
      && (next.None? ==> r.1 == cap)
      && (next.Some? ==> next.value.tenant == tenant && Resolved(next.value) && r.1 == Submit(cap, next.value, up).0)
  {
    hide WellFormed, ResolveQueueName, Submit, Search;
  }

  // ---------- the end of a job commutes with the submission of the next ----------

  lemma SubmitThenRemove(cap: Cap, p: Payload, up: bool, i: nat)
    requires HasTenant(cap, p.tenant) && i < |cap.live|
    ensures var after := Submit(cap, p, up).0;
      && i < |after.live| && after.live[i] == cap.live[i]
      && Submit(cap.(live := Accounts.Without(cap.live, i)), p, up).0 == after.(live := Accounts.Without(after.live, i))
  {
    hide GetQueueName;
    var longer := cap.live + [p];
    assert Accounts.Without(cap.live, i) + [p] == Accounts.Without(longer, i);
  }

  lemma SubmitThenCount(cap: Cap, p: Payload, up: bool, q: QueueName)
    requires HasTenant(cap, p.tenant)
    ensures var after := Submit(cap, p, up).0;
      Submit(cap.(totals := AddFailed(cap.totals, q)), p, up).0 == after.(totals := AddFailed(after.totals, q))
  {
    hide GetQueueName, AddFailed, AddSubmitted, AddStaged;
    CountsCommute(cap.totals, p.queueName, q);
  }

  lemma CountsCommute(m: Totals, a: QueueName, b: QueueName)
    ensures AddSubmitted(AddFailed(m, b), a) == AddFailed(AddSubmitted(m, a), b)
    ensures AddStaged(AddSubmitted(AddFailed(m, b), a), a) == AddFailed(AddStaged(AddSubmitted(m, a), a), b)
  {
  }

  lemma NextThenRemove(s: Accounts.System, next: Option<Payload>, up: bool, i: nat)
    requires Accounts.Shaped(s) && Submittable(s, next) && i < |s.cap.live|
    ensures var after := AfterNext(s, next, up);
      && Accounts.Shaped(after) && |after.cap.inflight| == |s.cap.inflight|
      && i < |after.cap.live| && after.cap.live[i] == s.cap.live[i]
  {
    if next.Some? {
      SubmitThenRemove(s.cap, next.value, up, i);
    }
  }

  // The cap a scheduler call leaves while job i, already ended, is no longer live.
  lemma ScheduleWhileEnding(w: Workflow, st: seq<Status>, s: Accounts.System, i: nat, flow: nat, tenant: nat, up: bool)
    requires WellFormed(w) && |st| == |w.jobs| && Accounts.Shaped(s) && tenant < |s.cap.inflight| && i < |s.cap.live|
    ensures var next := NextPayload(w, st, flow, tenant);
      && Submittable(s, next)
      && var cap, after := s.cap.(live := Accounts.Without(s.cap.live, i)), AfterNext(s, next, up).cap;
         && i < |after.live|
         && Schedule(w, st, cap, flow, tenant, up).1 == after.(live := Accounts.Without(after.live, i))
         && forall q :: Schedule(w, st, cap.(totals := AddFailed(cap.totals, q)), flow, tenant, up).1
                     == after.(live := Accounts.Without(after.live, i), totals := AddFailed(after.totals, q))
  {
    hide WellFormed, Submit, ResolveQueueName, GetQueueName, Schedule, NextPayload, AddFailed, Accounts.Without;
    var next := NextPayload(w, st, flow, tenant);
    var cap := s.cap.(live := Accounts.Without(s.cap.live, i));
    ScheduleSubmitsNext(w, st, cap, flow, tenant, up);
    if next.Some? {
      SubmitThenRemove(s.cap, next.value, up, i);
    }
    forall q ensures var after := AfterNext(s, next, up).cap;
      Schedule(w, st, cap.(totals := AddFailed(cap.totals, q)), flow, tenant, up).1
        == after.(live := Accounts.Without(after.live, i), totals := AddFailed(after.totals, q))
    {
      ScheduleSubmitsNext(w, st, cap.(totals := AddFailed(cap.totals, q)), flow, tenant, up);
      if next.Some? {
        SubmitThenCount(cap, next.value, up, q);
      }
    }
  }

  // ---------- one delivery ----------

  function EndOp(succeeded: bool, i: nat, up: bool): Accounts.Op {
    if succeeded then Accounts.CompleteOp(i, up) else Accounts.FailOp(i, up)
  }

  /** The rows that the last delivery hands to the scheduler. */
  function EndRows(w: Workflow, st: seq<Status>, j: nat, succeeded: bool): (rows: seq<Status>)
    requires WellFormed(w) && |st| == |w.jobs| && w.IsJob(j)
    ensures |rows| == |st|
  {
    if succeeded then UnlockAll(w, st[j := COMPLETED], j) else SkipAll(w, st[j := FAILED], j)
  }

  /** The delivery that ends a job is the next job's submission, if any, and then that job's one end. */
  lemma LastDelivery(w: Workflow, st: seq<Status>, s: Accounts.System, i: nat, job: BullJob, flow: nat, j: nat,
                     tenant: nat, succeeded: bool, upNext: bool, upDrain: bool)
    requires WellFormed(w) && |st| == |w.jobs| && w.IsJob(j)
    requires Accounts.Shaped(s) && tenant < |s.cap.inflight| && i < |s.cap.live|
    requires job.payload == s.cap.live[i] && job.payload.tenant < |s.cap.inflight|
    requires succeeded || IsFinalFailure(job, false)
    ensures var rows := EndRows(w, st[j := PROCESSING], j, succeeded);
      var next, op := NextPayload(w, rows, flow, tenant), EndOp(succeeded, i, upDrain);
      && Submittable(s, next) && Accounts.Allowed(AfterNext(s, next, upNext), op)
      && ExecuteFlow(w, st, s.cap.(live := Accounts.Without(s.cap.live, i)), job, flow, j, tenant, succeeded, upNext, upDrain)
         == (ScheduledRows(w, rows), Accounts.Apply(AfterNext(s, next, upNext), op).cap)
  {
    hide WellFormed, Schedule, NextPayload, UnlockAll, SkipAll, AfterNext, ScheduledRows;
    hide Release, AddCompleted, AddFailed, Enqueue, Accounts.Without, Submittable;
    var begun := if job.attemptsMade == 0 then st[j := PROCESSING] else st;
    assert begun[j := COMPLETED] == st[j := PROCESSING][j := COMPLETED];
    assert begun[j := FAILED] == st[j := PROCESSING][j := FAILED];
    var rows := EndRows(w, st[j := PROCESSING], j, succeeded);
    var cap := s.cap.(live := Accounts.Without(s.cap.live, i));
    ScheduleWhileEnding(w, rows, s, i, flow, tenant, upNext);
    NextThenRemove(s, NextPayload(w, rows, flow, tenant), upNext, i);
    ScheduleSubmitsNext(w, rows, cap, flow, tenant, upNext);
    ScheduleSubmitsNext(w, rows, cap.(totals := AddFailed(cap.totals, job.payload.queueName)), flow, tenant, upNext);
  }

  /** A failed delivery that is not the last leaves the cap alone: its job is active, so nothing is scheduled. */
  lemma RetryKeepsCap(w: Workflow, st: seq<Status>, cap: Cap, job: BullJob, flow: nat, j: nat, tenant: nat,
                      upNext: bool, upDrain: bool)
    requires WellFormed(w) && |st| == |w.jobs| && w.IsJob(j) && HasTenant(cap, tenant) && HasTenant(cap, job.payload.tenant)
    requires !IsFinalFailure(job, false) && (job.attemptsMade > 0 ==> st[j] == PROCESSING)
    ensures ExecuteFlow(w, st, cap, job, flow, j, tenant, false, upNext, upDrain) == (SkipAll(w, st[j := PROCESSING], j), cap)
    ensures SkipAll(w, st[j := PROCESSING], j)[j] == PROCESSING
  {
    hide WellFormed, PickNextJob, Release, AddFailed;
    var begun := if job.attemptsMade == 0 then st[j := PROCESSING] else st;
    assert begun == st[j := PROCESSING];
    NotOwnChild(w, j);
    assert Active(SkipAll(w, begun, j)[j]);
  }

  lemma NotOwnChild(w: Workflow, j: nat)
    requires WellFormed(w) && w.IsJob(j)
    ensures !IsChild(w, j, j)
  {
    if IsChild(w, j, j) {
      Descends(w, Some(j), j);
    }
  }

  // ---------- all deliveries of one workflow job ----------

  /** Rows and cap after every delivery of the job, its first `fails` attempts throwing. */
  function AllFlowDeliveries(w: Workflow, st: seq<Status>, cap: Cap, job: BullJob, flow: nat, j: nat, tenant: nat,
                             fails: nat, upNext: bool, upDrain: bool): (r: (seq<Status>, Cap))
    requires WellFormed(w) && |st| == |w.jobs| && w.IsJob(j) && HasTenant(cap, tenant) && HasTenant(cap, job.payload.tenant)
    requires job.attemptsMade > 0 ==> st[j] == PROCESSING
    decreases fails - job.attemptsMade
  {
    var succeeded := job.attemptsMade >= fails;
    var again := job.(attemptsMade := job.attemptsMade + 1);
    var (st', cap') := ExecuteFlow(w, st, cap, job, flow, j, tenant, succeeded, upNext, upDrain);
    if !succeeded && again.attemptsMade < MaxAttempts(job) then
      RetryKeepsCap(w, st, cap, job, flow, j, tenant, upNext, upDrain);
      AllFlowDeliveries(w, st', cap', again, flow, j, tenant, fails, upNext, upDrain)
    else (st', cap')
  }

  /** The rows after the last attempt: STRICT children are skipped if any attempt failed, even if the job succeeds. */
  function LifeRows(w: Workflow, st: seq<Status>, j: nat, failedBefore: bool, succeeded: bool): seq<Status>
    requires WellFormed(w) && |st| == |w.jobs| && w.IsJob(j)
  {
    var begun := st[j := PROCESSING];
    EndRows(w, if failedBefore then SkipAll(w, begun, j) else begun, j, succeeded)
  }

  lemma SkippedOnce(w: Workflow, st: seq<Status>, j: nat, succeeded: bool)
    requires WellFormed(w) && |st| == |w.jobs| && w.IsJob(j)
    ensures var st' := SkipAll(w, st[j := PROCESSING], j);
      && LifeRows(w, st', j, true, succeeded) == LifeRows(w, st, j, true, succeeded)
      && LifeRows(w, st', j, false, succeeded) == LifeRows(w, st, j, true, succeeded)
      && EndRows(w, st'[j := PROCESSING], j, succeeded) == LifeRows(w, st, j, true, succeeded)
  {
    hide WellFormed;
    NotOwnChild(w, j);
    var begun := st[j := PROCESSING];
    var st' := SkipAll(w, begun, j);
    assert st'[j := PROCESSING] == st';
    assert SkipAll(w, st', j) == st';
  }

  /**
   * One release per workflow job: however often it is delivered, all its deliveries together submit the job
   * picked at its end, if any, and then are one complete or one final-fail operation of the accounting.
   */
  lemma {:induction false} FlowJobIsOneOperation(
      w: Workflow, st: seq<Status>, s: Accounts.System, i: nat, job: BullJob, flow: nat, j: nat, tenant: nat,
      fails: nat, upNext: bool, upDrain: bool)
    requires WellFormed(w) && |st| == |w.jobs| && w.IsJob(j)
    requires Accounts.Shaped(s) && tenant < |s.cap.inflight| && i < |s.cap.live|
    requires job.payload == s.cap.live[i] && job.payload.tenant < |s.cap.inflight|
    requires job.attemptsMade <= fails && job.attemptsMade < AtLeastOne(MaxAttempts(job))
    requires job.attemptsMade > 0 ==> st[j] == PROCESSING
    ensures var succeeded := fails < AtLeastOne(MaxAttempts(job));
      var failedBefore := job.attemptsMade < fails && job.attemptsMade + 1 < AtLeastOne(MaxAttempts(job));
      var rows := LifeRows(w, st, j, failedBefore, succeeded);
      var next, op := NextPayload(w, rows, flow, tenant), EndOp(succeeded, i, upDrain);
      && Submittable(s, next) && Accounts.Allowed(AfterNext(s, next, upNext), op)
      && AllFlowDeliveries(w, st, s.cap.(live := Accounts.Without(s.cap.live, i)), job, flow, j, tenant, fails, upNext, upDrain)
         == (ScheduledRows(w, rows), Accounts.Apply(AfterNext(s, next, upNext), op).cap)
    decreases fails - job.attemptsMade
  {
    hide WellFormed, NextPayload, SkipAll, EndRows, AfterNext, ScheduledRows, ExecuteFlow, Submittable;
    hide Accounts.Apply, Accounts.Allowed, Accounts.Without;
    var again := job.(attemptsMade := job.attemptsMade + 1);
    var cap := s.cap.(live := Accounts.Without(s.cap.live, i));
    if job.attemptsMade < fails && again.attemptsMade < MaxAttempts(job) {
      RetryKeepsCap(w, st, cap, job, flow, j, tenant, upNext, upDrain);
      var st' := SkipAll(w, st[j := PROCESSING], j);
      SkippedOnce(w, st, j, fails < AtLeastOne(MaxAttempts(job)));
      FlowJobIsOneOperation(w, st', s, i, again, flow, j, tenant, fails, upNext, upDrain);
    } else {
      LastDelivery(w, st, s, i, job, flow, j, tenant, job.attemptsMade >= fails, upNext, upDrain);
    }
  }

  // ---------- what is handed on is what the cap receives ----------

  /**
   * With known job types, the machine hands on a job exactly when the cap is given its payload. Without a free
   * slot it is staged; with one it joins the queue if that is up, and otherwise it is lost and keeps the slot.
   */
  lemma HandedOnIsReceived(w: Workflow, rows: seq<Status>, s: Accounts.System, flow: nat, tenant: nat, up: bool)
    requires WellFormed(w) && |rows| == |w.jobs| && Accounts.Shaped(s) && tenant < |s.cap.inflight|
    requires forall c :: 0 <= c < |w.jobs| ==> GetQueueName(w.jobs[c].jobType).Some?
    ensures var next := NextPayload(w, rows, flow, tenant);
      && Submittable(s, next)
      && match next
         case None => Scheduled(w, rows) == []
         case Some(p) =>
           && p.job.FlowJob? && p.job.flow == flow && Scheduled(w, rows) == [p.job.index] && p.tenant == tenant
           && p.jobType == w.jobs[p.job.index].jobType && GetQueueName(p.jobType) == Some(p.queueName)
           && p.retries == w.jobs[p.job.index].retries && p.priority == w.jobs[p.job.index].priority
           && var s' := AfterNext(s, next, up);
              if s.cap.inflight[tenant] >= MAX_CONCURRENT_PER_TENANT then
                s'.cap.live == s.cap.live && s'.lost == s.lost &&
                s'.cap.staging == s.cap.staging[tenant := s.cap.staging[tenant] + [p]]
              else
                s'.cap.staging == s.cap.staging &&
                if up then s'.cap.live == s.cap.live + [p] && s'.lost == s.lost
                else s'.cap.live == s.cap.live && s'.lost == s.lost + [p]
  {
    hide WellFormed, GetQueueName, ResolveQueueName, AddSubmitted, AddStaged, Search;
    var next := NextPayload(w, rows, flow, tenant);
    if !AnyActive(rows) && PickNextJob(w, rows).Some? {
      TablesAgreeExceptOnce(w.jobs[PickNextJob(w, rows).value].jobType);
    }
  }
}
