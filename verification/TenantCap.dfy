/**
 * The per-tenant admission cap: an in-flight counter and a first-in first-out staging list per tenant,
 * the reconcile counters, and the queue behind them.
 */
module TenantCap {
  import opened Common
  import opened Queues

  const MAX_CONCURRENT_PER_TENANT: nat := 5

  // ---------- the stored state ----------

  /** The reconcile hashes of one queue; a missing field reads as 0. */
  datatype Counters = Counters(submitted: int, staged: int, releasePending: int, completed: int, failed: int)

  const NO_COUNTS := Counters(0, 0, 0, 0, 0)

  type Totals = map<QueueName, Counters>

  function Of(totals: Totals, q: QueueName): Counters {
    if q in totals then totals[q] else NO_COUNTS
  }

  function FloorZero(n: int): int {
    Max(0, n - 1)
  }

  function AddSubmitted(m: Totals, q: QueueName): Totals { m[q := Of(m, q).(submitted := Of(m, q).submitted + 1)] }
  function AddStaged(m: Totals, q: QueueName): Totals { m[q := Of(m, q).(staged := Of(m, q).staged + 1)] }
  function DropStaged(m: Totals, q: QueueName): Totals { m[q := Of(m, q).(staged := FloorZero(Of(m, q).staged))] }
  function AddPending(m: Totals, q: QueueName): Totals { m[q := Of(m, q).(releasePending := Of(m, q).releasePending + 1)] }
  function DropPending(m: Totals, q: QueueName): Totals { m[q := Of(m, q).(releasePending := FloorZero(Of(m, q).releasePending))] }
  function AddCompleted(m: Totals, q: QueueName): Totals { m[q := Of(m, q).(completed := Of(m, q).completed + 1)] }
  function AddFailed(m: Totals, q: QueueName): Totals { m[q := Of(m, q).(failed := Of(m, q).failed + 1)] }

  /** Tenants are numbered; `live` are the jobs the queue has accepted and not yet finished. */
  datatype Cap = Cap(inflight: seq<int>, staging: seq<seq<Payload>>, totals: Totals, live: seq<Payload>)

  predicate HasTenant(s: Cap, t: nat) {
    t < |s.inflight| == |s.staging|
  }

  // ---------- what each operation does to it ----------

  datatype Verdict = Queued | Staged

  /** QueueService.enqueue: `up` says whether the queue can be reached. */
  function Enqueue(live: seq<Payload>, p: Payload, up: bool): Result<seq<Payload>, QueueError> {
    if GetQueueName(p.jobType).None? then Err(UnknownJobType)
    else if !up then Err(EnqueueFailed)
    else Ok(live + [p])
  }

  /** submitJob: take a slot and enqueue, or give the slot back and stage. */
  function Submit(s: Cap, p: Payload, up: bool): (r: (Cap, Result<Verdict, QueueError>))
    requires HasTenant(s, p.tenant)
  {
    var t, current := p.tenant, s.inflight[p.tenant] + 1;
    var m := AddSubmitted(s.totals, p.queueName);
    if current <= MAX_CONCURRENT_PER_TENANT then
      match Enqueue(s.live, p, up)
      case Ok(live) => (Cap(s.inflight[t := current], s.staging, m, live), Ok(Queued))
      case Err(e) => (Cap(s.inflight[t := current], s.staging, m, s.live), Err(e))
    else
      (Cap(s.inflight, s.staging[t := s.staging[t] + [p]], AddStaged(m, p.queueName), s.live), Ok(Staged))
  }

  /** drainOne: move the oldest staged payload into the queue; put it back in front if that fails. */
  function Drain(s: Cap, t: nat, up: bool): (s': Cap)
    requires HasTenant(s, t)
    ensures |s'.inflight| == |s.inflight| && |s'.staging| == |s.staging|
  {
    if s.staging[t] == [] then s else
      var p := s.staging[t][0];
      var m := AddPending(DropStaged(s.totals, p.queueName), p.queueName);
      match Enqueue(s.live, p, up)
      case Ok(live) =>
        Cap(s.inflight[t := s.inflight[t] + 1], s.staging[t := s.staging[t][1..]], DropPending(m, p.queueName), live)
      case Err(_) =>
        s.(totals := AddStaged(DropPending(m, p.queueName), p.queueName))
  }

  /** release: give a slot back and drain, unless the counter has gone below zero. */
  function Release(s: Cap, t: nat, up: bool): (s': Cap)
    requires HasTenant(s, t)
    ensures |s'.inflight| == |s.inflight| && |s'.staging| == |s.staging|
  {
    var after := s.inflight[t] - 1;
    if after < 0 then s.(inflight := s.inflight[t := 0])
    else Drain(s.(inflight := s.inflight[t := after]), t, up)
  }

  // ---------- the services ----------

  class QueueReconcileCollector {
    var totals: Totals

    constructor ()
      ensures totals == map[]
    {
      totals := map[];
    }

    method IncrementSubmitted(q: QueueName)
      modifies this
      ensures totals == AddSubmitted(old(totals), q)
    {
      var c := Of(totals, q);
      totals := totals[q := c.(submitted := c.submitted + 1)];
    }

    method IncrementStaged(q: QueueName)
      modifies this
      ensures totals == AddStaged(old(totals), q)
    {
      var c := Of(totals, q);
      totals := totals[q := c.(staged := c.staged + 1)];
    }

    method DecrementStaged(q: QueueName)
      modifies this
      ensures totals == DropStaged(old(totals), q)
    {
      var current := Of(totals, q).staged;
      var next := if current - 1 > 0 then current - 1 else 0;
      totals := totals[q := Of(totals, q).(staged := next)];
    }

    method IncrementReleasePending(q: QueueName)
      modifies this
      ensures totals == AddPending(old(totals), q)
    {
      var c := Of(totals, q);
      totals := totals[q := c.(releasePending := c.releasePending + 1)];
    }

    method DecrementReleasePending(q: QueueName)
      modifies this
      ensures totals == DropPending(old(totals), q)
    {
      var current := Of(totals, q).releasePending;
      var next := if current - 1 > 0 then current - 1 else 0;
      totals := totals[q := Of(totals, q).(releasePending := next)];
    }

    method IncrementCompleted(q: QueueName)
      modifies this
      ensures totals == AddCompleted(old(totals), q)
    {
      var c := Of(totals, q);
      totals := totals[q := c.(completed := c.completed + 1)];
    }

    method IncrementFailed(q: QueueName)
      modifies this
      ensures totals == AddFailed(old(totals), q)
    {
      var c := Of(totals, q);
      totals := totals[q := c.(failed := c.failed + 1)];
    }
  }

  class QueueService {
    var live: seq<Payload>

    constructor ()
      ensures live == []
    {
      live := [];
    }

    // The thrown error is the result None.
    method EnqueueJob(p: Payload, up: bool) returns (error: Option<QueueError>)
      modifies this
      ensures match Enqueue(old(live), p, up)
        case Ok(longer) => error.None? && live == longer
        case Err(e) => error == Some(e) && live == old(live)
    {
      var name := GetQueueName(p.jobType);
      if name.None? {
        return Some(UnknownJobType);
      }
      if !up {
        return Some(EnqueueFailed);
      }
      live := live + [p];
      return None;
    }
  }

  class TenantCapService {
    const collector: QueueReconcileCollector
    const queue: QueueService
    var inflight: seq<int>
    var staging: seq<seq<Payload>>

    ghost function State(): Cap
      reads this, collector, queue
    {
      Cap(inflight, staging, collector.totals, queue.live)
    }

    constructor (tenants: nat)
      ensures fresh(collector) && fresh(queue)
      ensures State() == Cap(seq(tenants, _ => 0), seq(tenants, _ => []), map[], [])
    {
      collector := new QueueReconcileCollector();
      queue := new QueueService();
      inflight := seq(tenants, _ => 0);
      staging := seq(tenants, _ => []);
    }

    method SubmitJob(p: Payload, up: bool) returns (verdict: Result<Verdict, QueueError>)
      requires HasTenant(State(), p.tenant)
      modifies this, collector, queue
      ensures (State(), verdict) == Submit(old(State()), p, up)
    {
      collector.IncrementSubmitted(p.queueName);
      inflight := inflight[p.tenant := inflight[p.tenant] + 1];
      var current := inflight[p.tenant];
      if current <= MAX_CONCURRENT_PER_TENANT {
        var error := queue.EnqueueJob(p, up);
        return if error.Some? then Err(error.value) else Ok(Queued);
      }
      inflight := inflight[p.tenant := inflight[p.tenant] - 1];
      staging := staging[p.tenant := staging[p.tenant] + [p]];
      collector.IncrementStaged(p.queueName);
      assert inflight == old(inflight);
      return Ok(Staged);
    }

    method ReleaseSlot(t: nat, up: bool)
      requires HasTenant(State(), t)
      modifies this, collector, queue
      ensures State() == Release(old(State()), t, up)
    {
      inflight := inflight[t := inflight[t] - 1];
      var after := inflight[t];
      if after < 0 {
        inflight := inflight[t := 0];
        assert inflight == old(inflight)[t := 0];
        return;
      }
      DrainOne(t, up);
    }

    method DrainOne(t: nat, up: bool)
      requires HasTenant(State(), t)
      modifies this, collector, queue
      ensures State() == Drain(old(State()), t, up)
    {
      if staging[t] == [] {
        return;
      }
      var p := staging[t][0];
      staging := staging[t := staging[t][1..]];
      collector.DecrementStaged(p.queueName);
      collector.IncrementReleasePending(p.queueName);
      var error := queue.EnqueueJob(p, up);
      if error.None? {
        inflight := inflight[t := inflight[t] + 1];
        collector.DecrementReleasePending(p.queueName);
      } else {
        assert [p] + staging[t] == old(staging[t]);
        staging := staging[t := [p] + staging[t]];
        collector.DecrementReleasePending(p.queueName);
        collector.IncrementStaged(p.queueName);
        assert staging == old(staging);
      }
    }
  }
}
