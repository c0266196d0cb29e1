/**
 * Exact accounting when submit, complete and final failure are whole operations, over any number of
 * tenants and queues, including direct submissions and drains whose enqueue throws.
 */
module CapAccounting {
  import opened Common
  import opened Queues
  import opened TenantCap

  datatype Selector = ByTenant(tenant: nat) | ByQueue(queue: QueueName)

  predicate Selects(k: Selector, p: Payload) {
    match k
    case ByTenant(t) => p.tenant == t
    case ByQueue(q) => p.queueName == q
  }

  function Count(s: seq<Payload>, k: Selector): nat {
    if s == [] then 0 else (if Selects(k, s[0]) then 1 else 0) + Count(s[1..], k)
  }

  function One(p: Payload, k: Selector): nat {
    if Selects(k, p) then 1 else 0
  }

  lemma {:induction false} CountConcat(a: seq<Payload>, b: seq<Payload>, k: Selector)
    ensures Count(a + b, k) == Count(a, k) + Count(b, k)
  {
    if a == [] {
      assert a + b == b;
    } else {
      assert (a + b)[1..] == a[1..] + b;
      CountConcat(a[1..], b, k);
    }
  }

  lemma CountAppend(a: seq<Payload>, p: Payload, k: Selector)
    ensures Count(a + [p], k) == Count(a, k) + One(p, k)
  {
    CountConcat(a, [p], k);
  }

  function Without(s: seq<Payload>, i: nat): seq<Payload>
    requires i < |s|
  {
    s[..i] + s[i + 1..]
  }

  lemma CountWithout(s: seq<Payload>, i: nat, k: Selector)
    requires i < |s|
    ensures Count(Without(s, i), k) + One(s[i], k) == Count(s, k)
  {
    assert s == s[..i] + ([s[i]] + s[i + 1..]);
    CountConcat(s[..i], [s[i]] + s[i + 1..], k);
    CountConcat([s[i]], s[i + 1..], k);
    CountConcat(s[..i], s[i + 1..], k);
  }

  /** Staged payloads of one queue, over the first n tenants. */
  function StagedFor(staging: seq<seq<Payload>>, q: QueueName, n: nat): nat
    requires n <= |staging|
  {
    if n == 0 then 0 else StagedFor(staging, q, n - 1) + Count(staging[n - 1], ByQueue(q))
  }

  lemma {:induction false} StagedForUpdate(staging: seq<seq<Payload>>, q: QueueName, n: nat, t: nat, list: seq<Payload>)
    requires n <= |staging| && t < |staging|
    ensures StagedFor(staging[t := list], q, n) + (if t < n then Count(staging[t], ByQueue(q)) else 0)
         == StagedFor(staging, q, n) + if t < n then Count(list, ByQueue(q)) else 0
  {
    if n > 0 { StagedForUpdate(staging, q, n - 1, t, list); }
  }

  // ---------- the system: stored state plus what has happened to it ----------

  /**
   * lost: direct submissions whose enqueue threw; dlq: the dead-letter queues; staged and drained: each
   * tenant's payloads in the order they entered and left its list; failedDrains per tenant.
   */
  datatype System = System(
    cap: Cap, lost: seq<Payload>, dlq: seq<Payload>,
    staged: seq<seq<Payload>>, drained: seq<seq<Payload>>, failedDrains: seq<nat>)

  /** Submit also stands for retryFailedJob; `at` picks the live job that ends. */
  datatype Op =
    | SubmitOp(payload: Payload, up: bool)
    | CompleteOp(at: nat, up: bool)
    | FailOp(at: nat, up: bool)

  predicate Shaped(w: System) {
    |w.cap.inflight| == |w.cap.staging| == |w.staged| == |w.drained| == |w.failedDrains|
  }

  predicate Allowed(w: System, op: Op) {
    && Shaped(w)
    && match op
       case SubmitOp(p, _) => p.tenant < |w.cap.inflight| && Resolved(p)
       case CompleteOp(i, _) => i < |w.cap.live| && w.cap.live[i].tenant < |w.cap.inflight|
       case FailOp(i, _) => i < |w.cap.live| && w.cap.live[i].tenant < |w.cap.inflight|
  }

  function AfterSubmit(w: System, p: Payload, up: bool): System
    requires Allowed(w, SubmitOp(p, up))
  {
    var (cap, verdict) := Submit(w.cap, p, up);
    match verdict
    case Ok(Queued) => w.(cap := cap)
    case Ok(Staged) => w.(cap := cap, staged := w.staged[p.tenant := w.staged[p.tenant] + [p]])
    case Err(_) => w.(cap := cap, lost := w.lost + [p])
  }

  /** The slot of tenant t is given back; what the drain did is recorded. */
  function AfterRelease(w: System, t: nat, up: bool): System
    requires Shaped(w) && t < |w.cap.inflight|
  {
    var cap := Release(w.cap, t, up);
    if w.cap.inflight[t] < 1 || w.cap.staging[t] == [] then w.(cap := cap)
    else
      var p := w.cap.staging[t][0];
      if Enqueue(w.cap.live, p, up).Ok? then w.(cap := cap, drained := w.drained[t := w.drained[t] + [p]])
      else w.(cap := cap, failedDrains := w.failedDrains[t := w.failedDrains[t] + 1])
  }

  function Finish(w: System, i: nat, failed: bool): System
    requires i < |w.cap.live|
  {
    var p := w.cap.live[i];
    var live := Without(w.cap.live, i);
    if failed then
      w.(cap := w.cap.(live := live, totals := AddFailed(w.cap.totals, p.queueName)), dlq := w.dlq + [p])
    else
      w.(cap := w.cap.(live := live, totals := AddCompleted(w.cap.totals, p.queueName)))
  }

  function Apply(w: System, op: Op): System
    requires Allowed(w, op)
  {
    match op
    case SubmitOp(p, up) => AfterSubmit(w, p, up)
    case CompleteOp(i, up) => AfterRelease(Finish(w, i, false), w.cap.live[i].tenant, up)
    case FailOp(i, up) => AfterRelease(Finish(w, i, true), w.cap.live[i].tenant, up)
  }

  function Start(tenants: nat): System {
    System(Cap(seq(tenants, _ => 0), seq(tenants, _ => []), map[], []), [], [],
           seq(tenants, _ => []), seq(tenants, _ => []), seq(tenants, _ => 0))
  }

  // ---------- the invariant ----------

  // `ended` counts jobs of the tenant that have ended and not released their slot yet.
  ghost predicate SlotsMatch(w: System, t: nat, ended: nat)
    requires Shaped(w) && t < |w.cap.inflight|
  {
    && w.cap.inflight[t] == Count(w.cap.live, ByTenant(t)) + Count(w.lost, ByTenant(t)) + ended
    && w.cap.inflight[t] <= MAX_CONCURRENT_PER_TENANT
    && w.drained[t] + w.cap.staging[t] == w.staged[t]
    && (w.cap.staging[t] != [] ==> w.cap.inflight[t] + w.failedDrains[t] >= MAX_CONCURRENT_PER_TENANT)
    && forall p :: p in w.cap.staging[t] ==> p.tenant == t && Resolved(p)
  }

  ghost predicate TenantInv(w: System, t: nat)
    requires Shaped(w) && t < |w.cap.inflight|
  {
    SlotsMatch(w, t, 0)
  }

  ghost predicate QueueInv(w: System, q: QueueName)
    requires Shaped(w)
  {
    var c := Of(w.cap.totals, q);
    && c.staged == StagedFor(w.cap.staging, q, |w.cap.staging|)
    && c.releasePending == 0
    && c.failed == Count(w.dlq, ByQueue(q))
    && c.submitted == c.staged + Count(w.cap.live, ByQueue(q)) + c.completed + c.failed + Count(w.lost, ByQueue(q))
  }

  ghost predicate Inv(w: System) {
    && Shaped(w)
    && (forall t :: 0 <= t < |w.cap.inflight| ==> TenantInv(w, t))
    && (forall q :: QueueInv(w, q))
    && (forall p :: p in w.cap.live ==> p.tenant < |w.cap.inflight| && Routable(p))
  }

  lemma {:induction false} StartStaged(tenants: nat, q: QueueName, n: nat)
    requires n <= tenants
    ensures StagedFor(Start(tenants).cap.staging, q, n) == 0
  {
    if n > 0 { StartStaged(tenants, q, n - 1); }
  }

  lemma StartInv(tenants: nat)
    ensures Inv(Start(tenants))
  {
    forall q ensures QueueInv(Start(tenants), q) {
      StartStaged(tenants, q, tenants);
    }
  }

  // An enqueue that succeeds found the queue the payload was resolved to.
  lemma EnqueuedIsRoutable(live: seq<Payload>, p: Payload, up: bool)
    requires Resolved(p) && Enqueue(live, p, up).Ok?
    ensures Routable(p)
  {
    TablesAgreeExceptOnce(p.jobType);
  }

  lemma SubmitKeepsTenants(w: System, p: Payload, up: bool, t: nat)
    requires Inv(w) && Allowed(w, SubmitOp(p, up)) && t < |w.cap.inflight|
    ensures TenantInv(Apply(w, SubmitOp(p, up)), t)
  {
    hide ResolveQueueName, GetQueueName, Count;
    CountAppend(w.cap.live, p, ByTenant(t));
    CountAppend(w.lost, p, ByTenant(t));
    assert TenantInv(w, t);
    assert w.drained[t] + (w.cap.staging[t] + [p]) == (w.drained[t] + w.cap.staging[t]) + [p];
  }

  lemma SubmitTotals(m: Totals, q: QueueName, q': QueueName)
    ensures Of(AddSubmitted(m, q), q') ==
      if q' == q then Of(m, q).(submitted := Of(m, q).submitted + 1) else Of(m, q')
    ensures Of(AddStaged(AddSubmitted(m, q), q), q') ==
      if q' == q then Of(m, q).(submitted := Of(m, q).submitted + 1, staged := Of(m, q).staged + 1) else Of(m, q')
  {
  }

  lemma DrainTotals(m: Totals, q: QueueName, q': QueueName)
    requires Of(m, q).staged >= 1 && Of(m, q).releasePending == 0
    ensures var m' := DropPending(AddPending(DropStaged(m, q), q), q);
      && Of(m', q') == (if q' == q then Of(m, q).(staged := Of(m, q).staged - 1) else Of(m, q'))
      && Of(AddStaged(m', q), q') == Of(m, q')
  {
  }

  lemma SubmitKeepsQueues(w: System, p: Payload, up: bool, q: QueueName)
    requires Inv(w) && Allowed(w, SubmitOp(p, up))
    ensures QueueInv(Apply(w, SubmitOp(p, up)), q)
  {
    hide ResolveQueueName, GetQueueName, AddSubmitted, AddStaged, Count, StagedFor, Of, TenantInv;
    assert QueueInv(w, q);
    SubmitTotals(w.cap.totals, p.queueName, q);
    if w.cap.inflight[p.tenant] + 1 > MAX_CONCURRENT_PER_TENANT {
      StagingCounts(w.cap.staging, p.tenant, p, q);
    } else if Enqueue(w.cap.live, p, up).Ok? {
      CountAppend(w.cap.live, p, ByQueue(q));
    } else {
      CountAppend(w.lost, p, ByQueue(q));
    }
  }

  lemma StagingCounts(staging: seq<seq<Payload>>, t: nat, p: Payload, q: QueueName)
    requires t < |staging|
    ensures var longer := staging[t := staging[t] + [p]];
      StagedFor(longer, q, |longer|) == StagedFor(staging, q, |staging|) + One(p, ByQueue(q))
  {
    CountAppend(staging[t], p, ByQueue(q));
    StagedForUpdate(staging, q, |staging|, t, staging[t] + [p]);
  }

  lemma SubmitKeepsInv(w: System, p: Payload, up: bool)
    requires Inv(w) && Allowed(w, SubmitOp(p, up))
    ensures Inv(Apply(w, SubmitOp(p, up)))
  {
    hide ResolveQueueName, GetQueueName;
    var w' := Apply(w, SubmitOp(p, up));
    forall t | 0 <= t < |w.cap.inflight| ensures TenantInv(w', t) { SubmitKeepsTenants(w, p, up, t); }
    forall q ensures QueueInv(w', q) { SubmitKeepsQueues(w, p, up, q); }
    if Enqueue(w.cap.live, p, up).Ok? { EnqueuedIsRoutable(w.cap.live, p, up); }
  }

  /** Between a job's end and its release, its tenant holds one slot more than it has jobs. */
  ghost predicate EndedInv(w: System, t0: nat) {
    && Shaped(w) && t0 < |w.cap.inflight|
    && (forall t :: 0 <= t < |w.cap.inflight| && t != t0 ==> SlotsMatch(w, t, 0))
    && SlotsMatch(w, t0, 1)
    && (forall q :: QueueInv(w, q))
    && (forall p :: p in w.cap.live ==> p.tenant < |w.cap.inflight| && Routable(p))
  }

  lemma FinishEnds(w: System, i: nat, failed: bool)
    requires Inv(w) && i < |w.cap.live|
    ensures EndedInv(Finish(w, i, failed), w.cap.live[i].tenant)
  {
    hide ResolveQueueName, GetQueueName, Count, SlotsMatch, QueueInv, AddCompleted, AddFailed;
    var p, w' := w.cap.live[i], Finish(w, i, failed);
    assert p in w.cap.live;
    EndedTenant(w, i, failed, p.tenant);
    forall t | 0 <= t < |w.cap.inflight| && t != p.tenant ensures SlotsMatch(w', t, 0) {
      EndedTenant(w, i, failed, t);
    }
    forall q ensures QueueInv(w', q) {
      EndedQueue(w, i, failed, q);
    }
  }

  lemma EndedTenant(w: System, i: nat, failed: bool, t: nat)
    requires Inv(w) && i < |w.cap.live| && t < |w.cap.inflight|
    ensures SlotsMatch(Finish(w, i, failed), t, if t == w.cap.live[i].tenant then 1 else 0)
  {
    hide ResolveQueueName, GetQueueName, Count, QueueInv, AddCompleted, AddFailed;
    assert TenantInv(w, t);
    CountWithout(w.cap.live, i, ByTenant(t));
  }

  lemma FinishTotals(m: Totals, q: QueueName, q': QueueName)
    ensures Of(AddCompleted(m, q), q') ==
      if q' == q then Of(m, q).(completed := Of(m, q).completed + 1) else Of(m, q')
    ensures Of(AddFailed(m, q), q') ==
      if q' == q then Of(m, q).(failed := Of(m, q).failed + 1) else Of(m, q')
  {
  }

  lemma EndedQueue(w: System, i: nat, failed: bool, q: QueueName)
    requires Inv(w) && i < |w.cap.live|
    ensures QueueInv(Finish(w, i, failed), q)
  {
    hide ResolveQueueName, GetQueueName, Count, SlotsMatch, StagedFor, AddCompleted, AddFailed, Of;
    var p := w.cap.live[i];
    assert QueueInv(w, q);
    FinishTotals(w.cap.totals, p.queueName, q);
    CountWithout(w.cap.live, i, ByQueue(q));
    CountAppend(w.dlq, p, ByQueue(q));
  }

  lemma ReleaseKeepsTenants(w: System, t0: nat, up: bool, t: nat)
    requires EndedInv(w, t0) && t < |w.cap.inflight|
    ensures TenantInv(AfterRelease(w, t0, up), t)
  {
    hide ResolveQueueName, GetQueueName, Count, AddStaged, DropStaged, AddPending, DropPending;
    assert SlotsMatch(w, t, if t == t0 then 1 else 0);
    if w.cap.staging[t0] != [] {
      var p := w.cap.staging[t0][0];
      assert p in w.cap.staging[t0] && SlotsMatch(w, t0, 1);
      CountAppend(w.cap.live, p, ByTenant(t));
      assert w.cap.staging[t0] == [p] + w.cap.staging[t0][1..];
      assert (w.drained[t0] + [p]) + w.cap.staging[t0][1..] == w.drained[t0] + w.cap.staging[t0];
    }
  }

  lemma ReleaseKeepsQueues(w: System, t0: nat, up: bool, q: QueueName)
    requires EndedInv(w, t0)
    ensures QueueInv(AfterRelease(w, t0, up), q)
  {
    hide ResolveQueueName, GetQueueName, AddStaged, DropStaged, AddPending, DropPending, Count, Of, SlotsMatch;
    assert QueueInv(w, q);
    if w.cap.staging[t0] != [] {
      var p := w.cap.staging[t0][0];
      var rest := w.cap.staging[t0][1..];
      assert QueueInv(w, p.queueName);
      HeadCounts(w.cap.staging, t0, q);
      HeadCounts(w.cap.staging, t0, p.queueName);
      DrainTotals(w.cap.totals, p.queueName, q);
      CountAppend(w.cap.live, p, ByQueue(q));
    }
  }

  lemma HeadCounts(staging: seq<seq<Payload>>, t: nat, q: QueueName)
    requires t < |staging| && staging[t] != []
    ensures var shorter := staging[t := staging[t][1..]];
      StagedFor(shorter, q, |shorter|) + One(staging[t][0], ByQueue(q)) == StagedFor(staging, q, |staging|)
  {
    StagedForUpdate(staging, q, |staging|, t, staging[t][1..]);
  }

  lemma ReleaseKeepsInv(w: System, t0: nat, up: bool)
    requires EndedInv(w, t0)
    ensures Inv(AfterRelease(w, t0, up))
  {
    hide ResolveQueueName, GetQueueName;
    var w' := AfterRelease(w, t0, up);
    forall t | 0 <= t < |w.cap.inflight| ensures TenantInv(w', t) { ReleaseKeepsTenants(w, t0, up, t); }
    forall q ensures QueueInv(w', q) { ReleaseKeepsQueues(w, t0, up, q); }
    if w.cap.staging[t0] != [] {
      var p := w.cap.staging[t0][0];
      assert p in w.cap.staging[t0];
      if Enqueue(w.cap.live, p, up).Ok? { EnqueuedIsRoutable(w.cap.live, p, up); }
    }
  }

  lemma OpKeepsInv(w: System, op: Op)
    requires Inv(w) && Allowed(w, op)
    ensures Inv(Apply(w, op))
  {
    hide ResolveQueueName, GetQueueName;
    match op
    case SubmitOp(p, up) => SubmitKeepsInv(w, p, up);
    case CompleteOp(i, up) =>
      FinishEnds(w, i, false);
      ReleaseKeepsInv(Finish(w, i, false), w.cap.live[i].tenant, up);
    case FailOp(i, up) =>
      FinishEnds(w, i, true);
      ReleaseKeepsInv(Finish(w, i, true), w.cap.live[i].tenant, up);
  }

  // ---------- over whole histories ----------

  predicate Permitted(w: System, ops: seq<Op>)
    decreases |ops|
  {
    ops == [] || (Allowed(w, ops[0]) && Permitted(Apply(w, ops[0]), ops[1..]))
  }

  function ApplyAll(w: System, ops: seq<Op>): System
    requires Permitted(w, ops)
    decreases |ops|
  {
    if ops == [] then w else ApplyAll(Apply(w, ops[0]), ops[1..])
  }

  lemma {:induction false} HistoryKeepsInv(w: System, ops: seq<Op>)
    requires Inv(w) && Permitted(w, ops)
    decreases |ops|
    ensures Inv(ApplyAll(w, ops))
  {
    hide ResolveQueueName, GetQueueName;
    if ops != [] {
      OpKeepsInv(w, ops[0]);
      HistoryKeepsInv(Apply(w, ops[0]), ops[1..]);
    }
  }

  /**
   * Exact slots: after any history a tenant's counter is the number of its admitted unfinished jobs plus
   * its direct submissions whose enqueue threw, and never more than the cap.
   */
  lemma {:induction false} SlotsAreExact(tenants: nat, ops: seq<Op>, t: nat)
    requires Permitted(Start(tenants), ops) && t < tenants
    ensures var w := ApplyAll(Start(tenants), ops);
      && t < |w.cap.inflight|
      && w.cap.inflight[t] == Count(w.cap.live, ByTenant(t)) + Count(w.lost, ByTenant(t))
      && w.cap.inflight[t] <= MAX_CONCURRENT_PER_TENANT
  {
    hide ResolveQueueName, GetQueueName;
    StartInv(tenants);
    HistoryKeepsInv(Start(tenants), ops);
    SameTenants(Start(tenants), ops);
    assert TenantInv(ApplyAll(Start(tenants), ops), t);
  }

  lemma {:induction false} SameTenants(w: System, ops: seq<Op>)
    requires Permitted(w, ops) && Shaped(w)
    decreases |ops|
    ensures var w' := ApplyAll(w, ops); Shaped(w') && |w'.cap.inflight| == |w.cap.inflight|
  {
    hide ResolveQueueName, GetQueueName;
    if ops != [] {
      SameTenants(Apply(w, ops[0]), ops[1..]);
    }
  }

  /** The negative-counter reset is unreachable: whenever a live job ends, its tenant's counter is positive. */
  lemma ResetNeverFires(w: System, i: nat, failed: bool)
    requires Inv(w) && i < |w.cap.live|
    ensures var t := w.cap.live[i].tenant;
      t < |w.cap.inflight| && Finish(w, i, failed).cap.inflight[t] >= 1
  {
    var p := w.cap.live[i];
    assert p in w.cap.live;
    assert TenantInv(w, p.tenant);
    CountWithout(w.cap.live, i, ByTenant(p.tenant));
  }

  function TenantOf(w: System, op: Op): nat
    requires Allowed(w, op)
  {
    match op
    case SubmitOp(p, _) => p.tenant
    case CompleteOp(i, _) => w.cap.live[i].tenant
    case FailOp(i, _) => w.cap.live[i].tenant
  }

  /** The payloads of one tenant, in order. */
  function OfTenant(s: seq<Payload>, t: nat): (mine: seq<Payload>)
    ensures |mine| == Count(s, ByTenant(t))
  {
    if s == [] then [] else IfOf(s[0], t) + OfTenant(s[1..], t)
  }

  function IfOf(p: Payload, t: nat): seq<Payload> {
    if p.tenant == t then [p] else []
  }

  lemma OfTenantUnfolds(s: seq<Payload>, t: nat)
    requires s != []
    ensures OfTenant(s, t) == IfOf(s[0], t) + OfTenant(s[1..], t)
  {
  }

  lemma {:induction false} OfTenantConcat(a: seq<Payload>, b: seq<Payload>, t: nat)
    ensures OfTenant(a + b, t) == OfTenant(a, t) + OfTenant(b, t)
    decreases |a|
  {
    hide Count, IfOf;
    if a == [] {
      assert a + b == b;
    } else {
      OfTenantUnfolds(a, t);
      OfTenantUnfolds(a + b, t);
      assert (a + b)[1..] == a[1..] + b;
      hide OfTenant;
      OfTenantConcat(a[1..], b, t);
    }
  }

  lemma OfTenantAppend(a: seq<Payload>, p: Payload, t: nat)
    ensures OfTenant(a + [p], t) == OfTenant(a, t) + IfOf(p, t)
  {
    OfTenantConcat(a, [p], t);
  }

  lemma OfTenantWithout(s: seq<Payload>, i: nat, t: nat)
    requires i < |s| && s[i].tenant != t
    ensures OfTenant(Without(s, i), t) == OfTenant(s, t)
  {
    assert s == s[..i] + [s[i]] + s[i + 1..];
    OfTenantConcat(s[..i] + [s[i]], s[i + 1..], t);
    OfTenantAppend(s[..i], s[i], t);
    OfTenantConcat(s[..i], s[i + 1..], t);
  }

  /** What belongs to tenant t. */
  datatype Share = Share(inflight: int, staging: seq<Payload>, live: seq<Payload>, lost: seq<Payload>,
                         staged: seq<Payload>, drained: seq<Payload>, failedDrains: nat)

  function ShareOf(w: System, t: nat): Share
    requires Shaped(w) && t < |w.cap.inflight|
  {
    Share(w.cap.inflight[t], w.cap.staging[t], OfTenant(w.cap.live, t), OfTenant(w.lost, t),
          w.staged[t], w.drained[t], w.failedDrains[t])
  }

  /** An operation of one tenant leaves everything of every other tenant as it was, order included. */
  lemma OthersUntouched(w: System, op: Op, t: nat)
    requires Inv(w) && Allowed(w, op) && t < |w.cap.inflight| && t != TenantOf(w, op)
    ensures Shaped(Apply(w, op)) && |Apply(w, op).cap.inflight| == |w.cap.inflight|
    ensures ShareOf(Apply(w, op), t) == ShareOf(w, t)
  {
    hide ResolveQueueName, GetQueueName, Count, OfTenant, AddSubmitted, AddStaged, DropStaged, AddPending, DropPending;
    match op
    case SubmitOp(p, up) =>
      OfTenantAppend(w.cap.live, p, t);
      OfTenantAppend(w.lost, p, t);
    case CompleteOp(i, up) => EndLeavesOthers(w, i, false, up, t);
    case FailOp(i, up) => EndLeavesOthers(w, i, true, up, t);
  }

  lemma EndLeavesOthers(w: System, i: nat, failed: bool, up: bool, t: nat)
    requires Inv(w) && i < |w.cap.live| && t < |w.cap.inflight| && t != w.cap.live[i].tenant < |w.cap.inflight|
    ensures var w' := AfterRelease(Finish(w, i, failed), w.cap.live[i].tenant, up);
      && Shaped(w') && |w'.cap.inflight| == |w.cap.inflight|
      && ShareOf(w', t) == ShareOf(w, t)
  {
    hide ResolveQueueName, GetQueueName, Count, OfTenant, AddStaged, DropStaged, AddPending, DropPending;
    OfTenantWithout(w.cap.live, i, t);
    var t0 := w.cap.live[i].tenant;
    assert TenantInv(w, t0);
    if w.cap.staging[t0] != [] {
      var p := w.cap.staging[t0][0];
      assert p in w.cap.staging[t0];
      OfTenantAppend(Without(w.cap.live, i), p, t);
    }
  }

  /** First in, first out: what was drained followed by what is still staged is what was staged, in order. */
  lemma StagingIsFifo(tenants: nat, ops: seq<Op>, t: nat)
    requires Permitted(Start(tenants), ops) && t < tenants
    ensures var w := ApplyAll(Start(tenants), ops);
      Shaped(w) && t < |w.staged| && w.drained[t] + w.cap.staging[t] == w.staged[t]
  {
    hide ResolveQueueName, GetQueueName;
    StartInv(tenants);
    HistoryKeepsInv(Start(tenants), ops);
    SameTenants(Start(tenants), ops);
    assert TenantInv(ApplyAll(Start(tenants), ops), t);
  }

  lemma {:induction false} SomeOfTenant(s: seq<Payload>, t: nat)
    requires Count(s, ByTenant(t)) > 0
    ensures exists i :: 0 <= i < |s| && s[i].tenant == t
  {
    if s[0].tenant != t {
      SomeOfTenant(s[1..], t);
      var i :| 0 <= i < |s[1..]| && s[1..][i].tenant == t;
      assert s[i + 1].tenant == t;
    }
  }

  /**
   * No stranded work: staged payloads of a tenant mean that its live jobs, its lost submissions and its failed
   * drains reach the cap together; so while the last two are fewer than that, a live job is left to drain them.
   */
  lemma NothingStranded(tenants: nat, ops: seq<Op>, t: nat)
    requires Permitted(Start(tenants), ops) && t < tenants
    ensures var w := ApplyAll(Start(tenants), ops);
      && Shaped(w) && t < |w.staged|
      && (w.cap.staging[t] != [] ==>
            Count(w.cap.live, ByTenant(t)) + Count(w.lost, ByTenant(t)) + w.failedDrains[t] >= MAX_CONCURRENT_PER_TENANT)
      && (w.cap.staging[t] != [] && Count(w.lost, ByTenant(t)) + w.failedDrains[t] < MAX_CONCURRENT_PER_TENANT ==>
            exists i :: 0 <= i < |w.cap.live| && w.cap.live[i].tenant == t)
  {
    hide ResolveQueueName, GetQueueName, Count;
    StartInv(tenants);
    HistoryKeepsInv(Start(tenants), ops);
    SameTenants(Start(tenants), ops);
    var w := ApplyAll(Start(tenants), ops);
    assert TenantInv(w, t);
    if Count(w.cap.live, ByTenant(t)) > 0 {
      SomeOfTenant(w.cap.live, t);
    }
  }

  /** While drains succeed, each ended job lowers in-flight plus staged by exactly one. */
  lemma EachReleaseShrinks(w: System, i: nat, failed: bool)
    requires Inv(w) && i < |w.cap.live|
    requires var t := w.cap.live[i].tenant;
      t < |w.cap.staging| && (w.cap.staging[t] != [] ==> Routable(w.cap.staging[t][0]))
    ensures var t := w.cap.live[i].tenant;
      var w' := Apply(w, if failed then FailOp(i, true) else CompleteOp(i, true));
      && Shaped(w') && t < |w'.cap.inflight|
      && w'.cap.inflight[t] + |w'.cap.staging[t]| == w.cap.inflight[t] + |w.cap.staging[t]| - 1
      && w'.cap.inflight[t] == if w.cap.staging[t] == [] then w.cap.inflight[t] - 1 else w.cap.inflight[t]
  {
    hide ResolveQueueName, GetQueueName;
    ResetNeverFires(w, i, failed);
  }

  // ---------- reconcile ----------

  datatype Checks = Checks(accounted: int, unknown: int, overcount: int, matches: bool)

  /** The arithmetic of the reconcile endpoint for one queue. */
  function Reconcile(c: Counters, visible: int, dlq: int): Checks {
    var accounted := c.staged + c.releasePending + visible + c.completed + c.failed + dlq;
    var delta := c.submitted - accounted;
    Checks(accounted, Max(0, delta), Max(0, -delta), delta == 0)
  }

  /** A queue's depths as the snapshot shows them. */
  datatype Snapshot = Snapshot(queue: QueueName, waiting: nat, prioritized: nat, delayed: nat, active: nat, dlq: nat)

  function Visible(q: Snapshot): nat {
    q.waiting + q.prioritized + q.delayed + q.active
  }

  class MetricsController {
    const collector: QueueReconcileCollector

    constructor (collector: QueueReconcileCollector)
      ensures this.collector == collector
    {
      this.collector := collector;
    }

    /** One entry for each queue of the snapshot and no other; each splits its gap into unknown or overcount. */
    method ReconcileQueues(snapshot: seq<Snapshot>) returns (result: map<QueueName, Checks>)
      requires forall i, j :: 0 <= i < j < |snapshot| ==> snapshot[i].queue != snapshot[j].queue
      ensures forall q :: q in result ==> exists i :: 0 <= i < |snapshot| && snapshot[i].queue == q
      ensures forall i :: 0 <= i < |snapshot| ==>
        && snapshot[i].queue in result
        && var checks, c := result[snapshot[i].queue], Of(collector.totals, snapshot[i].queue);
           && checks == Reconcile(c, Visible(snapshot[i]), snapshot[i].dlq)
           && checks.accounted + checks.unknown - checks.overcount == c.submitted
           && checks.accounted == c.staged + c.releasePending + c.completed + c.failed
                + snapshot[i].waiting + snapshot[i].prioritized + snapshot[i].delayed + snapshot[i].active + snapshot[i].dlq
           && (checks.unknown == 0 || checks.overcount == 0) && checks.unknown >= 0 && checks.overcount >= 0
           && (checks.matches <==> checks.unknown == 0 && checks.overcount == 0)
    {
      result := map[];
      for n := 0 to |snapshot|
        invariant forall q :: q in result ==> exists i :: 0 <= i < n && snapshot[i].queue == q
        invariant forall i :: 0 <= i < n ==>
          && snapshot[i].queue in result
          && result[snapshot[i].queue] ==
             Reconcile(Of(collector.totals, snapshot[i].queue), Visible(snapshot[i]), snapshot[i].dlq)
      {
        var q := snapshot[n];
        var c := Of(collector.totals, q.queue);
        var inflight := q.waiting + q.prioritized + q.delayed + q.active;
        var accounted := c.staged + c.releasePending + inflight + c.completed + c.failed + q.dlq;
        var delta := c.submitted - accounted;
        result := result[q.queue := Checks(accounted, Max(0, delta), Max(0, -delta), delta == 0)];
      }
    }
  }

  function Report(w: System, q: QueueName): Checks {
    Reconcile(Of(w.cap.totals, q), Count(w.cap.live, ByQueue(q)), Count(w.dlq, ByQueue(q)))
  }

  /** The report is what the endpoint shows for a snapshot of that system's queue. */
  lemma {:induction false} SnapshotReport(w: System, s: Snapshot)
    requires s.waiting + s.prioritized + s.delayed + s.active == Count(w.cap.live, ByQueue(s.queue))
    requires s.dlq == Count(w.dlq, ByQueue(s.queue))
    ensures Reconcile(Of(w.cap.totals, s.queue), Visible(s), s.dlq) == Report(w, s.queue)
  {
    hide Count, Of, Reconcile;
  }

  /**
   * The report is wrong by the dead-letter depth less the lost submissions: it matches exactly when the
   * two are equal, so with nothing lost it matches exactly while the dead-letter queue is empty.
   */
  lemma {:induction false} ReportMatchesIff(tenants: nat, ops: seq<Op>, q: QueueName)
    requires Permitted(Start(tenants), ops)
    ensures var w := ApplyAll(Start(tenants), ops);
      var dead, lost := Count(w.dlq, ByQueue(q)), Count(w.lost, ByQueue(q));
      && (Report(w, q).matches <==> dead == lost)
      && Report(w, q).overcount == Max(0, dead - lost)
      && Report(w, q).unknown == Max(0, lost - dead)
  {
    hide ResolveQueueName, GetQueueName;
    StartInv(tenants);
    HistoryKeepsInv(Start(tenants), ops);
    assert QueueInv(ApplyAll(Start(tenants), ops), q);
  }

  /** Counter conservation per queue, with `staged` exact over all tenants. */
  lemma CountersConserved(tenants: nat, ops: seq<Op>, q: QueueName)
    requires Permitted(Start(tenants), ops)
    ensures var w := ApplyAll(Start(tenants), ops);
      var c := Of(w.cap.totals, q);
      && c.staged == StagedFor(w.cap.staging, q, |w.cap.staging|)
      && c.submitted == c.staged + c.releasePending + Count(w.cap.live, ByQueue(q)) + c.completed + c.failed
                        + Count(w.lost, ByQueue(q))
      && c.failed == Count(w.dlq, ByQueue(q))
  {
    hide ResolveQueueName, GetQueueName;
    StartInv(tenants);
    HistoryKeepsInv(Start(tenants), ops);
    assert QueueInv(ApplyAll(Start(tenants), ops), q);
  }

  /** The floor at zero never hides anything: both floored counters are positive when a drain lowers them. */
  lemma FloorNeverFires(w: System, t: nat)
    requires Inv(w) && t < |w.cap.staging| && w.cap.staging[t] != []
    ensures var p := w.cap.staging[t][0];
      && Of(w.cap.totals, p.queueName).staged >= 1
      && Of(AddPending(DropStaged(w.cap.totals, p.queueName), p.queueName), p.queueName).releasePending >= 1
  {
    var p := w.cap.staging[t][0];
    assert QueueInv(w, p.queueName);
    StagedForUpdate(w.cap.staging, p.queueName, |w.cap.staging|, t, w.cap.staging[t][1..]);
  }
}
