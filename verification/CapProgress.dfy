/**
 * When staged work moves, when it cannot, and how long it takes, with whole operations: the exact conditions
 * under which a tenant is left with staged payloads and nothing running, and under which its list drains.
 */
module CapProgress {
  import opened Common
  import opened Workflows
  import opened Queues
  import opened TenantCap
  import opened CapAccounting

  function LiveCount(w: System, t: nat): nat { Count(w.cap.live, ByTenant(t)) }

  function LostCount(w: System, t: nat): nat { Count(w.lost, ByTenant(t)) }

  predicate IsTenant(w: System, t: nat) {
    Shaped(w) && t < |w.cap.inflight|
  }

  function OpUp(op: Op): bool {
    match op
    case SubmitOp(_, up) => up
    case CompleteOp(_, up) => up
    case FailOp(_, up) => up
  }

  predicate Ends(w: System, op: Op, t: nat) {
    !op.SubmitOp? && Allowed(w, op) && TenantOf(w, op) == t
  }

  // ---------- one operation ----------

  /** The drain after an end of tenant t succeeds. */
  predicate Drains(w: System, up: bool, t: nat)
    requires IsTenant(w, t)
  {
    w.cap.staging[t] != [] && up && Routable(w.cap.staging[t][0])
  }

  // What an end of tenant t does to t.
  lemma EndOwn(w: System, i: nat, failed: bool, up: bool)
    requires Inv(w) && i < |w.cap.live|
    ensures var t, w' := w.cap.live[i].tenant, AfterRelease(Finish(w, i, failed), w.cap.live[i].tenant, up);
      && IsTenant(w, t) && IsTenant(w', t) && w'.lost == w.lost && LiveCount(w, t) >= 1
      && (if Drains(w, up, t) then
            && w'.cap.staging[t] == w.cap.staging[t][1..] && w'.drained[t] == w.drained[t] + [w.cap.staging[t][0]]
            && LiveCount(w', t) == LiveCount(w, t) && w'.cap.inflight[t] == w.cap.inflight[t]
            && w'.failedDrains[t] == w.failedDrains[t]
          else
            && w'.cap.staging[t] == w.cap.staging[t] && w'.drained[t] == w.drained[t]
            && LiveCount(w', t) == LiveCount(w, t) - 1 && w'.cap.inflight[t] == w.cap.inflight[t] - 1
            && w'.failedDrains[t] == w.failedDrains[t] + if w.cap.staging[t] == [] then 0 else 1)
  {
    hide ResolveQueueName, GetQueueName, Count, AddStaged, DropStaged, AddPending, DropPending, AddCompleted, AddFailed;
    var p := w.cap.live[i];
    assert p in w.cap.live;
    var t := p.tenant;
    assert TenantInv(w, t);
    CountWithout(w.cap.live, i, ByTenant(t));
    if w.cap.staging[t] != [] {
      var head := w.cap.staging[t][0];
      assert head in w.cap.staging[t];
      RoutableIffEnqueued(w.cap.live, head, up);
      RoutableIffEnqueued(Without(w.cap.live, i), head, up);
      CountAppend(Without(w.cap.live, i), head, ByTenant(t));
    }
  }

  lemma RoutableIffEnqueued(live: seq<Payload>, p: Payload, up: bool)
    requires Resolved(p)
    ensures Enqueue(live, p, up).Ok? <==> up && Routable(p)
    ensures Routable(p) <==> p.jobType != "media-jobs"
  {
    TablesAgreeExceptOnce(p.jobType);
  }

  // What a submission of tenant t does to t.
  lemma SubmitOwn(w: System, p: Payload, up: bool)
    requires Inv(w) && Allowed(w, SubmitOp(p, up))
    ensures var t, w' := p.tenant, AfterSubmit(w, p, up);
      && IsTenant(w', t) && w'.drained[t] == w.drained[t] && w'.failedDrains[t] == w.failedDrains[t]
      && (if w.cap.inflight[t] >= MAX_CONCURRENT_PER_TENANT then
            w'.cap.staging[t] == w.cap.staging[t] + [p] && LiveCount(w', t) == LiveCount(w, t)
          else
            w'.cap.staging[t] == w.cap.staging[t] && LiveCount(w', t) >= LiveCount(w, t))
  {
    hide ResolveQueueName, GetQueueName, Count, AddSubmitted, AddStaged;
    CountAppend(w.cap.live, p, ByTenant(p.tenant));
  }

  /** An ended job's drain moves the list exactly when the queue is up and knows the type at its head. */
  lemma DrainMovesIff(w: System, op: Op, t: nat)
    requires Inv(w) && IsTenant(w, t) && Ends(w, op, t) && w.cap.staging[t] != []
    ensures IsTenant(Apply(w, op), t)
    ensures Apply(w, op).drained[t] != w.drained[t] <==> OpUp(op) && w.cap.staging[t][0].jobType != "media-jobs"
  {
    hide ResolveQueueName, GetQueueName, Count, AfterRelease, Finish, Inv;
    StagedResolve(w, t);
    RoutableIffEnqueued(w.cap.live, w.cap.staging[t][0], OpUp(op));
    match op
    case CompleteOp(i, up) => EndOwn(w, i, false, up);
    case FailOp(i, up) => EndOwn(w, i, true, up);
  }

  lemma StagedResolve(w: System, t: nat)
    requires Inv(w) && IsTenant(w, t)
    ensures forall p :: p in w.cap.staging[t] ==> Resolved(p)
  {
    assert TenantInv(w, t);
  }

  // ---------- work left with nothing running ----------

  predicate StrandedTenant(w: System, t: nat)
    requires IsTenant(w, t)
  {
    w.cap.staging[t] != [] && LiveCount(w, t) == 0
  }

  /** The operations after which a tenant has staged payloads and no live job. */
  predicate StrandsTenant(w: System, op: Op, t: nat)
    requires Allowed(w, op) && IsTenant(w, t)
  {
    TenantOf(w, op) == t &&
    if op.SubmitOp? then LostCount(w, t) >= MAX_CONCURRENT_PER_TENANT && LiveCount(w, t) == 0
    else w.cap.staging[t] != [] && LiveCount(w, t) == 1 && !Drains(w, OpUp(op), t)
  }

  /** A tenant is stranded exactly by a submission behind five lost slots, or by its last live job's failed drain. */
  lemma StrandsIff(w: System, op: Op, t: nat)
    requires Inv(w) && Allowed(w, op) && IsTenant(w, t) && !StrandedTenant(w, t)
    ensures IsTenant(Apply(w, op), t)
    ensures StrandedTenant(Apply(w, op), t) <==> StrandsTenant(w, op, t)
    ensures var w' := Apply(w, op);
      w'.cap.staging[t] != [] && Count(w'.cap.live, ByTenant(t)) == 0 <==>
        && TenantOf(w, op) == t
        && match op
           case SubmitOp(_, _) => Count(w.lost, ByTenant(t)) >= 5 && Count(w.cap.live, ByTenant(t)) == 0
           case CompleteOp(_, up) =>
             && w.cap.staging[t] != [] && Count(w.cap.live, ByTenant(t)) == 1
             && !(up && w.cap.staging[t][0].jobType != "media-jobs")
           case FailOp(_, up) =>
             && w.cap.staging[t] != [] && Count(w.cap.live, ByTenant(t)) == 1
             && !(up && w.cap.staging[t][0].jobType != "media-jobs")
  {
    hide ResolveQueueName, GetQueueName, Count, AfterRelease, AfterSubmit, Finish, OfTenant, Inv, Routable;
    DrainsIff(w, OpUp(op), t);
    hide Drains;
    if TenantOf(w, op) != t {
      OthersUntouched(w, op, t);
    } else {
      SlotsOf(w, t);
      match op
      case SubmitOp(p, up) => SubmitOwn(w, p, up);
      case CompleteOp(i, up) => EndOwn(w, i, false, up);
      case FailOp(i, up) => EndOwn(w, i, true, up);
    }
  }

  lemma DrainsIff(w: System, up: bool, t: nat)
    requires Inv(w) && IsTenant(w, t)
    ensures Drains(w, up, t) <==> w.cap.staging[t] != [] && up && w.cap.staging[t][0].jobType != "media-jobs"
  {
    hide ResolveQueueName, GetQueueName, Inv, Routable;
    StagedResolve(w, t);
    if w.cap.staging[t] != [] {
      RoutableIffEnqueued(w.cap.live, w.cap.staging[t][0], up);
    }
  }

  lemma SlotsOf(w: System, t: nat)
    requires Inv(w) && IsTenant(w, t)
    ensures w.cap.inflight[t] == LiveCount(w, t) + LostCount(w, t)
    ensures w.cap.staging[t] != [] ==> LiveCount(w, t) + LostCount(w, t) + w.failedDrains[t] >= MAX_CONCURRENT_PER_TENANT
  {
    assert TenantInv(w, t);
  }

  // ---------- the lockout, on whole operations ----------

  predicate Reached(w: System, ops: seq<Op>, w': System) {
    Permitted(w, ops) && ApplyAll(w, ops) == w'
  }

  lemma {:induction false} OneMore(w: System, ops: seq<Op>, w': System, op: Op)
    requires Reached(w, ops, w') && Allowed(w', op)
    ensures Reached(w, ops + [op], Apply(w', op))
    decreases |ops|
  {
    if ops == [] {
      assert [op][1..] == [];
    } else {
      assert (ops + [op])[1..] == ops[1..] + [op];
      OneMore(Apply(w, ops[0]), ops[1..], w', op);
    }
  }

  /** n slots of the only tenant are lost, and nothing else has happened. */
  predicate Leaked(w: System, n: nat) {
    && IsTenant(w, 0) && w.cap.inflight == [n] && w.cap.staging == [[]] && w.cap.live == []
    && LostCount(w, 0) == n
  }

  function MediaAlias(k: nat): Payload {
    Payload(SingleJob(k), "media-jobs", 0, MediaJobs, 3, NONE)
  }

  lemma LeakOne(w: System, n: nat)
    requires Leaked(w, n) && n < MAX_CONCURRENT_PER_TENANT
    ensures Allowed(w, SubmitOp(MediaAlias(n), true)) && Leaked(Apply(w, SubmitOp(MediaAlias(n), true)), n + 1)
  {
    hide GetQueueName, Count, AddSubmitted, AddStaged;
    var p := MediaAlias(n);
    assert Resolved(p);
    RoutableIffEnqueued(w.cap.live, p, true);
    CountAppend(w.lost, p, ByTenant(0));
    assert w.cap.inflight[0 := n + 1] == [n + 1];
  }

  lemma {:induction false} LeakAway(n: nat) returns (ops: seq<Op>, w: System)
    requires n <= MAX_CONCURRENT_PER_TENANT
    ensures Reached(Start(1), ops, w) && Leaked(w, n)
    ensures |ops| == n && forall k :: 0 <= k < n ==> ops[k] == SubmitOp(MediaAlias(k), true)
  {
    hide Reached, Leaked, Apply, Allowed;
    if n == 0 {
      ops, w := [], Start(1);
      StartLeaked();
    } else {
      var before: System;
      ops, before := LeakAway(n - 1);
      LeakOne(before, n - 1);
      OneMore(Start(1), ops, before, SubmitOp(MediaAlias(n - 1), true));
      ops, w := ops + [SubmitOp(MediaAlias(n - 1), true)], Apply(before, SubmitOp(MediaAlias(n - 1), true));
    }
  }

  lemma StartLeaked()
    ensures Reached(Start(1), [], Start(1)) && Leaked(Start(1), 0)
  {
  }

  /** With every queue up, five jobs submitted as "media-jobs" lock a tenant out: its next job has nothing to wait for. */
  lemma LockoutHistory(p: Payload) returns (ops: seq<Op>)
    requires p.tenant == 0 && Resolved(p)
    ensures Permitted(Start(1), ops) && |ops| == 6 && forall k :: 0 <= k < 6 ==> OpUp(ops[k])
    ensures var w := ApplyAll(Start(1), ops); w.cap.staging == [[p]] && w.cap.live == []
  {
    hide GetQueueName, Count, AddSubmitted, AddStaged, Permitted, ApplyAll;
    var w: System;
    ops, w := LeakAway(MAX_CONCURRENT_PER_TENANT);
    OneMore(Start(1), ops, w, SubmitOp(p, true));
    assert [[]][0 := [p]] == [[p]] && [] + [p] == [p];
    ops := ops + [SubmitOp(p, true)];
  }

  // ---------- a head that no queue knows ----------

  // No operation gets past a head whose type no queue knows.
  lemma HeadStays(w: System, op: Op, t: nat)
    requires Inv(w) && Allowed(w, op) && IsTenant(w, t) && w.cap.staging[t] != [] && !Routable(w.cap.staging[t][0])
    ensures var w' := Apply(w, op);
      && IsTenant(w', t) && w'.cap.staging[t] != [] && w'.cap.staging[t][0] == w.cap.staging[t][0]
      && w'.drained[t] == w.drained[t]
  {
    hide ResolveQueueName, GetQueueName, Count, AfterRelease, AfterSubmit, Finish, OfTenant, Inv, Routable;
    if TenantOf(w, op) != t {
      OthersUntouched(w, op, t);
    } else {
      match op
      case SubmitOp(p, up) => SubmitOwn(w, p, up);
      case CompleteOp(i, up) => EndOwn(w, i, false, up);
      case FailOp(i, up) => EndOwn(w, i, true, up);
    }
  }

  lemma {:induction false} HeadStaysForGood(w: System, ops: seq<Op>, t: nat)
    requires Inv(w) && Permitted(w, ops) && IsTenant(w, t)
    requires w.cap.staging[t] != [] && !Routable(w.cap.staging[t][0])
    ensures IsTenant(ApplyAll(w, ops), t) && ApplyAll(w, ops).drained[t] == w.drained[t]
    decreases |ops|
  {
    hide ResolveQueueName, GetQueueName, Apply, Inv, Routable, Allowed;
    if ops != [] {
      HeadStays(w, ops[0], t);
      OpKeepsInv(w, ops[0]);
      HeadStaysForGood(Apply(w, ops[0]), ops[1..], t);
    }
  }

  ghost predicate MovesOn(w: System, ops: seq<Op>, t: nat)
    requires IsTenant(w, t)
  {
    Permitted(w, ops) && IsTenant(ApplyAll(w, ops), t) && ApplyAll(w, ops).drained[t] != w.drained[t]
  }

  /** While a tenant has a live job, some history drains its list exactly when a queue knows the type at the head. */
  lemma {:induction false} ListMovesIff(w: System, i: nat)
    requires Inv(w) && i < |w.cap.live| && IsTenant(w, w.cap.live[i].tenant) && w.cap.staging[w.cap.live[i].tenant] != []
    ensures var t := w.cap.live[i].tenant;
      (exists ops: seq<Op> :: MovesOn(w, ops, t)) <==> w.cap.staging[t][0].jobType != "media-jobs"
  {
    hide ResolveQueueName, GetQueueName, Apply, Inv, Routable, Enqueue;
    var t := w.cap.live[i].tenant;
    var head := w.cap.staging[t][0];
    StagedResolve(w, t);
    RoutableIffEnqueued(w.cap.live, head, true);
    var op := CompleteOp(i, true);
    DrainMovesIff(w, op, t);
    OneMore(w, [], w, op);
    assert [] + [op] == [op];
    if head.jobType != "media-jobs" {
      assert MovesOn(w, [op], t);
    } else if ops: seq<Op> :| MovesOn(w, ops, t) {
      HeadStaysForGood(w, ops, t);
      assert false;
    }
  }

  // ---------- draining to the end ----------

  predicate AllEnd(w: System, ops: seq<Op>, t: nat)
    requires Permitted(w, ops)
    decreases |ops|
  {
    ops == [] || (Ends(w, ops[0], t) && OpUp(ops[0]) && AllEnd(Apply(w, ops[0]), ops[1..], t))
  }

  predicate AllRoutable(s: seq<Payload>) {
    forall p :: p in s ==> Routable(p)
  }

  function Waiting(w: System, t: nat): int
    requires IsTenant(w, t)
  {
    w.cap.inflight[t] + |w.cap.staging[t]|
  }

  lemma EndShrinks(w: System, op: Op, t: nat)
    requires Inv(w) && IsTenant(w, t) && Ends(w, op, t) && OpUp(op) && AllRoutable(w.cap.staging[t])
    ensures var w' := Apply(w, op);
      && IsTenant(w', t) && AllRoutable(w'.cap.staging[t]) && Waiting(w', t) == Waiting(w, t) - 1
      && LiveCount(w', t) + |w'.cap.staging[t]| == LiveCount(w, t) + |w.cap.staging[t]| - 1
      && w'.lost == w.lost && w'.failedDrains[t] == w.failedDrains[t]
  {
    hide ResolveQueueName, GetQueueName, Count, AfterRelease, Finish, Inv, Routable;
    match op
    case CompleteOp(i, up) => EndOwn(w, i, false, up);
    case FailOp(i, up) => EndOwn(w, i, true, up);
  }

  /** While drains succeed, n ended jobs of a tenant lower its in-flight plus staged by exactly n. */
  lemma {:induction false} EndsShrink(w: System, ops: seq<Op>, t: nat)
    requires Inv(w) && IsTenant(w, t) && Permitted(w, ops) && AllEnd(w, ops, t)
    requires forall p :: p in w.cap.staging[t] ==> p.jobType != "media-jobs"
    ensures IsTenant(ApplyAll(w, ops), t)
    ensures var w' := ApplyAll(w, ops);
      w'.cap.inflight[t] + |w'.cap.staging[t]| == w.cap.inflight[t] + |w.cap.staging[t]| - |ops|
  {
    hide Apply, Inv, AllRoutable, Allowed, Routable;
    StagedRoutable(w, t);
    RoutableEndsShrink(w, ops, t);
  }

  lemma StagedRoutable(w: System, t: nat)
    requires Inv(w) && IsTenant(w, t) && forall p :: p in w.cap.staging[t] ==> p.jobType != "media-jobs"
    ensures AllRoutable(w.cap.staging[t])
  {
    hide ResolveQueueName, GetQueueName, Inv, Routable;
    StagedResolve(w, t);
    forall p | p in w.cap.staging[t] ensures Routable(p) {
      RoutableIffEnqueued(w.cap.live, p, true);
    }
  }

  lemma {:induction false} RoutableEndsShrink(w: System, ops: seq<Op>, t: nat)
    requires Inv(w) && IsTenant(w, t) && Permitted(w, ops) && AllEnd(w, ops, t) && AllRoutable(w.cap.staging[t])
    ensures IsTenant(ApplyAll(w, ops), t) && Waiting(ApplyAll(w, ops), t) == Waiting(w, t) - |ops|
    decreases |ops|
  {
    hide Apply, Inv, AllRoutable, Allowed, Waiting;
    if ops != [] {
      EndShrinks(w, ops[0], t);
      OpKeepsInv(w, ops[0]);
      RoutableEndsShrink(Apply(w, ops[0]), ops[1..], t);
    }
  }

  predicate Flowing(w: System, t: nat)
    requires IsTenant(w, t)
  {
    AllRoutable(w.cap.staging[t]) && LostCount(w, t) + w.failedDrains[t] < MAX_CONCURRENT_PER_TENANT
  }

  /** While fewer slots are lost to failures than the cap, work that is left always has a live job to end. */
  lemma LiveWhileWork(w: System, t: nat) returns (i: nat)
    requires Inv(w) && IsTenant(w, t) && LostCount(w, t) + w.failedDrains[t] < MAX_CONCURRENT_PER_TENANT
    requires LiveCount(w, t) + |w.cap.staging[t]| > 0
    ensures i < |w.cap.live| && Ends(w, CompleteOp(i, true), t)
  {
    SlotsOf(w, t);
    SomeOfTenant(w.cap.live, t);
    i :| 0 <= i < |w.cap.live| && w.cap.live[i].tenant == t;
  }

  /**
   * So ends go on until nothing is left: after as many as there are live and staged payloads, the list is empty,
   * no job is live, and the counter holds the lost slots only, which is zero if none was lost.
   */
  lemma {:induction false} DrainsToZero(w: System, t: nat) returns (ops: seq<Op>)
    requires Inv(w) && IsTenant(w, t) && Count(w.lost, ByTenant(t)) + w.failedDrains[t] < 5
    requires forall p :: p in w.cap.staging[t] ==> p.jobType != "media-jobs"
    ensures Permitted(w, ops) && AllEnd(w, ops, t)
    ensures |ops| == Count(w.cap.live, ByTenant(t)) + |w.cap.staging[t]|
    ensures var w' := ApplyAll(w, ops);
      && IsTenant(w', t) && w'.cap.staging[t] == [] && Count(w'.cap.live, ByTenant(t)) == 0
      && w'.cap.inflight[t] == Count(w.lost, ByTenant(t))
  {
    hide Apply, Inv, AllRoutable, Allowed, Count, Routable;
    StagedRoutable(w, t);
    ops := FlowingToZero(w, t);
  }

  lemma {:induction false} FlowingToZero(w: System, t: nat) returns (ops: seq<Op>)
    requires Inv(w) && IsTenant(w, t) && Flowing(w, t)
    ensures Permitted(w, ops) && AllEnd(w, ops, t) && |ops| == LiveCount(w, t) + |w.cap.staging[t]|
    ensures var w' := ApplyAll(w, ops);
      IsTenant(w', t) && w'.cap.staging[t] == [] && LiveCount(w', t) == 0 && w'.cap.inflight[t] == LostCount(w, t)
    decreases LiveCount(w, t) + |w.cap.staging[t]|
  {
    hide Apply, Inv, AllRoutable, Allowed, Count;
    if LiveCount(w, t) + |w.cap.staging[t]| == 0 {
      ops := [];
      SlotsOf(w, t);
    } else {
      var i := LiveWhileWork(w, t);
      var op := CompleteOp(i, true);
      EndShrinks(w, op, t);
      OpKeepsInv(w, op);
      var rest := FlowingToZero(Apply(w, op), t);
      ops := [op] + rest;
      assert ops[1..] == rest;
    }
  }
}
