/** The autoscaler and the worker registry it drives. */
module AutoScaling {
  import opened Common
  import opened Queues

  const MIN_WORKERS: nat := 1
  const MAX_WORKERS: nat := 50
  const MIN_COOLDOWN_MS: nat := 2000

  /** BullMQ's counts for one queue. */
  datatype Counts = Counts(waiting: nat, active: nat, delayed: nat, prioritized: nat)

  function Backlog(c: Counts): nat {
    c.waiting + c.delayed + c.prioritized
  }

  function Utilization(active: nat, workers: nat): real {
    if workers > 0 then active as real / workers as real else 0.0
  }

  // What the two thresholds on it mean in whole numbers.
  predicate Saturated(active: nat, workers: nat) {
    0 < workers <= active
  }

  predicate Slack(active: nat, workers: nat) {
    workers == 0 || 10 * active < 3 * workers
  }

  lemma Thresholds(active: nat, workers: nat)
    ensures Utilization(active, workers) >= 1.0 <==> Saturated(active, workers)
    ensures Utilization(active, workers) < 0.3 <==> Slack(active, workers)
  {
    if workers > 0 {
      RatioThreshold(active as real, workers as real, 1.0);
      RatioThreshold(active as real, workers as real, 0.3);
    }
  }

  lemma RatioThreshold(a: real, n: real, t: real)
    requires n > 0.0
    ensures a / n >= t <==> a >= t * n
  {
    var u := a / n;
    assert u * n == a;
    if u >= t {
      assert u * n >= t * n;
    } else {
      assert u * n < t * n;
    }
  }

  /** One queue's workers, oldest first, and the time of its last scale event. */
  datatype Pool = Pool(workers: seq<nat>, lastScaleAt: int)

  /** One tick's observation; `spawned` is the worker a spawn would create. */
  datatype Observation = Observation(counts: Counts, now: int, spawned: nat)

  predicate CooledDown(p: Pool, o: Observation) {
    o.now - p.lastScaleAt >= MIN_COOLDOWN_MS
  }

  predicate ScalesUp(p: Pool, o: Observation) {
    && CooledDown(p, o)
    && Saturated(o.counts.active, |p.workers|) && Backlog(o.counts) > 0 && |p.workers| < MAX_WORKERS
  }

  predicate ScalesDown(p: Pool, o: Observation) {
    && CooledDown(p, o) && !ScalesUp(p, o)
    && Slack(o.counts.active, |p.workers|) && Backlog(o.counts) == 0 && o.counts.active == 0
    && |p.workers| > MIN_WORKERS
  }

  predicate Scales(p: Pool, o: Observation) {
    ScalesUp(p, o) || ScalesDown(p, o)
  }

  /** evaluateQueue on one queue; without a registered processor a spawn only restarts the cooldown. */
  function Tick(p: Pool, registered: bool, o: Observation): Pool {
    if ScalesUp(p, o) then Pool(if registered then p.workers + [o.spawned] else p.workers, o.now)
    else if ScalesDown(p, o) then Pool(p.workers[..|p.workers| - 1], o.now)
    else p
  }

  ghost predicate Ticked(p: Pool, p': Pool, registered: bool, counts: Counts, now: int) {
    exists id: nat :: p' == Tick(p, registered, Observation(counts, now, id))
  }

  /**
   * What a tick does, in the queue's own numbers: it adds one worker exactly when every worker is busy, jobs are
   * waiting, and there are fewer than fifty; it removes one exactly when there is nothing to do and more than one.
   */
  lemma TickIff(p: Pool, registered: bool, o: Observation)
    ensures var n, c, t := |p.workers|, o.counts, Tick(p, registered, o);
      var cooled := o.now - p.lastScaleAt >= 2000;
      var grows := cooled && 0 < n <= c.active && c.waiting + c.delayed + c.prioritized > 0 && n < 50;
      var shrinks := cooled && c.active == 0 && c.waiting + c.delayed + c.prioritized == 0 && n > 1;
      && (|t.workers| > n <==> grows && registered)
      && (|t.workers| < n <==> shrinks)
      && (grows && registered ==> t.workers == p.workers + [o.spawned])
      && (shrinks ==> t.workers == p.workers[..n - 1])
      && (!(grows && registered) && !shrinks ==> t.workers == p.workers)
      && t.lastScaleAt == if grows || shrinks then o.now else p.lastScaleAt
  {
  }

  // ---------- over any run of ticks ----------

  function Ticks(p: Pool, registered: bool, os: seq<Observation>): Pool
    decreases |os|
  {
    if os == [] then p else Ticks(Tick(p, registered, os[0]), registered, os[1..])
  }

  /** The times of the scale events of a run. */
  function Events(p: Pool, registered: bool, os: seq<Observation>): seq<int>
    decreases |os|
  {
    if os == [] then []
    else (if Scales(p, os[0]) then [os[0].now] else []) + Events(Tick(p, registered, os[0]), registered, os[1..])
  }

  predicate InBounds(p: Pool) {
    MIN_WORKERS <= |p.workers| <= MAX_WORKERS
  }

  lemma {:induction false} PoolStaysInBounds(p: Pool, registered: bool, os: seq<Observation>)
    requires InBounds(p)
    ensures InBounds(Ticks(p, registered, os)) && 1 <= |Ticks(p, registered, os).workers| <= 50
    ensures Ticks(p, registered, os).workers[0] == p.workers[0]
    decreases |os|
  {
    if os != [] {
      PoolStaysInBounds(Tick(p, registered, os[0]), registered, os[1..]);
    }
  }

  lemma {:induction false} EmptyPoolStaysEmpty(p: Pool, registered: bool, os: seq<Observation>)
    requires p.workers == []
    ensures Ticks(p, registered, os) == p
    decreases |os|
  {
    if os != [] {
      EmptyPoolStaysEmpty(p, registered, os[1..]);
    }
  }

  /**
   * A pool within the ceiling has a worker after a run exactly when it had one before: the base worker is
   * never terminated, and a queue that lost all its workers is never given one.
   */
  lemma {:induction false} StaysStaffedIff(p: Pool, registered: bool, os: seq<Observation>)
    requires |p.workers| <= MAX_WORKERS
    ensures InBounds(Ticks(p, registered, os)) <==> p.workers != []
  {
    if p.workers == [] {
      EmptyPoolStaysEmpty(p, registered, os);
    } else {
      PoolStaysInBounds(p, registered, os);
    }
  }

  lemma ScaleEvent(p: Pool, registered: bool, o: Observation)
    requires Scales(p, o)
    ensures CooledDown(p, o) && Tick(p, registered, o).lastScaleAt == o.now
  {
  }

  /** Scale events of a queue, including the last one before the run, are at least the cooldown apart. */
  lemma {:induction false} EventsRespectCooldown(p: Pool, registered: bool, os: seq<Observation>)
    ensures var es := Events(p, registered, os);
      && (es != [] ==> es[0] - p.lastScaleAt >= MIN_COOLDOWN_MS)
      && (forall i, j :: 0 <= i < j < |es| ==> es[j] - es[i] >= 2000)
      && Ticks(p, registered, os).lastScaleAt == if es == [] then p.lastScaleAt else es[|es| - 1]
    decreases |os|
  {
    hide ScalesUp, ScalesDown;
    if os != [] {
      var o := os[0];
      if Scales(p, o) {
        ScaleEvent(p, registered, o);
      }
      EventsRespectCooldown(Tick(p, registered, os[0]), registered, os[1..]);
    }
  }

  lemma IdleDecision(p: Pool, o: Observation)
    requires o.counts.active == 0 && o.counts.waiting + o.counts.delayed + o.counts.prioritized == 0
    ensures !ScalesUp(p, o) && (ScalesDown(p, o) <==> CooledDown(p, o) && |p.workers| > MIN_WORKERS)
  {
  }

  /** While a queue is idle, every scale event removes exactly one worker, and the last stays. */
  lemma {:induction false} IdleEventsShrink(p: Pool, registered: bool, os: seq<Observation>)
    requires InBounds(p)
    requires forall i :: 0 <= i < |os| ==>
      var c := os[i].counts; c.active == 0 && c.waiting + c.delayed + c.prioritized == 0
    ensures var end := Ticks(p, registered, os);
      && |Events(p, registered, os)| == |p.workers| - |end.workers|
      && end.workers == p.workers[..|end.workers|]
    decreases |os|
  {
    if os != [] {
      IdleDecision(p, os[0]);
      IdleEventsShrink(Tick(p, registered, os[0]), registered, os[1..]);
    }
  }

  lemma SpacedTail(os: seq<Observation>)
    requires os != [] && forall i, j :: 0 <= i < j < |os| ==> os[j].now - os[i].now >= 2000
    ensures var rest := os[1..];
      && (rest != [] ==> rest[0].now - os[0].now >= 2000)
      && forall i, j :: 0 <= i < j < |rest| ==> rest[j].now - rest[i].now >= 2000
  {
    var rest := os[1..];
    assert forall i :: 0 <= i < |rest| ==> rest[i] == os[i + 1];
  }

  /** With ticks a cooldown apart, an idle queue is down to its base worker after count - 1 ticks, not earlier. */
  lemma {:induction false} IdleReachesBase(p: Pool, registered: bool, os: seq<Observation>, last: int)
    requires 0 < |p.workers| <= 50 && p.lastScaleAt <= last
    requires (os != [] ==> os[0].now - last >= 2000) && forall i, j :: 0 <= i < j < |os| ==> os[j].now - os[i].now >= 2000
    requires forall i :: 0 <= i < |os| ==>
      var c := os[i].counts; c.active == 0 && c.waiting + c.delayed + c.prioritized == 0
    ensures |Ticks(p, registered, os).workers| == if |p.workers| > |os| then |p.workers| - |os| else 1
    decreases |os|
  {
    hide Tick;
    if os != [] {
      var o := os[0];
      SpacedTail(os);
      TickIff(p, registered, o);
      assert forall i :: 0 <= i < |os[1..]| ==> os[1..][i] == os[i + 1];
      IdleReachesBase(Tick(p, registered, o), registered, os[1..], o.now);
    }
  }

  /** n ticks a cooldown apart, each finding all workers busy and jobs waiting, take k workers to min(50, k + n). */
  lemma {:induction false} PressureReachesMax(p: Pool, os: seq<Observation>, last: int)
    requires 0 < |p.workers| <= 50 && p.lastScaleAt <= last
    requires (os != [] ==> os[0].now - last >= 2000) && forall i, j :: 0 <= i < j < |os| ==> os[j].now - os[i].now >= 2000
    requires forall i :: 0 <= i < |os| ==>
      var c := os[i].counts;
      && c.waiting + c.delayed + c.prioritized > 0
      && (|p.workers| + i < 50 ==> c.active >= |p.workers| + i)
    ensures |Ticks(p, true, os).workers| == if |p.workers| + |os| < 50 then |p.workers| + |os| else 50
    decreases |os|
  {
    hide Tick;
    if os != [] {
      var o := os[0];
      SpacedTail(os);
      TickIff(p, true, o);
      var next := Tick(p, true, o);
      forall i | 0 <= i < |os[1..]|
        ensures var c := os[1..][i].counts;
          && c.waiting + c.delayed + c.prioritized > 0
          && (|next.workers| + i < 50 ==> c.active >= |next.workers| + i)
      {
        assert os[1..][i] == os[i + 1];
        assert |next.workers| <= |p.workers| + 1;
      }
      PressureReachesMax(next, os[1..], o.now);
    }
  }

  // ---------- the services ----------

  class WorkerRegistry {
    var workers: map<QueueName, seq<nat>>
    var processors: set<QueueName>
    var created: nat

    constructor ()
      ensures workers == map[] && processors == {} && created == 0
    {
      workers, processors, created := map[], {}, 0;
    }

    function WorkersOf(q: QueueName): seq<nat>
      reads this
    {
      if q in workers then workers[q] else []
    }

    function GetWorkerCount(q: QueueName): nat
      reads this
    {
      |WorkersOf(q)|
    }

    method RegisterProcessor(q: QueueName)
      modifies this
      ensures processors == old(processors) + {q} && workers == old(workers) && created == old(created)
    {
      processors := processors + {q};
    }

    method RegisterExistingWorker(q: QueueName)
      modifies this
      ensures workers == old(workers)[q := old(WorkersOf(q)) + [old(created)]]
      ensures created == old(created) + 1 && processors == old(processors)
    {
      workers := workers[q := WorkersOf(q) + [created]];
      created := created + 1;
    }

    method SpawnWorker(q: QueueName)
      modifies this
      ensures processors == old(processors)
      ensures q !in processors ==> workers == old(workers) && created == old(created)
      ensures q in processors ==>
        workers == old(workers)[q := old(WorkersOf(q)) + [old(created)]] && created == old(created) + 1
    {
      if q !in processors {
        return;
      }
      var existing := WorkersOf(q);
      existing := existing + [created];
      workers := workers[q := existing];
      created := created + 1;
    }

    method TerminateWorker(q: QueueName)
      modifies this
      ensures processors == old(processors) && created == old(created)
      ensures old(WorkersOf(q)) == [] ==> workers == old(workers)
      ensures old(WorkersOf(q)) != [] ==>
        workers == old(workers)[q := old(WorkersOf(q))[..|old(WorkersOf(q))| - 1]]
    {
      var list := WorkersOf(q);
      if |list| == 0 {
        return;
      }
      workers := workers[q := list[..|list| - 1]];
    }
  }

  class AutoScaler {
    const registry: WorkerRegistry
    var lastScaleAt: map<QueueName, int>

    constructor (registry: WorkerRegistry)
      ensures this.registry == registry && lastScaleAt == map[]
    {
      this.registry := registry;
      lastScaleAt := map[];
    }

    function PoolOf(q: QueueName): Pool
      reads this, registry
    {
      Pool(registry.WorkersOf(q), if q in lastScaleAt then lastScaleAt[q] else 0)
    }

    /** One queue's part of a tick; no other queue's pool changes. */
    method EvaluateQueue(q: QueueName, counts: Counts, now: int)
      modifies this, registry
      ensures registry.processors == old(registry.processors)
      ensures PoolOf(q) == Tick(old(PoolOf(q)), q in registry.processors, Observation(counts, now, old(registry.created)))
      ensures forall other :: other != q ==> PoolOf(other) == old(PoolOf(other))
    {
      var workers := registry.GetWorkerCount(q);
      var backlog := counts.waiting + counts.delayed + counts.prioritized;
      Thresholds(counts.active, workers);
      var utilization := if workers > 0 then counts.active as real / workers as real else 0.0;
      var last := if q in lastScaleAt then lastScaleAt[q] else 0;
      if now - last < MIN_COOLDOWN_MS {
        return;
      }
      if utilization >= 1.0 && backlog > 0 && workers < MAX_WORKERS {
        registry.SpawnWorker(q);
        lastScaleAt := lastScaleAt[q := now];
        return;
      }
      if utilization < 0.3 && backlog == 0 && counts.active == 0 && workers > MIN_WORKERS {
        ScaleDown(q, workers);
        lastScaleAt := lastScaleAt[q := now];
      }
    }

    method ScaleDown(q: QueueName, current: nat)
      requires current == registry.GetWorkerCount(q)
      modifies registry
      ensures registry.processors == old(registry.processors) && registry.created == old(registry.created)
      ensures registry.workers == if current > MIN_WORKERS
        then old(registry.workers)[q := old(registry.WorkersOf(q))[..current - 1]] else old(registry.workers)
    {
      var next := Max(MIN_WORKERS, current - 1);
      if next == current {
        return;
      }
      registry.TerminateWorker(q);
    }

    /** A whole tick visits every queue once, each on its own counts. */
    method TickQueues(queues: seq<QueueName>, counts: map<QueueName, Counts>, now: int)
      requires forall i, j :: 0 <= i < j < |queues| ==> queues[i] != queues[j]
      requires forall q :: q in queues ==> q in counts
      modifies this, registry
      ensures registry.processors == old(registry.processors)
      ensures forall q :: q in queues ==>
        Ticked(old(PoolOf(q)), PoolOf(q), q in registry.processors, counts[q], now)
      ensures forall q :: q !in queues ==> PoolOf(q) == old(PoolOf(q))
    {
      for i := 0 to |queues|
        invariant registry.processors == old(registry.processors)
        invariant forall k :: 0 <= k < i ==>
          Ticked(old(PoolOf(queues[k])), PoolOf(queues[k]), queues[k] in registry.processors, counts[queues[k]], now)
        invariant forall q :: q !in queues[..i] ==> PoolOf(q) == old(PoolOf(q))
      {
        ghost var id := registry.created;
        assert queues[i] !in queues[..i];
        EvaluateQueue(queues[i], counts[queues[i]], now);
        assert PoolOf(queues[i]) ==
          Tick(old(PoolOf(queues[i])), queues[i] in registry.processors, Observation(counts[queues[i]], now, id));
        assert forall k :: 0 <= k < i ==> queues[k] != queues[i];
      }
    }
  }
}
