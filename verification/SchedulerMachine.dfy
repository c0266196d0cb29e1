/**
 * One workflow's run as a state machine over the individual database and queue steps of the
 * scheduler and the attempt loop. Every payload and every scheduler call in progress is a thread of
 * control; any thread may take the next step. `fails[j]` says how many leading attempts of job j throw.
 */
module SchedulerMachine {
  import opened Common
  import opened Graphs
  import opened Workflows

  /** What a scheduler call's caller does when the call returns. */
  datatype Resume =
    | Finished
    | Redeliver(job: nat, made: nat)  // the queue retries the job that has just failed an attempt

  datatype Thread =
    | Handed(job: nat, made: nat)     // a payload in the tenant's staging list or in the queue
    | Running(job: nat, made: nat)    // process(job) is executing
    | Skipping(job: nat, made: nat, final: bool, todo: set<nat>)  // handleParentFailure, children left
    | Unlocking(job: nat, todo: set<nat>)                         // unlockChildren, children left
    | Counting(resume: Resume)        // scheduleNextJob before its count
    | Picking(resume: Resume)         // ... before its search
    | Marking(picked: nat, resume: Resume)     // ... before the QUEUED update
    | Submitting(picked: nat, resume: Resume)  // ... before submitJob

  /** Job rows, threads, and the jobs scheduleNextJob has marked QUEUED so far, in order. */
  datatype State = State(st: seq<Status>, threads: seq<Thread>, queued: seq<nat>)

  predicate Active(s: Status) {
    s == QUEUED || s == PROCESSING
  }

  predicate Started(s: Status) {
    Active(s) || s == COMPLETED || s == FAILED
  }

  predicate AnyActive(st: seq<Status>) {
    exists j :: 0 <= j < |st| && Active(st[j])
  }

  predicate IsChild(w: Workflow, p: nat, d: nat) {
    w.IsJob(d) && p in w.jobs[d].parents
  }

  function Children(w: Workflow, p: nat): set<nat> {
    set d: nat | d < |w.jobs| && IsChild(w, p, d)
  }

  predicate ParentsCompleted(w: Workflow, st: seq<Status>, d: nat)
    requires WellFormed(w) && |st| == |w.jobs| && w.IsJob(d)
  {
    forall p: nat :: p in w.jobs[d].parents ==> st[p] == COMPLETED
  }

  function InitialStatus(spec: JobSpec): Status {
    if |spec.parents| > 0 then WAITING_FOR_DEPENDENCIES else READY
  }

  function InitialStatuses(w: Workflow): (st: seq<Status>)
    ensures |st| == |w.jobs| && forall j :: 0 <= j < |st| ==> st[j] == InitialStatus(w.jobs[j])
  {
    seq(|w.jobs|, j requires 0 <= j < |w.jobs| => InitialStatus(w.jobs[j]))
  }

  function Init(w: Workflow): State {
    State(InitialStatuses(w), [Counting(Finished)], [])
  }

  /** One child of unlockChildren's loop. */
  function UnlockOne(w: Workflow, st: seq<Status>, d: nat): (st': seq<Status>)
    requires WellFormed(w) && |st| == |w.jobs| && w.IsJob(d)
    ensures |st'| == |st|
  {
    if st[d] == WAITING_FOR_DEPENDENCIES && ParentsCompleted(w, st, d) then st[d := READY] else st
  }

  /** One child of handleParentFailure's loop: the update looks at the strategy, not at the status. */
  function SkipOne(w: Workflow, st: seq<Status>, d: nat): (st': seq<Status>)
    requires |st| == |w.jobs| && w.IsJob(d)
    ensures |st'| == |st|
  {
    if w.jobs[d].strict then st[d := SKIPPED] else st
  }

  function Return(resume: Resume): seq<Thread> {
    match resume
    case Finished => []
    case Redeliver(j, k) => [Handed(j, k)]
  }

  // Number of attempts the queue makes at most: a retry count of 0 still means one attempt.
  function Attempts(w: Workflow, j: nat): nat
    requires w.IsJob(j)
  {
    if w.jobs[j].retries == 0 then 1 else w.jobs[j].retries
  }

  predicate Outcomes(w: Workflow, fails: seq<nat>) {
    |fails| == |w.jobs|
  }

  predicate Succeeds(w: Workflow, fails: seq<nat>, j: nat)
    requires Outcomes(w, fails) && w.IsJob(j)
  {
    fails[j] < Attempts(w, j)
  }

  predicate ThreadTyped(w: Workflow, t: Thread) {
    match t
    case Handed(j, _) => w.IsJob(j)
    case Running(j, _) => w.IsJob(j)
    case Skipping(j, _, _, todo) => w.IsJob(j) && todo <= Children(w, j)
    case Unlocking(j, todo) => w.IsJob(j) && todo <= Children(w, j)
    case Counting(r) => ResumeTyped(w, r)
    case Picking(r) => ResumeTyped(w, r)
    case Marking(c, r) => w.IsJob(c) && ResumeTyped(w, r)
    case Submitting(c, r) => w.IsJob(c) && ResumeTyped(w, r)
  }

  predicate ResumeTyped(w: Workflow, r: Resume) {
    r.Redeliver? ==> w.IsJob(r.job)
  }

  ghost predicate Typed(w: Workflow, s: State) {
    && |s.st| == |w.jobs|
    && forall t :: t in s.threads ==> ThreadTyped(w, t)
  }

  datatype Effect = Effect(st: seq<Status>, threads: seq<Thread>, queued: seq<nat>)

  /** The next step of thread t; d chooses the child a loop looks at next. */
  function Advance(w: Workflow, fails: seq<nat>, st: seq<Status>, t: Thread, d: nat): (e: Effect)
    requires WellFormed(w) && Outcomes(w, fails) && |st| == |w.jobs|
    requires ThreadTyped(w, t)
    ensures |e.st| == |st|
  {
    match t
    case Handed(j, k) =>
      Effect(if k == 0 then st[j := PROCESSING] else st, [Running(j, k)], [])
    case Running(j, k) =>
      if k < fails[j] then
        var final := k + 1 >= w.jobs[j].retries;
        Effect(if final then st[j := FAILED] else st, [Skipping(j, k, final, Children(w, j))], [])
      else
        Effect(st[j := COMPLETED], [Unlocking(j, Children(w, j))], [])
    case Skipping(j, k, final, todo) =>
      if d in todo then Effect(SkipOne(w, st, d), [Skipping(j, k, final, todo - {d})], [])
      else Effect(st, [Counting(if final then Finished else Redeliver(j, k + 1))], [])
    case Unlocking(j, todo) =>
      if d in todo then Effect(UnlockOne(w, st, d), [Unlocking(j, todo - {d})], [])
      else Effect(st, [Counting(Finished)], [])
    case Counting(r) =>
      Effect(st, if AnyActive(st) then Return(r) else [Picking(r)], [])
    case Picking(r) =>
      (match PickNextJob(w, st)
       case None => Effect(st, Return(r), [])
       case Some(c) => Effect(st, [Marking(c, r)], []))
    case Marking(c, r) =>
      Effect(st[c := QUEUED], [Submitting(c, r)], [c])
    case Submitting(c, r) =>
      Effect(st, [Handed(c, 0)] + Return(r), [])
  }

  predicate Chooses(t: Thread, d: nat) {
    match t
    case Skipping(_, _, _, todo) => todo == {} || d in todo
    case Unlocking(_, todo) => todo == {} || d in todo
    case _ => true
  }

  /** Any thread moves; the others stay where they are. */
  ghost predicate StepOf(w: Workflow, fails: seq<nat>, s: State, s': State, i: nat, d: nat)
    requires WellFormed(w) && Outcomes(w, fails)
  {
    && Typed(w, s)
    && i < |s.threads|
    && Chooses(s.threads[i], d)
    && var e := Advance(w, fails, s.st, s.threads[i], d);
       s' == State(e.st, s.threads[..i] + e.threads + s.threads[i + 1..], s.queued + e.queued)
  }

  ghost predicate Step(w: Workflow, fails: seq<nat>, s: State, s': State)
    requires WellFormed(w) && Outcomes(w, fails)
  {
    exists i, d :: StepOf(w, fails, s, s', i, d)
  }

  ghost predicate Run(w: Workflow, fails: seq<nat>, run: seq<State>)
    requires WellFormed(w) && Outcomes(w, fails)
  {
    && |run| > 0 && run[0] == Init(w)
    && forall i, j :: 0 <= i < j < |run| && j == i + 1 ==> Step(w, fails, run[i], run[j])
  }

  // ---------- the invariant ----------

  /** A started or startable job has all its parents COMPLETED. */
  ghost predicate DependencySafe(w: Workflow, st: seq<Status>)
    requires WellFormed(w) && |st| == |w.jobs|
  {
    forall j {:trigger ParentsCompleted(w, st, j)} ::
      0 <= j < |st| && (st[j] == READY || Started(st[j])) ==> ParentsCompleted(w, st, j)
  }

  ghost predicate QueuedOnce(st: seq<Status>, queued: seq<nat>) {
    && Distinct(queued)
    && (forall j :: 0 <= j < |st| ==> (Started(st[j]) <==> j in queued))
    && (forall j :: j in queued ==> j < |st|)
  }

  // SKIPPED needs a parent that failed an attempt and a STRICT child.
  ghost predicate Skippable(w: Workflow, fails: seq<nat>, j: nat)
    requires WellFormed(w) && Outcomes(w, fails) && w.IsJob(j)
  {
    w.jobs[j].strict && exists p: nat :: p in w.jobs[j].parents && fails[p] > 0
  }

  ghost predicate SkipsExplained(w: Workflow, fails: seq<nat>, st: seq<Status>)
    requires WellFormed(w) && Outcomes(w, fails) && |st| == |w.jobs|
  {
    forall j :: 0 <= j < |st| && st[j] == SKIPPED ==> Skippable(w, fails, j)
  }

  // A WAITING job whose parents are all COMPLETED is one that unlockChildren is about to reach.
  ghost predicate Unlocked(w: Workflow, st: seq<Status>, threads: seq<Thread>)
    requires WellFormed(w) && |st| == |w.jobs|
  {
    forall d {:trigger ParentsCompleted(w, st, d)} ::
      0 <= d < |st| && st[d] == WAITING_FOR_DEPENDENCIES && ParentsCompleted(w, st, d) ==>
      threads != [] && threads[0].Unlocking? && d in threads[0].todo
  }

  /** The job a thread is bringing to its end. */
  function Current(t: Thread): Option<nat> {
    match t
    case Handed(j, _) => Some(j)
    case Running(j, _) => Some(j)
    case Skipping(j, _, _, _) => Some(j)
    case Unlocking(j, _) => Some(j)
    case Submitting(c, _) => Some(c)
    case Marking(_, r) => if r.Redeliver? then Some(r.job) else None
    case Counting(r) => if r.Redeliver? then Some(r.job) else None
    case Picking(r) => if r.Redeliver? then Some(r.job) else None
  }

  predicate AttemptDue(w: Workflow, fails: seq<nat>, j: nat, k: nat)
    requires Outcomes(w, fails) && w.IsJob(j)
  {
    k <= fails[j] && k < Attempts(w, j)
  }

  ghost predicate PhaseOk(w: Workflow, fails: seq<nat>, st: seq<Status>, t: Thread)
    requires WellFormed(w) && Outcomes(w, fails) && |st| == |w.jobs|
    requires ThreadTyped(w, t)
  {
    match t
    case Handed(j, k) =>
      && st[j] == (if k == 0 then QUEUED else PROCESSING) && AttemptDue(w, fails, j, k)
      && (0 < k ==> StrictChildrenSkipped(w, st, j, {}))
    case Running(j, k) =>
      st[j] == PROCESSING && AttemptDue(w, fails, j, k) && (0 < k ==> StrictChildrenSkipped(w, st, j, {}))
    case Skipping(j, k, final, todo) =>
      && AttemptDue(w, fails, j, k) && k < fails[j]
      && (final <==> k + 1 >= w.jobs[j].retries)
      && st[j] == (if final then FAILED else PROCESSING)
      && StrictChildrenSkipped(w, st, j, todo)
    case Unlocking(j, todo) =>
      st[j] == COMPLETED && Succeeds(w, fails, j) && (0 < fails[j] ==> StrictChildrenSkipped(w, st, j, {}))
    case Counting(Finished) => true
    case Counting(Redeliver(j, k)) =>
      st[j] == PROCESSING && AttemptDue(w, fails, j, k) && 0 < k && StrictChildrenSkipped(w, st, j, {})
    case Picking(r) => r.Finished?
    case Marking(c, r) => r.Finished? && PickNextJob(w, st) == Some(c)
    case Submitting(c, r) => r.Finished? && st[c] == QUEUED
  }

  // Failed attempts have skipped every STRICT child outside todo.
  ghost predicate StrictChildrenSkipped(w: Workflow, st: seq<Status>, j: nat, todo: set<nat>)
    requires |st| == |w.jobs|
  {
    forall d :: d in Children(w, j) && d !in todo && w.jobs[d].strict ==> st[d] == SKIPPED
  }

  // A finished run has nothing left that the search would return.
  ghost predicate Inv(w: Workflow, fails: seq<nat>, s: State)
    requires WellFormed(w) && Outcomes(w, fails)
  {
    && Typed(w, s)
    && (forall j :: 0 <= j < |s.st| ==> s.st[j] != SCHEDULED)
    && (forall j :: 0 <= j < |s.st| && w.jobs[j].parents == [] ==> s.st[j] != WAITING_FOR_DEPENDENCIES)
    && DependencySafe(w, s.st)
    && QueuedOnce(s.st, s.queued)
    && SkipsExplained(w, fails, s.st)
    && Unlocked(w, s.st, s.threads)
    && |s.threads| <= 1
    && (forall t :: t in s.threads ==> PhaseOk(w, fails, s.st, t))
    && (forall j :: 0 <= j < |s.st| && Active(s.st[j]) ==>
          s.threads != [] && Current(s.threads[0]) == Some(j))
    && (s.threads == [] ==> PickNextJob(w, s.st).None?)
  }

  lemma InitInv(w: Workflow, fails: seq<nat>)
    requires WellFormed(w) && Outcomes(w, fails)
    ensures Inv(w, fails, Init(w))
  {
    forall j: nat | j < |w.jobs| && w.jobs[j].parents != [] ensures !ParentsCompleted(w, Init(w).st, j) {
      var p := w.jobs[j].parents[0];
      assert p in w.jobs[j].parents;
    }
  }

  // ---------- every step keeps the invariant ----------

  ghost predicate Follows(w: Workflow, fails: seq<nat>, s: State, s': State, d: nat)
    requires WellFormed(w) && Outcomes(w, fails) && |s.st| == |w.jobs|
    requires s.threads != []
  {
    && s.threads == [s.threads[0]] && Chooses(s.threads[0], d)
    && ThreadTyped(w, s.threads[0])
    && var e := Advance(w, fails, s.st, s.threads[0], d);
       s' == State(e.st, e.threads, s.queued + e.queued)
  }

  // With one thread, a step replaces that thread.
  lemma OnlyThread(w: Workflow, fails: seq<nat>, s: State, s': State, i: nat, d: nat)
    requires WellFormed(w) && Outcomes(w, fails) && Inv(w, fails, s) && StepOf(w, fails, s, s', i, d)
    ensures s.threads != [] && Follows(w, fails, s, s', d)
  {
    assert s.threads[0] in s.threads;
    var e := Advance(w, fails, s.st, s.threads[0], d);
    assert s.threads[..0] + e.threads + s.threads[1..] == e.threads;
  }

  lemma NotCompletedBlocksChildren(w: Workflow, st: seq<Status>, p: nat, d: nat)
    requires WellFormed(w) && |st| == |w.jobs| && DependencySafe(w, st)
    requires IsChild(w, p, d) && st[p] != COMPLETED
    ensures st[d] != READY && !Started(st[d])
  {
    assert !ParentsCompleted(w, st, d);
  }

  // Completing the running job keeps its children's parents in order.
  lemma FinishKeeps(w: Workflow, fails: seq<nat>, s: State, j: nat, end: Status)
    requires WellFormed(w) && Outcomes(w, fails) && Inv(w, fails, s) && w.IsJob(j)
    requires s.st[j] == PROCESSING && (end == FAILED || end == COMPLETED)
    ensures DependencySafe(w, s.st[j := end])
    ensures QueuedOnce(s.st[j := end], s.queued)
    ensures SkipsExplained(w, fails, s.st[j := end])
    ensures forall d :: (0 <= d < |s.st| && s.st[d] == WAITING_FOR_DEPENDENCIES &&
      ParentsCompleted(w, s.st[j := end], d)) ==> end == COMPLETED && d in Children(w, j)
  {
    var st' := s.st[j := end];
    assert forall d: nat :: d < |s.st| && ParentsCompleted(w, s.st, d) ==> ParentsCompleted(w, st', d);
    assert forall d: nat :: d < |s.st| && ParentsCompleted(w, st', d) && (end == FAILED || d !in Children(w, j)) ==>
      ParentsCompleted(w, s.st, d);
    assert s.threads[0] in s.threads;
  }

  lemma StartKeeps(w: Workflow, fails: seq<nat>, s: State, j: nat, from: Status, to: Status)
    requires WellFormed(w) && Outcomes(w, fails) && Inv(w, fails, s) && w.IsJob(j)
    requires s.st[j] == from && s.threads != [] && !s.threads[0].Unlocking?
    requires (from == READY && to == QUEUED) || (from == QUEUED && to == PROCESSING)
    ensures DependencySafe(w, s.st[j := to])
    ensures QueuedOnce(s.st[j := to], if from == READY then s.queued + [j] else s.queued)
    ensures SkipsExplained(w, fails, s.st[j := to])
    ensures Unlocked(w, s.st[j := to], s.threads)
  {
    var st' := s.st[j := to];
    assert forall d: nat :: d < |s.st| ==> (ParentsCompleted(w, s.st, d) <==> ParentsCompleted(w, st', d));
  }

  lemma UnlockKeeps(w: Workflow, fails: seq<nat>, s: State, j: nat, todo: set<nat>, d: nat)
    requires WellFormed(w) && Outcomes(w, fails) && Inv(w, fails, s)
    requires s.threads == [Unlocking(j, todo)] && d in todo && w.IsJob(d)
    ensures var st' := UnlockOne(w, s.st, d);
      && DependencySafe(w, st') && QueuedOnce(st', s.queued) && SkipsExplained(w, fails, st')
      && Unlocked(w, st', [Unlocking(j, todo - {d})])
  {
    var st' := UnlockOne(w, s.st, d);
    assert forall c: nat :: c < |s.st| ==> (ParentsCompleted(w, s.st, c) <==> ParentsCompleted(w, st', c));
  }

  lemma SkipKeeps(w: Workflow, fails: seq<nat>, s: State, j: nat, d: nat)
    requires WellFormed(w) && Outcomes(w, fails) && |s.st| == |w.jobs|
    requires DependencySafe(w, s.st) && QueuedOnce(s.st, s.queued)
    requires SkipsExplained(w, fails, s.st) && Unlocked(w, s.st, s.threads)
    requires IsChild(w, j, d) && w.IsJob(j) && fails[j] > 0 && s.st[j] != COMPLETED && s.st[d] != SCHEDULED
    requires s.threads != [] && !s.threads[0].Unlocking?
    ensures s.st[d] == WAITING_FOR_DEPENDENCIES || s.st[d] == SKIPPED
    ensures var st' := SkipOne(w, s.st, d);
      DependencySafe(w, st') && QueuedOnce(st', s.queued) && SkipsExplained(w, fails, st') && Unlocked(w, st', s.threads)
  {
    NotCompletedBlocksChildren(w, s.st, j, d);
    var st' := SkipOne(w, s.st, d);
    assert w.jobs[d].strict ==> Skippable(w, fails, d);
    assert forall c: nat :: c < |s.st| ==> (ParentsCompleted(w, s.st, c) <==> ParentsCompleted(w, st', c));
  }

  /** The one transition relation that job rows obey. */
  predicate Moves(a: Status, b: Status) {
    || a == b
    || (a == WAITING_FOR_DEPENDENCIES && (b == READY || b == SKIPPED))
    || (a == READY && b == QUEUED)
    || (a == QUEUED && b == PROCESSING)
    || (a == PROCESSING && (b == COMPLETED || b == FAILED))
  }

  ghost predicate Kept(w: Workflow, fails: seq<nat>, s: State, s': State)
    requires WellFormed(w) && Outcomes(w, fails) && |s.st| == |w.jobs|
  {
    Inv(w, fails, s') && forall j :: 0 <= j < |s.st| ==> Moves(s.st[j], s'.st[j])
  }

  lemma HandedStep(w: Workflow, fails: seq<nat>, s: State, j: nat, k: nat)
    requires WellFormed(w) && Outcomes(w, fails) && Inv(w, fails, s) && s.threads == [Handed(j, k)]
    ensures w.IsJob(j)
    ensures Kept(w, fails, s, State(if k == 0 then s.st[j := PROCESSING] else s.st, [Running(j, k)], s.queued))
  {
    assert s.threads[0] in s.threads;
    if k == 0 {
      StartKeeps(w, fails, s, j, QUEUED, PROCESSING);
    }
  }

  lemma FailedAttemptStep(w: Workflow, fails: seq<nat>, s: State, j: nat, k: nat)
    requires WellFormed(w) && Outcomes(w, fails) && Inv(w, fails, s) && s.threads == [Running(j, k)]
    requires w.IsJob(j) && k < fails[j]
    ensures var final := k + 1 >= w.jobs[j].retries;
      Kept(w, fails, s, State(if final then s.st[j := FAILED] else s.st, [Skipping(j, k, final, Children(w, j))], s.queued))
  {
    assert s.threads[0] in s.threads;
    if k + 1 >= w.jobs[j].retries {
      FinishKeeps(w, fails, s, j, FAILED);
    }
  }

  lemma CompletedStep(w: Workflow, fails: seq<nat>, s: State, j: nat, k: nat)
    requires WellFormed(w) && Outcomes(w, fails) && Inv(w, fails, s) && s.threads == [Running(j, k)]
    requires w.IsJob(j) && k >= fails[j]
    ensures Kept(w, fails, s, State(s.st[j := COMPLETED], [Unlocking(j, Children(w, j))], s.queued))
  {
    assert s.threads[0] in s.threads;
    FinishKeeps(w, fails, s, j, COMPLETED);
  }

  lemma SkipStep(w: Workflow, fails: seq<nat>, s: State, j: nat, k: nat, final: bool, todo: set<nat>, d: nat)
    requires WellFormed(w) && Outcomes(w, fails) && Inv(w, fails, s)
    requires s.threads == [Skipping(j, k, final, todo)] && d in todo
    ensures w.IsJob(d) && Kept(w, fails, s, State(SkipOne(w, s.st, d), [Skipping(j, k, final, todo - {d})], s.queued))
  {
    assert s.threads[0] in s.threads;
    SkipKeeps(w, fails, s, j, d);
    assert forall c: nat :: c < |s.st| && c != d ==> SkipOne(w, s.st, d)[c] == s.st[c];
  }

  lemma SkippedAllStep(w: Workflow, fails: seq<nat>, s: State, j: nat, k: nat, final: bool)
    requires WellFormed(w) && Outcomes(w, fails) && Inv(w, fails, s) && s.threads == [Skipping(j, k, final, {})]
    ensures Kept(w, fails, s, State(s.st, [Counting(if final then Finished else Redeliver(j, k + 1))], s.queued))
  {
    assert s.threads[0] in s.threads;
  }

  lemma UnlockStep(w: Workflow, fails: seq<nat>, s: State, j: nat, todo: set<nat>, d: nat)
    requires WellFormed(w) && Outcomes(w, fails) && Inv(w, fails, s)
    requires s.threads == [Unlocking(j, todo)] && d in todo
    ensures w.IsJob(d) && Kept(w, fails, s, State(UnlockOne(w, s.st, d), [Unlocking(j, todo - {d})], s.queued))
  {
    assert s.threads[0] in s.threads;
    UnlockKeeps(w, fails, s, j, todo, d);
  }

  lemma UnlockedAllStep(w: Workflow, fails: seq<nat>, s: State, j: nat)
    requires WellFormed(w) && Outcomes(w, fails) && Inv(w, fails, s) && s.threads == [Unlocking(j, {})]
    ensures Kept(w, fails, s, State(s.st, [Counting(Finished)], s.queued))
  {
    assert s.threads[0] in s.threads;
  }

  lemma CountingStep(w: Workflow, fails: seq<nat>, s: State, r: Resume)
    requires WellFormed(w) && Outcomes(w, fails) && Inv(w, fails, s) && s.threads == [Counting(r)]
    ensures Kept(w, fails, s, State(s.st, if AnyActive(s.st) then Return(r) else [Picking(r)], s.queued))
    ensures AnyActive(s.st) <==> r.Redeliver?
  {
    assert s.threads[0] in s.threads;
    if r.Redeliver? {
      assert Active(s.st[r.job]);
    }
  }

  lemma PickingStep(w: Workflow, fails: seq<nat>, s: State, r: Resume)
    requires WellFormed(w) && Outcomes(w, fails) && Inv(w, fails, s) && s.threads == [Picking(r)]
    ensures Kept(w, fails, s,
      State(s.st, if PickNextJob(w, s.st).None? then Return(r) else [Marking(PickNextJob(w, s.st).value, r)], s.queued))
  {
    assert s.threads[0] in s.threads;
  }

  lemma MarkingStep(w: Workflow, fails: seq<nat>, s: State, c: nat, r: Resume)
    requires WellFormed(w) && Outcomes(w, fails) && Inv(w, fails, s) && s.threads == [Marking(c, r)]
    ensures w.IsJob(c) && Kept(w, fails, s, State(s.st[c := QUEUED], [Submitting(c, r)], s.queued + [c]))
  {
    assert s.threads[0] in s.threads;
    StartKeeps(w, fails, s, c, READY, QUEUED);
    hide DependencySafe, SkipsExplained, Unlocked;
  }

  lemma SubmittingStep(w: Workflow, fails: seq<nat>, s: State, c: nat, r: Resume)
    requires WellFormed(w) && Outcomes(w, fails) && Inv(w, fails, s) && s.threads == [Submitting(c, r)]
    ensures Kept(w, fails, s, State(s.st, [Handed(c, 0)] + Return(r), s.queued))
  {
    assert s.threads[0] in s.threads;
  }

  /** Every step keeps the invariant and moves job rows forward only. */
  lemma StepKeepsInv(w: Workflow, fails: seq<nat>, s: State, s': State)
    requires WellFormed(w) && Outcomes(w, fails) && Inv(w, fails, s) && Step(w, fails, s, s')
    ensures Inv(w, fails, s')
    ensures forall j :: 0 <= j < |s.st| ==> Moves(s.st[j], s'.st[j])
  {
    var i, d :| StepOf(w, fails, s, s', i, d);
    OnlyThread(w, fails, s, s', i, d);
    OnlyThreadKeeps(w, fails, s, s', d);
  }

  lemma OnlyThreadKeeps(w: Workflow, fails: seq<nat>, s: State, s': State, d: nat)
    requires WellFormed(w) && Outcomes(w, fails) && Inv(w, fails, s) && s.threads != [] && Follows(w, fails, s, s', d)
    ensures Kept(w, fails, s, s')
  {
    assert s.queued + [] == s.queued;
    hide Inv, WellFormed, AnyActive, UnlockOne, SkipOne, Children, Kept;
    match s.threads[0]
    case Handed(j, k) => HandedStep(w, fails, s, j, k);
    case Running(j, k) =>
      if k < fails[j] { FailedAttemptStep(w, fails, s, j, k); } else { CompletedStep(w, fails, s, j, k); }
    case Skipping(j, k, final, todo) =>
      if d in todo { SkipStep(w, fails, s, j, k, final, todo, d); } else { SkippedAllStep(w, fails, s, j, k, final); }
    case Unlocking(j, todo) =>
      if d in todo { UnlockStep(w, fails, s, j, todo, d); } else { UnlockedAllStep(w, fails, s, j); }
    case Counting(r) => CountingStep(w, fails, s, r);
    case Picking(r) => PickingStep(w, fails, s, r);
    case Marking(c, r) => MarkingStep(w, fails, s, c, r);
    case Submitting(c, r) => SubmittingStep(w, fails, s, c, r);
  }
}
