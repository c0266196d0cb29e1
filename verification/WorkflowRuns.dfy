/** What holds along every run of a workflow, whatever graph, outcomes and interleaving. */
module WorkflowRuns {
  import opened Common
  import opened Graphs
  import opened Workflows
  import opened SchedulerMachine

  lemma {:induction false} RunKeepsInv(w: Workflow, fails: seq<nat>, run: seq<State>, n: nat)
    requires WellFormed(w) && Outcomes(w, fails) && Run(w, fails, run) && n < |run|
    ensures Inv(w, fails, run[n])
  {
    hide Inv, WellFormed, Step, Init;
    if n == 0 {
      InitInv(w, fails);
    } else {
      RunKeepsInv(w, fails, run, n - 1);
      StepKeepsInv(w, fails, run[n - 1], run[n]);
    }
  }

  /**
   * Mutual exclusion: though count, search and update are separate steps, no reachable state has two
   * scheduler calls or payloads under way, nor two jobs QUEUED or PROCESSING.
   */
  lemma MutualExclusion(w: Workflow, fails: seq<nat>, run: seq<State>, n: nat, a: nat, b: nat)
    requires WellFormed(w) && Outcomes(w, fails) && Run(w, fails, run) && n < |run|
    ensures |run[n].threads| <= 1 && |run[n].st| == |w.jobs|
    ensures a < |w.jobs| && b < |w.jobs| && Active(run[n].st[a]) && Active(run[n].st[b]) ==> a == b
  {
    RunKeepsInv(w, fails, run, n);
  }

  /** What a run hands over has not ended, so a delivery of it is never taken for a completed job's. */
  lemma HandedIsUnfinished(w: Workflow, fails: seq<nat>, run: seq<State>, n: nat, j: nat, k: nat)
    requires WellFormed(w) && Outcomes(w, fails) && Run(w, fails, run) && n < |run| && Handed(j, k) in run[n].threads
    ensures w.IsJob(j) && |run[n].st| == |w.jobs| && run[n].st[j] == if k == 0 then QUEUED else PROCESSING
  {
    RunKeepsInv(w, fails, run, n);
  }

  /** In any acyclic graph, whatever is READY, started or finished has all its parents COMPLETED. */
  lemma DependenciesRespected(w: Workflow, fails: seq<nat>, run: seq<State>, n: nat, j: nat, p: nat)
    requires WellFormed(w) && Outcomes(w, fails) && Run(w, fails, run) && n < |run|
    requires w.IsJob(j) && p in w.jobs[j].parents
    ensures |run[n].st| == |w.jobs|
    ensures run[n].st[j] in {READY, QUEUED, PROCESSING, COMPLETED, FAILED} ==> run[n].st[p] == COMPLETED
  {
    RunKeepsInv(w, fails, run, n);
    if run[n].st[j] in {READY, QUEUED, PROCESSING, COMPLETED, FAILED} {
      assert ParentsCompleted(w, run[n].st, j);
    }
  }

  /** The queued order is a linear extension of the dependencies, and queues no job twice. */
  lemma {:induction false} StartOrderExtendsDependencies(w: Workflow, fails: seq<nat>, run: seq<State>, n: nat)
    requires WellFormed(w) && Outcomes(w, fails) && Run(w, fails, run) && n < |run|
    ensures Distinct(run[n].queued)
    ensures forall j :: j in run[n].queued ==> w.IsJob(j)
    ensures DependenciesFirst(DependencyGraph(w), run[n].queued)
  {
    RunKeepsInv(w, fails, run, n);
    assert Typed(w, run[n]) && QueuedOnce(run[n].st, run[n].queued);
    hide Inv, WellFormed, Step;
    if n > 0 {
      hide DependenciesFirst, QueuedOnce, Typed;
      StartOrderExtendsDependencies(w, fails, run, n - 1);
      RunKeepsInv(w, fails, run, n - 1);
      QueuedInOrder(w, fails, run[n - 1], run[n]);
    }
  }

  lemma QueuedInOrder(w: Workflow, fails: seq<nat>, s: State, s': State)
    requires WellFormed(w) && Outcomes(w, fails) && Inv(w, fails, s) && Step(w, fails, s, s')
    requires DependenciesFirst(DependencyGraph(w), s.queued)
    ensures DependenciesFirst(DependencyGraph(w), s'.queued)
  {
    var i, d :| StepOf(w, fails, s, s', i, d);
    OnlyThread(w, fails, s, s', i, d);
    assert s.threads[0] in s.threads;
    match s.threads[0]
    case Marking(c, r) =>
      assert s.st[c] == READY;
      assert ParentsCompleted(w, s.st, c);
      AppendLast(DependencyGraph(w), s.queued, c);
    case _ =>
      assert s'.queued == s.queued;
  }

  function Rank(s: Status): nat {
    match s
    case WAITING_FOR_DEPENDENCIES => 0
    case READY => 1
    case QUEUED => 2
    case PROCESSING => 3
    case _ => 4
  }

  predicate Final(s: Status) {
    s == COMPLETED || s == FAILED || s == SKIPPED
  }

  /** Statuses only rise, and COMPLETED, FAILED and SKIPPED are never left. */
  lemma {:induction false} StatusesOnlyRise(w: Workflow, fails: seq<nat>, run: seq<State>, m: nat, n: nat, j: nat)
    requires WellFormed(w) && Outcomes(w, fails) && Run(w, fails, run) && m <= n < |run| && w.IsJob(j)
    ensures |run[m].st| == |run[n].st| == |w.jobs|
    ensures Rank(run[m].st[j]) <= Rank(run[n].st[j])
    ensures Final(run[m].st[j]) ==> run[n].st[j] == run[m].st[j]
    ensures Started(run[m].st[j]) ==> run[n].st[j] != SKIPPED
    ensures run[m].st[j] in {COMPLETED, FAILED, SKIPPED} ==> run[n].st[j] == run[m].st[j]
    ensures run[m].st[j] in {QUEUED, PROCESSING, COMPLETED, FAILED} ==> run[n].st[j] != SKIPPED
    ensures run[n].st[j] == WAITING_FOR_DEPENDENCIES ==> run[m].st[j] == WAITING_FOR_DEPENDENCIES
    ensures run[n].st[j] == READY ==> run[m].st[j] in {WAITING_FOR_DEPENDENCIES, READY}
    ensures run[n].st[j] == QUEUED ==> run[m].st[j] in {WAITING_FOR_DEPENDENCIES, READY, QUEUED}
    ensures run[n].st[j] == PROCESSING ==> run[m].st[j] in {WAITING_FOR_DEPENDENCIES, READY, QUEUED, PROCESSING}
    decreases n - m
  {
    hide Inv, WellFormed, Run;
    RowsKept(w, fails, run, m);
    RowsKept(w, fails, run, n);
    if m < n {
      hide Rank, Final, Started, Moves;
      StatusesOnlyRise(w, fails, run, m, n - 1, j);
      RowMoves(w, fails, run, n, j);
      MovesRise(run[m].st[j], run[n - 1].st[j], run[n].st[j]);
    }
    RankSays(run[m].st[j], run[n].st[j]);
    NotScheduled(w, fails, run, m, j);
  }

  lemma RankSays(a: Status, b: Status)
    requires Rank(a) <= Rank(b) && (Final(a) ==> b == a) && (Started(a) ==> b != SKIPPED)
    ensures a in {COMPLETED, FAILED, SKIPPED} ==> b == a
    ensures a in {QUEUED, PROCESSING, COMPLETED, FAILED} ==> b != SKIPPED
    ensures b == WAITING_FOR_DEPENDENCIES ==> a == WAITING_FOR_DEPENDENCIES
    ensures b == READY ==> a in {WAITING_FOR_DEPENDENCIES, READY}
    ensures b == QUEUED ==> a in {WAITING_FOR_DEPENDENCIES, READY, QUEUED}
    ensures b == PROCESSING ==> a in {WAITING_FOR_DEPENDENCIES, READY, QUEUED, PROCESSING}
  {
  }

  lemma {:induction false} NotScheduled(w: Workflow, fails: seq<nat>, run: seq<State>, n: nat, j: nat)
    requires WellFormed(w) && Outcomes(w, fails) && Run(w, fails, run) && n < |run| && w.IsJob(j)
    ensures |run[n].st| == |w.jobs| && run[n].st[j] != SCHEDULED
  {
    RunKeepsInv(w, fails, run, n);
  }

  /** Runs start with the scheduler's first count and go on by any step: no other condition restricts them. */
  lemma {:induction false} RunsExtend(w: Workflow, fails: seq<nat>, run: seq<State>, next: State)
    requires WellFormed(w) && |fails| == |w.jobs|
    ensures Run(w, fails, [Init(w)])
    ensures Run(w, fails, run) && Step(w, fails, run[|run| - 1], next) ==> Run(w, fails, run + [next])
  {
    hide Step, WellFormed, Init;
    if Run(w, fails, run) && Step(w, fails, run[|run| - 1], next) {
      var longer := run + [next];
      forall i, j | 0 <= i < j < |longer| && j == i + 1 ensures Step(w, fails, longer[i], longer[j]) {
        if j < |run| {
          assert longer[i] == run[i] && longer[j] == run[j];
        }
      }
    }
  }

  lemma {:induction false} RowsKept(w: Workflow, fails: seq<nat>, run: seq<State>, n: nat)
    requires WellFormed(w) && Outcomes(w, fails) && Run(w, fails, run) && n < |run|
    ensures |run[n].st| == |w.jobs|
  {
    RunKeepsInv(w, fails, run, n);
  }

  // One step moves a row along the transition relation.
  lemma {:induction false} RowMoves(w: Workflow, fails: seq<nat>, run: seq<State>, n: nat, j: nat)
    requires WellFormed(w) && Outcomes(w, fails) && Run(w, fails, run) && 0 < n < |run| && w.IsJob(j)
    ensures |run[n - 1].st| == |run[n].st| == |w.jobs| && Moves(run[n - 1].st[j], run[n].st[j])
  {
    hide Inv, WellFormed, Step, Moves, Init;
    RowsKept(w, fails, run, n - 1);
    RowsKept(w, fails, run, n);
    RunKeepsInv(w, fails, run, n - 1);
    assert Step(w, fails, run[n - 1], run[n]);
    StepKeepsInv(w, fails, run[n - 1], run[n]);
  }

  lemma MovesRise(a: Status, b: Status, c: Status)
    requires Rank(a) <= Rank(b) && (Final(a) ==> b == a) && (Started(a) ==> b != SKIPPED) && Moves(b, c)
    ensures Rank(a) <= Rank(c) && (Final(a) ==> c == a) && (Started(a) ==> c != SKIPPED)
  {
  }

  // ---------- every run is finite ----------

  function AttemptCost(w: Workflow): nat {
    |w.jobs| + 4
  }

  function JobCost(w: Workflow, j: nat): nat
    requires w.IsJob(j)
  {
    Attempts(w, j) * AttemptCost(w) + 8
  }

  /** Cost of the jobs below k that have not been queued yet. */
  function Ahead(w: Workflow, st: seq<Status>, k: nat): nat
    requires |st| == |w.jobs| && k <= |st|
  {
    if k == 0 then 0 else Ahead(w, st, k - 1) + if Started(st[k - 1]) then 0 else JobCost(w, k - 1)
  }

  function Due(w: Workflow, j: nat, k: nat): nat
    requires w.IsJob(j)
  {
    if k < Attempts(w, j) then (Attempts(w, j) - k) * AttemptCost(w) else 0
  }

  function ThreadWork(w: Workflow, t: Thread): nat
    requires ThreadTyped(w, t)
  {
    match t
    case Handed(j, k) => Due(w, j, k) + 6
    case Running(j, k) => Due(w, j, k) + 5
    case Skipping(j, k, _, todo) => Due(w, j, k + 1) + 8 + |todo|
    case Unlocking(j, todo) => 5 + |todo|
    case Counting(Finished) => 4
    case Counting(Redeliver(j, k)) => Due(w, j, k) + 7
    case Picking(_) => 3
    case Marking(_, _) => 2
    case Submitting(c, _) => Due(w, c, 0) + 7
  }

  ghost function WorkLeft(w: Workflow, s: State): nat
    requires Typed(w, s)
  {
    Ahead(w, s.st, |s.st|) + if s.threads == [] then 0 else assert s.threads[0] in s.threads; ThreadWork(w, s.threads[0])
  }

  lemma {:induction false} AheadSame(w: Workflow, st: seq<Status>, st': seq<Status>, k: nat)
    requires |st| == |st'| == |w.jobs| && k <= |st|
    requires forall j :: 0 <= j < k ==> (Started(st[j]) <==> Started(st'[j]))
    ensures Ahead(w, st, k) == Ahead(w, st', k)
  {
    if k > 0 { AheadSame(w, st, st', k - 1); }
  }

  lemma {:induction false} AheadStarts(w: Workflow, st: seq<Status>, c: nat, k: nat)
    requires |st| == |w.jobs| && c < k <= |st| && !Started(st[c])
    ensures Ahead(w, st[c := QUEUED], k) + JobCost(w, c) == Ahead(w, st, k)
  {
    if k - 1 > c { AheadStarts(w, st, c, k - 1); } else { AheadSame(w, st, st[c := QUEUED], k - 1); }
  }

  lemma {:induction false} SetBelow(s: set<nat>, n: nat)
    requires forall x :: x in s ==> x < n
    ensures |s| <= n
  {
    if n > 0 {
      SetBelow(s - {n - 1}, n - 1);
    } else if x :| x in s {
      assert false;
    }
  }

  lemma NextAttemptCosts(w: Workflow, j: nat, k: nat)
    requires w.IsJob(j) && k < Attempts(w, j)
    ensures Due(w, j, k) == Due(w, j, k + 1) + AttemptCost(w)
  {
    var a, c := Attempts(w, j) - k, AttemptCost(w);
    assert a * c == (a - 1) * c + c;
  }

  /** Every step uses up work, so no run is longer than the work its workflow starts with. */
  lemma StepUsesWork(w: Workflow, fails: seq<nat>, s: State, s': State)
    requires WellFormed(w) && Outcomes(w, fails) && Inv(w, fails, s) && Inv(w, fails, s') && Step(w, fails, s, s')
    ensures WorkLeft(w, s') < WorkLeft(w, s)
  {
    var i, d :| StepOf(w, fails, s, s', i, d);
    OnlyThread(w, fails, s, s', i, d);
    assert s.threads[0] in s.threads;
    if s.threads[0].Marking? {
      MarkingUsesWork(w, fails, s, s', d);
    } else {
      if s.threads[0].Counting? {
        CountingStep(w, fails, s, s.threads[0].resume);
      }
      assert s'.queued == s.queued;
      if s.threads[0].Picking? {
        PickingUsesWork(w, fails, s, s', d);
      } else {
        OtherUsesWork(w, fails, s, s', d);
      }
    }
  }

  lemma OtherUsesWork(w: Workflow, fails: seq<nat>, s: State, s': State, d: nat)
    requires WellFormed(w) && Outcomes(w, fails) && Typed(w, s) && Typed(w, s')
    requires QueuedOnce(s.st, s.queued) && QueuedOnce(s'.st, s.queued)
    requires s.threads != [] && !s.threads[0].Marking? && !s.threads[0].Picking? && Follows(w, fails, s, s', d)
    requires s.threads[0].Running? ==> AttemptDue(w, fails, s.threads[0].job, s.threads[0].made)
    requires s.threads[0].Counting? && s.threads[0].resume.Redeliver? ==> AnyActive(s.st)
    ensures WorkLeft(w, s') < WorkLeft(w, s)
  {
    AheadSame(w, s.st, s'.st, |s.st|);
    ThreadUsesWork(w, fails, s.st, s.threads[0], d);
  }

  lemma PickingUsesWork(w: Workflow, fails: seq<nat>, s: State, s': State, d: nat)
    requires WellFormed(w) && Outcomes(w, fails) && Typed(w, s) && Typed(w, s')
    requires s.threads != [] && s.threads[0] == Picking(Finished) && Follows(w, fails, s, s', d)
    ensures WorkLeft(w, s') < WorkLeft(w, s)
  {
    assert s'.st == s.st;
    assert s'.threads == [] || s'.threads[0].Marking?;
  }

  lemma MarkingUsesWork(w: Workflow, fails: seq<nat>, s: State, s': State, d: nat)
    requires WellFormed(w) && Outcomes(w, fails) && Typed(w, s) && Typed(w, s')
    requires s.threads != [] && s.threads[0].Marking? && Follows(w, fails, s, s', d)
    requires PickNextJob(w, s.st) == Some(s.threads[0].picked)
    ensures WorkLeft(w, s') < WorkLeft(w, s)
  {
    var c := s.threads[0].picked;
    AheadStarts(w, s.st, c, |s.st|);
  }

  lemma ThreadUsesWork(w: Workflow, fails: seq<nat>, st: seq<Status>, t: Thread, d: nat)
    requires WellFormed(w) && Outcomes(w, fails) && |st| == |w.jobs|
    requires ThreadTyped(w, t) && Chooses(t, d) && !t.Marking? && !t.Picking?
    requires t.Running? ==> AttemptDue(w, fails, t.job, t.made)
    requires t.Counting? && t.resume.Redeliver? ==> AnyActive(st)
    ensures var next := Advance(w, fails, st, t, d).threads;
      next == [] || (ThreadTyped(w, next[0]) && ThreadWork(w, next[0]) < ThreadWork(w, t))
  {
    match t
    case Running(j, k) => AttemptUsesWork(w, fails, st, j, k, d);
    case Skipping(_, _, _, _) => LoopUsesWork(w, fails, st, t, d);
    case Unlocking(_, _) => LoopUsesWork(w, fails, st, t, d);
    case _ => hide WellFormed, PickNextJob, Due;
  }

  // A turn of a loop over the children, or its end.
  lemma LoopUsesWork(w: Workflow, fails: seq<nat>, st: seq<Status>, t: Thread, d: nat)
    requires WellFormed(w) && Outcomes(w, fails) && |st| == |w.jobs|
    requires ThreadTyped(w, t) && Chooses(t, d) && (t.Skipping? || t.Unlocking?)
    ensures var next := Advance(w, fails, st, t, d).threads;
      next != [] && ThreadTyped(w, next[0]) && ThreadWork(w, next[0]) < ThreadWork(w, t)
  {
    hide WellFormed, PickNextJob, Children, UnlockOne, SkipOne, Due;
    assert d in t.todo ==> |t.todo - {d}| == |t.todo| - 1;
  }

  lemma AttemptUsesWork(w: Workflow, fails: seq<nat>, st: seq<Status>, j: nat, k: nat, d: nat)
    requires WellFormed(w) && Outcomes(w, fails) && |st| == |w.jobs| && w.IsJob(j) && AttemptDue(w, fails, j, k)
    ensures ThreadWork(w, Unlocking(j, Children(w, j))) < ThreadWork(w, Running(j, k))
    ensures forall final: bool :: ThreadWork(w, Skipping(j, k, final, Children(w, j))) < ThreadWork(w, Running(j, k))
  {
    NextAttemptCosts(w, j, k);
    SetBelow(Children(w, j), |w.jobs|);
  }

  lemma InitialWork(w: Workflow)
    ensures Typed(w, Init(w)) && WorkLeft(w, Init(w)) == Ahead(w, InitialStatuses(w), |w.jobs|) + 4
  {
  }

  lemma {:induction false} RunsAreFinite(w: Workflow, fails: seq<nat>, run: seq<State>, n: nat)
    requires WellFormed(w) && Outcomes(w, fails) && Run(w, fails, run) && n < |run|
    ensures Typed(w, run[0]) && Typed(w, run[n])
    ensures WorkLeft(w, run[n]) + n <= WorkLeft(w, run[0]) == Ahead(w, InitialStatuses(w), |w.jobs|) + 4
  {
    hide WorkLeft, PhaseOk, Step, WellFormed, Unlocked, DependencySafe;
    RunKeepsInv(w, fails, run, 0);
    RunKeepsInv(w, fails, run, n);
    InitialWork(w);
    if n > 0 {
      RunsAreFinite(w, fails, run, n - 1);
      RunKeepsInv(w, fails, run, n - 1);
      StepUsesWork(w, fails, run[n - 1], run[n]);
    }
  }

  /** While a payload or a scheduler call is under way, some step is possible: runs end only when idle. */
  lemma NeverStuck(w: Workflow, fails: seq<nat>, run: seq<State>, n: nat) returns (next: State)
    requires WellFormed(w) && Outcomes(w, fails) && Run(w, fails, run) && n < |run|
    requires run[n].threads != []
    ensures Step(w, fails, run[n], next)
  {
    RunKeepsInv(w, fails, run, n);
    var s := run[n];
    assert s.threads[0] in s.threads;
    var t := s.threads[0];
    var d: nat := 0;
    if t.Skipping? && t.todo != {} {
      d :| d in t.todo;
    } else if t.Unlocking? && t.todo != {} {
      d :| d in t.todo;
    }
    var e := Advance(w, fails, s.st, t, d);
    next := State(e.st, s.threads[..0] + e.threads + s.threads[1..], s.queued + e.queued);
    assert StepOf(w, fails, s, next, 0, d);
  }
}
