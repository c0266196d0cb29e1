/** Why progress is claimed for forests only: a workflow whose run comes to rest with a READY job left. */
module MultiParent {
  import opened Common
  import opened Graphs
  import opened Workflows
  import opened SchedulerMachine
  import opened ExecuteRuns
  import opened ArrayDependencies
  import Chain

  const NO_FAILURES: seq<nat> := [0, 0, 0]

  lemma DiamondIsWellFormed()
    ensures WellFormed(DIAMOND) && Outcomes(DIAMOND, NO_FAILURES)
  {
    var g, order := DependencyGraph(DIAMOND), [0, 2, 1];
    assert g[0] == [] && g[1] == [0, 2] && g[2] == [0];
    DiamondOrdered(g, order);
    OrderedIsAcyclic(g, order);
  }

  lemma DiamondOrdered(g: Graph<nat>, order: seq<nat>)
    requires g == map[0 := [], 1 := [0, 2], 2 := [0]] && order == [0, 2, 1]
    ensures DependenciesFirst(g, order) && forall v :: v in g ==> v in order
  {
    assert order[..1] == [0] && order[..2] == [0, 2];
    assert 0 in order && 1 in order && 2 in order by {
      assert order[0] == 0 && order[2] == 1 && order[1] == 2;
    }
  }

  lemma DiamondRoots()
    ensures Siblings(DIAMOND, None) == [0]
  {
    var roots := Siblings(DIAMOND, None);
    assert IsUnder(DIAMOND, None, 0) && 0 in roots;
    hide Siblings;
    assert forall i :: 0 <= i < |roots| ==> roots[i] == 0;
    assert |roots| == 1;
  }

  lemma DiamondChildren()
    ensures Siblings(DIAMOND, Some(0)) == [1, 2]
  {
    hide Siblings;
    var s := Siblings(DIAMOND, Some(0));
    assert IsUnder(DIAMOND, Some(0), 1) && IsUnder(DIAMOND, Some(0), 2);
    assert 1 in s && 2 in s;
    var one :| 0 <= one < |s| && s[one] == 1;
    var two :| 0 <= two < |s| && s[two] == 2;
    if two < one {
      SiblingsOrder(DIAMOND, Some(0), two, one);
      assert false;
    }
    OneThenTwo(s, one, two);
  }

  lemma OneThenTwo(s: seq<nat>, one: nat, two: nat)
    requires Distinct(s) && (forall i :: 0 <= i < |s| ==> s[i] == 1 || s[i] == 2)
    requires one < two < |s| && s[one] == 1 && s[two] == 2
    ensures s == [1, 2]
  {
    ghost var third := if |s| > 2 then s[2] else 0;
    assert third != s[0] && third != s[1] && third != 1 && third != 2;
    assert |s| == 2;
  }

  lemma DiamondPicks()
    requires WellFormed(DIAMOND)
    ensures PickNextJob(DIAMOND, [READY, WAITING_FOR_DEPENDENCIES, WAITING_FOR_DEPENDENCIES]) == Some(0)
    ensures PickNextJob(DIAMOND, [COMPLETED, WAITING_FOR_DEPENDENCIES, READY]) == None
  {
    DiamondRoots();
    DiamondChildren();
    hide Siblings;
    var rows := [COMPLETED, WAITING_FOR_DEPENDENCIES, READY];
    assert Search(DIAMOND, rows, Some(0), 0) == None;
    assert Search(DIAMOND, rows, None, 1) == None;
  }

  /**
   * A submission that is accepted, and a full run of what is stored for it: the root completes, and the
   * READY job 2 is never queued.
   */
  lemma StalledRun() returns (run: seq<State>)
    ensures Chain.Rejection(TWO_PARENTS).None? && Chain.AllStorable(TWO_PARENTS)
    ensures Chain.Stored(TWO_PARENTS, |TWO_PARENTS|) == DIAMOND
    ensures WellFormed(DIAMOND) && Outcomes(DIAMOND, NO_FAILURES) && Run(DIAMOND, NO_FAILURES, run)
    ensures run[|run| - 1] == State([COMPLETED, WAITING_FOR_DEPENDENCIES, READY], [], [0])
  {
    TwoParentsStored();
    hide Chain.Rejection, Chain.AllStorable, Chain.Stored;
    DiamondIsWellFormed();
    var handed: State;
    run, handed := FirstSchedule();
    run := Onward(run, Init(DIAMOND), handed);
    PathIsRun(run, State([COMPLETED, WAITING_FOR_DEPENDENCIES, READY], [], [0]));
  }

  lemma FirstSchedule() returns (run: seq<State>, handed: State)
    requires WellFormed(DIAMOND) && Outcomes(DIAMOND, NO_FAILURES)
    ensures handed == State([QUEUED, WAITING_FOR_DEPENDENCIES, WAITING_FOR_DEPENDENCIES], [Handed(0, 0)], [0])
    ensures Path(DIAMOND, NO_FAILURES, run, Init(DIAMOND), handed)
  {
    DiamondPicks();
    DiamondStarts();
    hide PickNextJob, WellFormed, Path;
    run := QueuesFirst(DIAMOND, NO_FAILURES, 0);
    handed := State([QUEUED, WAITING_FOR_DEPENDENCIES, WAITING_FOR_DEPENDENCIES], [Handed(0, 0)], [0]);
    assert Init(DIAMOND).st[0 := QUEUED] == handed.st;
  }

  lemma QueuesFirst(w: Workflow, fails: seq<nat>, c: nat) returns (run: seq<State>)
    requires WellFormed(w) && Outcomes(w, fails) && w.IsJob(c) && PickNextJob(w, Init(w).st) == Some(c)
    ensures Path(w, fails, run, Init(w), State(Init(w).st[c := QUEUED], [Handed(c, 0)], [c]))
  {
    hide PickNextJob, WellFormed;
    var start := Init(w);
    assert Path(w, fails, [start], start, start);
    hide Path;
    run := ScheduleLoop(w, fails, [start], start, start, Finished);
    assert !AnyActive(start.st);
    assert [c] + [] == [c] && [Handed(c, 0)] + [] == [Handed(c, 0)] && start.queued + [c] == [c];
  }

  lemma DiamondStarts()
    ensures Init(DIAMOND) ==
      State([READY, WAITING_FOR_DEPENDENCIES, WAITING_FOR_DEPENDENCIES], [Counting(Finished)], [])
  {
    assert InitialStatuses(DIAMOND) == [READY, WAITING_FOR_DEPENDENCIES, WAITING_FOR_DEPENDENCIES];
  }

  lemma PathIsRun(run: seq<State>, s: State)
    requires WellFormed(DIAMOND) && Outcomes(DIAMOND, NO_FAILURES)
    requires Path(DIAMOND, NO_FAILURES, run, Init(DIAMOND), s)
    ensures Run(DIAMOND, NO_FAILURES, run) && run[|run| - 1] == s
  {
    hide Step, HasCycle;
  }

  lemma Onward(before: seq<State>, start: State, handed: State) returns (run: seq<State>)
    requires WellFormed(DIAMOND) && Outcomes(DIAMOND, NO_FAILURES)
    requires handed == State([QUEUED, WAITING_FOR_DEPENDENCIES, WAITING_FOR_DEPENDENCIES], [Handed(0, 0)], [0])
    requires Path(DIAMOND, NO_FAILURES, before, start, handed)
    ensures Path(DIAMOND, NO_FAILURES, run, start, State([COMPLETED, WAITING_FOR_DEPENDENCIES, READY], [], [0]))
  {
    hide PickNextJob, Siblings, Step, HasCycle, Path, Chain.UnlockAll, Chain.SkipAll, WellFormed, Closed, DependencyGraph;
    DiamondPicks();
    DiamondUnlocks();
    var w, o := DIAMOND, NO_FAILURES;
    var rows := [COMPLETED, WAITING_FOR_DEPENDENCIES, READY];
    var delivery := DeliveryIsRun(w, o, handed, 0, 0);
    assert handed.st[0 := PROCESSING][0 := COMPLETED]
        == [COMPLETED, WAITING_FOR_DEPENDENCIES, WAITING_FOR_DEPENDENCIES];
    assert DeliveredRows(w, o, handed.st, 0, 0) == rows;
    var counting := State(rows, [Counting(Finished)], [0]);
    run := Join(w, o, before, delivery, start, handed, counting);
    assert [0] + [] == [0];
    NothingScheduled(w, rows);
    run := ScheduleLoop(w, o, run, start, counting, Finished);
  }

  lemma NothingScheduled(w: Workflow, st: seq<Status>)
    requires WellFormed(w) && |st| == |w.jobs| && PickNextJob(w, st).None?
    ensures ScheduledRows(w, st) == st && Scheduled(w, st) == [] && HandedOn(Scheduled(w, st), Finished) == []
  {
    hide PickNextJob, WellFormed;
  }

  lemma DiamondUnlocks()
    requires WellFormed(DIAMOND)
    ensures Chain.UnlockAll(DIAMOND, [COMPLETED, WAITING_FOR_DEPENDENCIES, WAITING_FOR_DEPENDENCIES], 0)
         == [COMPLETED, WAITING_FOR_DEPENDENCIES, READY]
  {
    var st := [COMPLETED, WAITING_FOR_DEPENDENCIES, WAITING_FOR_DEPENDENCIES];
    assert 2 in DIAMOND.jobs[1].parents && st[2] != COMPLETED;
    assert !ParentsCompleted(DIAMOND, st, 1);
    assert ParentsCompleted(DIAMOND, st, 2);
  }

  lemma Join(w: Workflow, fails: seq<nat>, a: seq<State>, b: seq<State>, s: State, mid: State, s': State) returns (run: seq<State>)
    requires WellFormed(w) && Outcomes(w, fails)
    requires Path(w, fails, a, s, mid) && Path(w, fails, b, mid, s')
    ensures Path(w, fails, run, s, s')
  {
    run := a + b[1..];
    forall i, j | 0 <= i < j < |run| && j == i + 1 ensures Step(w, fails, run[i], run[j]) {
      if j < |a| {
        assert Step(w, fails, a[i], a[j]);
      } else {
        assert run[i] == b[i - |a| + 1] && run[j] == b[j - |a| + 1];
      }
    }
  }
}
