/**
 * Run order, progress and stopping for forest workflows: the search from scratch refines the
 * reference order, through every intermediate step of the scheduler and the attempt loop.
 */
module RunOrder {
  import opened Common
  import opened Graphs
  import opened Workflows
  import opened SchedulerMachine
  import opened WorkflowRuns
  import opened Forests

  /** Job rows between two jobs: nothing active, nothing waiting for an unlock that is still due. */
  ghost predicate Settled(w: Workflow, fails: seq<nat>, st: seq<Status>)
    requires WellFormed(w) && Outcomes(w, fails)
  {
    && |st| == |w.jobs|
    && DependencySafe(w, st) && SkipsExplained(w, fails, st)
    && (forall j :: 0 <= j < |st| ==> !Active(st[j]) && st[j] != SCHEDULED)
    && (forall j {:trigger ParentsCompleted(w, st, j)} ::
          0 <= j < |st| && st[j] == WAITING_FOR_DEPENDENCIES ==> !ParentsCompleted(w, st, j))
  }

  lemma SettledShape(w: Workflow, fails: seq<nat>, st: seq<Status>)
    requires Instance(w, fails) && Settled(w, fails, st)
    ensures WellFormed(w) && Outcomes(w, fails) && |st| == |w.jobs|
  {
  }

  predicate Open(w: Workflow, st: seq<Status>, q: Place)
    requires |st| == |w.jobs| && IsPlace(w, q)
  {
    q.Some? ==> st[q.value] == COMPLETED
  }

  // ---------- the search finds the head of what remains ----------

  lemma {:induction false} NothingBelowUnfinished(w: Workflow, fails: seq<nat>, st: seq<Status>, p: nat, i: nat)
    requires WellFormed(w) && |st| == |w.jobs| && DependencySafe(w, st)
    requires forall j :: 0 <= j < |st| ==> st[j] != SCHEDULED
    requires w.IsJob(p) && st[p] != COMPLETED && i <= |Siblings(w, Some(p))|
    ensures Search(w, st, Some(p), i).None?
    decreases Height(w, Some(p)), |Siblings(w, Some(p))| - i
  {
    if i < |Siblings(w, Some(p))| {
      var x := Siblings(w, Some(p))[i];
      NotCompletedBlocksChildren(w, st, p, x);
      Descends(w, Some(p), x);
      if st[x] == SKIPPED {
        NothingBelowUnfinished(w, fails, st, x, 0);
        NothingBelowUnfinished(w, fails, st, p, i + 1);
      }
    }
  }

  lemma OpenSibling(w: Workflow, fails: seq<nat>, st: seq<Status>, q: Place, x: nat)
    requires Instance(w, fails) && Settled(w, fails, st) && IsPlace(w, q) && Open(w, st, q)
    requires w.IsJob(x) && IsUnder(w, q, x)
    ensures st[x] in {READY, COMPLETED, FAILED, SKIPPED}
  {
    SiblingDepth(w, q, x);
    assert ParentsCompleted(w, st, x);
  }

  predicate FindsHead(w: Workflow, fails: seq<nat>, st: seq<Status>, q: Place, i: nat)
    requires WellFormed(w) && Outcomes(w, fails) && |st| == |w.jobs| && IsPlace(w, q) && i <= |Siblings(w, q)|
  {
    var rest := Remaining(w, fails, st, q, i);
    Search(w, st, q, i) == if rest == [] then None else Some(rest[0])
  }

  lemma HeadFromRest(w: Workflow, fails: seq<nat>, st: seq<Status>, q: Place, i: nat)
    requires WellFormed(w) && Outcomes(w, fails) && |st| == |w.jobs| && IsPlace(w, q) && i < |Siblings(w, q)|
    requires FindsHead(w, fails, st, q, i + 1)
    requires var x := Siblings(w, q)[i];
      || st[x] == READY || st[x] == FAILED
      || (st[x] == SKIPPED && Search(w, st, Some(x), 0).None?)
      || (st[x] == COMPLETED && FindsHead(w, fails, st, Some(x), 0))
    ensures FindsHead(w, fails, st, q, i)
  {
  }

  /** From any open place on, the search returns the first job that remains, and none if none does. */
  lemma {:induction false} SearchFindsHead(w: Workflow, fails: seq<nat>, st: seq<Status>, q: Place, i: nat)
    requires Instance(w, fails) && Settled(w, fails, st) && IsPlace(w, q) && Open(w, st, q)
    requires i <= |Siblings(w, q)|
    ensures FindsHead(w, fails, st, q, i)
    decreases Height(w, q), |Siblings(w, q)| - i
  {
    if i < |Siblings(w, q)| {
      var x := Siblings(w, q)[i];
      OpenSibling(w, fails, st, q, x);
      Descends(w, q, x);
      if st[x] == COMPLETED {
        SearchFindsHead(w, fails, st, Some(x), 0);
      } else if st[x] == SKIPPED {
        NothingBelowUnfinished(w, fails, st, x, 0);
      }
      SearchFindsHead(w, fails, st, q, i + 1);
      HeadFromRest(w, fails, st, q, i);
    }
  }

  // ---------- running one job to its end removes the head ----------

  function OutcomeAt(w: Workflow, fails: seq<nat>, st: seq<Status>, c: nat, d: nat): Status
    requires Outcomes(w, fails) && |st| == |w.jobs| && w.IsJob(c) && w.IsJob(d)
  {
    if d == c then (if Succeeds(w, fails, c) then COMPLETED else FAILED)
    else if !IsChild(w, c, d) then st[d]
    else if fails[c] > 0 && w.jobs[d].strict then SKIPPED
    else if Succeeds(w, fails, c) && st[d] == WAITING_FOR_DEPENDENCIES then READY
    else st[d]
  }

  /** The job rows once c and its last handler are done. */
  function Outcome(w: Workflow, fails: seq<nat>, st: seq<Status>, c: nat): (st': seq<Status>)
    requires Outcomes(w, fails) && |st| == |w.jobs| && w.IsJob(c)
    ensures |st'| == |st| && forall d :: 0 <= d < |st| ==> st'[d] == OutcomeAt(w, fails, st, c, d)
  {
    seq(|st|, d requires 0 <= d < |st| => OutcomeAt(w, fails, st, c, d))
  }

  // Siblings freshly unlocked or skipped have all of their plan ahead.
  lemma {:induction false} FreshPlaceRemains(w: Workflow, fails: seq<nat>, st: seq<Status>, q: Place, i: nat)
    requires Instance(w, fails) && |st| == |w.jobs| && IsPlace(w, q) && i <= |Siblings(w, q)|
    requires forall k :: i <= k < |Siblings(w, q)| ==>
      st[Siblings(w, q)[k]] == if IsSkipped(w, fails, q, Siblings(w, q)[k]) then SKIPPED else READY
    ensures Remaining(w, fails, st, q, i) == Plan(w, fails, q, i)
    decreases |Siblings(w, q)| - i
  {
    hide Siblings, WellFormed, PlanOf, Height;
    if i < |Siblings(w, q)| {
      FreshPlaceRemains(w, fails, st, q, i + 1);
    }
  }

  lemma UntouchedSibling(w: Workflow, fails: seq<nat>, st: seq<Status>, c: nat, q: Place, x: nat)
    requires Instance(w, fails) && Settled(w, fails, st) && IsPlace(w, q) && Open(w, st, q)
    requires w.IsJob(c) && st[c] == READY && w.IsJob(x) && IsUnder(w, q, x) && x != c
    ensures Outcome(w, fails, st, c)[x] == st[x]
  {
    SiblingDepth(w, q, x);
  }

  lemma NotInRemaining(w: Workflow, fails: seq<nat>, st: seq<Status>, q: Place, i: nat, c: nat)
    requires WellFormed(w) && Outcomes(w, fails) && |st| == |w.jobs| && IsPlace(w, q) && i < |Siblings(w, q)|
    requires c !in Remaining(w, fails, st, q, i)
    ensures c !in Branch(w, fails, st, q, i) && c !in Remaining(w, fails, st, q, i + 1)
  {
    RemainingUnfolds(w, fails, st, q, i);
  }

  lemma BranchRemains(w: Workflow, fails: seq<nat>, st: seq<Status>, q: Place, i: nat, c: nat)
    requires WellFormed(w) && Outcomes(w, fails) && |st| == |w.jobs| && IsPlace(w, q) && i < |Siblings(w, q)|
    requires c in Branch(w, fails, st, q, i)
    ensures c in Remaining(w, fails, st, q, i)
  {
    RemainingUnfolds(w, fails, st, q, i);
  }

  lemma RestRemains(w: Workflow, fails: seq<nat>, st: seq<Status>, q: Place, i: nat, c: nat)
    requires WellFormed(w) && Outcomes(w, fails) && |st| == |w.jobs| && IsPlace(w, q) && i < |Siblings(w, q)|
    requires c in Remaining(w, fails, st, q, i + 1)
    ensures c in Remaining(w, fails, st, q, i)
  {
    RemainingUnfolds(w, fails, st, q, i);
  }

  lemma RemainingSame(w: Workflow, fails: seq<nat>, st: seq<Status>, st': seq<Status>, q: Place, i: nat)
    requires WellFormed(w) && Outcomes(w, fails) && |st| == |st'| == |w.jobs| && IsPlace(w, q) && i < |Siblings(w, q)|
    requires Branch(w, fails, st, q, i) == Branch(w, fails, st', q, i)
    requires Remaining(w, fails, st, q, i + 1) == Remaining(w, fails, st', q, i + 1)
    ensures Remaining(w, fails, st, q, i) == Remaining(w, fails, st', q, i)
  {
    RemainingUnfolds(w, fails, st, q, i);
    RemainingUnfolds(w, fails, st', q, i);
  }

  lemma RemainingAtEnd(w: Workflow, fails: seq<nat>, st: seq<Status>, q: Place)
    requires WellFormed(w) && Outcomes(w, fails) && |st| == |w.jobs| && IsPlace(w, q)
    ensures Remaining(w, fails, st, q, |Siblings(w, q)|) == []
  {
  }

  lemma {:induction false} OtherBranchesKeep(w: Workflow, fails: seq<nat>, st: seq<Status>, c: nat, q: Place, i: nat)
    requires Instance(w, fails) && Settled(w, fails, st) && IsPlace(w, q) && Open(w, st, q)
    requires w.IsJob(c) && st[c] == READY && i <= |Siblings(w, q)|
    requires c !in Remaining(w, fails, st, q, i)
    ensures Remaining(w, fails, Outcome(w, fails, st, c), q, i) == Remaining(w, fails, st, q, i)
    decreases Height(w, q), |Siblings(w, q)| - i, 1
  {
    hide Siblings, WellFormed, Remaining, Height, Settled, Outcome, Branch, IsUnder, OutcomeAt, Instance;
    SettledShape(w, fails, st);
    if i == |Siblings(w, q)| {
      RemainingAtEnd(w, fails, st, q);
      RemainingAtEnd(w, fails, Outcome(w, fails, st, c), q);
    } else {
      NotInRemaining(w, fails, st, q, i, c);
      OtherBranchKeeps(w, fails, st, c, q, i);
      OtherBranchesKeep(w, fails, st, c, q, i + 1);
      RemainingSame(w, fails, st, Outcome(w, fails, st, c), q, i);
    }
  }

  lemma {:induction false} OtherBranchKeeps(w: Workflow, fails: seq<nat>, st: seq<Status>, c: nat, q: Place, i: nat)
    requires Instance(w, fails) && Settled(w, fails, st) && IsPlace(w, q) && Open(w, st, q)
    requires w.IsJob(c) && st[c] == READY && i < |Siblings(w, q)|
    requires c !in Branch(w, fails, st, q, i)
    ensures Branch(w, fails, Outcome(w, fails, st, c), q, i) == Branch(w, fails, st, q, i)
    decreases Height(w, q), |Siblings(w, q)| - i, 0
  {
    hide Siblings, WellFormed, Remaining, Plan;
    var x := Siblings(w, q)[i];
    Descends(w, q, x);
    assert x != c by {
      assert x in PlanOf(w, fails, q, x);
    }
    UntouchedSibling(w, fails, st, c, q, x);
    if st[x] == COMPLETED {
      OtherBranchesKeep(w, fails, st, c, Some(x), 0);
    }
  }

  // The children of the job that has just run are exactly the fresh ones.
  lemma FinishedJobFeedsPlan(w: Workflow, fails: seq<nat>, st: seq<Status>, c: nat)
    requires Instance(w, fails) && Settled(w, fails, st) && w.IsJob(c) && st[c] == READY && Succeeds(w, fails, c)
    ensures Remaining(w, fails, Outcome(w, fails, st, c), Some(c), 0) == Plan(w, fails, Some(c), 0)
  {
    forall k | 0 <= k < |Siblings(w, Some(c))|
      ensures var d := Siblings(w, Some(c))[k];
        Outcome(w, fails, st, c)[d] == if IsSkipped(w, fails, Some(c), d) then SKIPPED else READY
    {
      var d := Siblings(w, Some(c))[k];
      SiblingDepth(w, Some(c), d);
      NotCompletedBlocksChildren(w, st, c, d);
    }
    FreshPlaceRemains(w, fails, Outcome(w, fails, st, c), Some(c), 0);
  }

  lemma {:induction false} HeadRuns(w: Workflow, fails: seq<nat>, st: seq<Status>, c: nat, q: Place, i: nat)
    requires Instance(w, fails) && Settled(w, fails, st) && IsPlace(w, q) && Open(w, st, q)
    requires w.IsJob(c) && st[c] == READY && i <= |Siblings(w, q)|
    requires Remaining(w, fails, st, q, i) != [] && Remaining(w, fails, st, q, i)[0] == c
    ensures Remaining(w, fails, Outcome(w, fails, st, c), q, i) == Remaining(w, fails, st, q, i)[1..]
    decreases Height(w, q), |Siblings(w, q)| - i, 1
  {
    hide Remaining;
    HeadInBranchOrRest(w, fails, st, q, i, c);
    if Branch(w, fails, st, q, i) == [] {
      OtherBranchKeeps(w, fails, st, c, q, i);
      HeadRuns(w, fails, st, c, q, i + 1);
    } else {
      BranchRuns(w, fails, st, c, q, i);
      RestElsewhere(w, fails, st, q, i, c);
      OtherBranchesKeep(w, fails, st, c, q, i + 1);
    }
    RemainingShrinks(w, fails, st, Outcome(w, fails, st, c), q, i);
  }

  lemma HeadInBranchOrRest(w: Workflow, fails: seq<nat>, st: seq<Status>, q: Place, i: nat, c: nat)
    requires WellFormed(w) && Outcomes(w, fails) && |st| == |w.jobs| && IsPlace(w, q) && i <= |Siblings(w, q)|
    requires Remaining(w, fails, st, q, i) != [] && Remaining(w, fails, st, q, i)[0] == c
    ensures i < |Siblings(w, q)|
    ensures var b, r := Branch(w, fails, st, q, i), Remaining(w, fails, st, q, i + 1);
      if b == [] then r != [] && r[0] == c else b[0] == c
  {
    RemainingUnfolds(w, fails, st, q, i);
  }

  lemma RemainingShrinks(w: Workflow, fails: seq<nat>, st: seq<Status>, st': seq<Status>, q: Place, i: nat)
    requires WellFormed(w) && Outcomes(w, fails) && |st| == |st'| == |w.jobs| && IsPlace(w, q) && i < |Siblings(w, q)|
    requires Remaining(w, fails, st, q, i) != []
    requires var b, r := Branch(w, fails, st, q, i), Remaining(w, fails, st, q, i + 1);
      var b', r' := Branch(w, fails, st', q, i), Remaining(w, fails, st', q, i + 1);
      if b == [] then r != [] && b' == b && r' == r[1..] else b' == b[1..] && r' == r
    ensures Remaining(w, fails, st', q, i) == Remaining(w, fails, st, q, i)[1..]
  {
    RemainingUnfolds(w, fails, st, q, i);
    RemainingUnfolds(w, fails, st', q, i);
  }

  // The head lies in the i-th sibling's own branch.
  lemma {:induction false} BranchRuns(w: Workflow, fails: seq<nat>, st: seq<Status>, c: nat, q: Place, i: nat)
    requires Instance(w, fails) && Settled(w, fails, st) && IsPlace(w, q) && Open(w, st, q)
    requires w.IsJob(c) && st[c] == READY && i < |Siblings(w, q)|
    requires Branch(w, fails, st, q, i) != [] && Branch(w, fails, st, q, i)[0] == c
    ensures Branch(w, fails, Outcome(w, fails, st, c), q, i) == Branch(w, fails, st, q, i)[1..]
    ensures InSubtree(w, Siblings(w, q)[i], c)
    decreases Height(w, q), |Siblings(w, q)| - i, 0
  {
    hide Siblings, WellFormed, Remaining;
    var x := Siblings(w, q)[i];
    Descends(w, q, x);
    if st[x] == READY {
      if Succeeds(w, fails, c) {
        FinishedJobFeedsPlan(w, fails, st, c);
      }
    } else {
      UntouchedSibling(w, fails, st, c, q, x);
      HeadRuns(w, fails, st, c, Some(x), 0);
      var k := RemainingInside(w, fails, st, Some(x), 0, c);
      SubtreeUp(w, x, Siblings(w, Some(x))[k], c);
    }
  }

  // ---------- intermediate steps do not change what the run will have done ----------

  /** The job rows once the job in flight, if any, has ended. */
  function Projected(w: Workflow, fails: seq<nat>, s: State): (st: seq<Status>)
    requires WellFormed(w) && Outcomes(w, fails) && |s.st| == |w.jobs|
    ensures |st| == |s.st|
  {
    if s.threads == [] || Current(s.threads[0]).None? || !w.IsJob(Current(s.threads[0]).value) then s.st
    else Outcome(w, fails, s.st, Current(s.threads[0]).value)
  }

  lemma SettledWhenIdle(w: Workflow, fails: seq<nat>, s: State)
    requires WellFormed(w) && Outcomes(w, fails) && Inv(w, fails, s)
    requires s.threads == [] || Current(s.threads[0]).None?
    ensures Settled(w, fails, s.st)
  {
  }

  lemma SameOutcome(w: Workflow, fails: seq<nat>, st: seq<Status>, st': seq<Status>, c: nat)
    requires Outcomes(w, fails) && |st| == |st'| == |w.jobs| && w.IsJob(c)
    requires forall d :: 0 <= d < |st| && d != c ==> OutcomeAt(w, fails, st, c, d) == OutcomeAt(w, fails, st', c, d)
    ensures Outcome(w, fails, st, c) == Outcome(w, fails, st', c)
  {
  }

  lemma AttemptKeepsProjection(w: Workflow, fails: seq<nat>, s: State, j: nat, k: nat)
    requires Instance(w, fails) && Inv(w, fails, s) && w.IsJob(j)
    ensures s.threads == [Handed(j, k)] ==>
      Outcome(w, fails, s.st[j := PROCESSING], j) == Outcome(w, fails, s.st, j)
    ensures s.threads == [Running(j, k)] ==>
      && Outcome(w, fails, s.st[j := COMPLETED], j) == Outcome(w, fails, s.st, j)
      && Outcome(w, fails, s.st[j := FAILED], j) == Outcome(w, fails, s.st, j)
  {
    SameOutcome(w, fails, s.st, s.st[j := PROCESSING], j);
    SameOutcome(w, fails, s.st, s.st[j := COMPLETED], j);
    SameOutcome(w, fails, s.st, s.st[j := FAILED], j);
  }

  lemma SkipKeepsProjection(w: Workflow, fails: seq<nat>, st: seq<Status>, j: nat, d: nat)
    requires Instance(w, fails) && |st| == |w.jobs| && w.IsJob(j) && fails[j] > 0 && IsChild(w, j, d) && d != j
    ensures Outcome(w, fails, SkipOne(w, st, d), j) == Outcome(w, fails, st, j)
  {
    SameOutcome(w, fails, st, SkipOne(w, st, d), j);
  }

  lemma UnlockKeepsProjection(w: Workflow, fails: seq<nat>, st: seq<Status>, j: nat, d: nat)
    requires Instance(w, fails) && |st| == |w.jobs| && w.IsJob(j) && Succeeds(w, fails, j) && IsChild(w, j, d) && d != j
    requires 0 < fails[j] ==> StrictChildrenSkipped(w, st, j, {})
    ensures Outcome(w, fails, UnlockOne(w, st, d), j) == Outcome(w, fails, st, j)
  {
    assert d in Children(w, j);
    SameOutcome(w, fails, st, UnlockOne(w, st, d), j);
  }

  // Once its last handler is done, a job's outcome is what the table already says.
  lemma HandledOutcome(w: Workflow, fails: seq<nat>, s: State, j: nat)
    requires Instance(w, fails) && Inv(w, fails, s) && w.IsJob(j)
    requires (exists k :: s.threads == [Skipping(j, k, true, {})]) || s.threads == [Unlocking(j, {})]
    ensures Outcome(w, fails, s.st, j) == s.st
  {
    assert s.threads[0] in s.threads;
    forall d | 0 <= d < |s.st| ensures OutcomeAt(w, fails, s.st, j, d) == s.st[d] {
      if IsChild(w, j, d) {
        SiblingDepth(w, Some(j), d);
        assert d in Children(w, j);
        assert s.st[j] == COMPLETED ==> ParentsCompleted(w, s.st, d);
      }
    }
  }

  lemma NoSelfParent(w: Workflow, j: nat, d: nat)
    requires WellFormed(w) && w.IsJob(j) && IsChild(w, j, d)
    ensures d != j
  {
    Descends(w, Some(j), d);
  }

  /** Apart from the QUEUED update itself, no step changes what the run will have done. */
  lemma StepKeepsProjection(w: Workflow, fails: seq<nat>, s: State, s': State, d: nat)
    requires Instance(w, fails) && Inv(w, fails, s) && s.threads != [] && Follows(w, fails, s, s', d)
    requires !s.threads[0].Marking?
    ensures |s'.st| == |w.jobs| && Projected(w, fails, s') == Projected(w, fails, s) && s'.queued == s.queued
  {
    hide PickNextJob, WellFormed, Outcome, UnlockOne, SkipOne, DependencySafe, SkipsExplained, Unlocked, QueuedOnce;
    assert s.threads[0] in s.threads;
    match s.threads[0]
    case Handed(j, k) => AttemptKeepsProjection(w, fails, s, j, k);
    case Running(j, k) => AttemptKeepsProjection(w, fails, s, j, k);
    case Skipping(j, k, final, todo) =>
      if d in todo {
        NoSelfParent(w, j, d);
        SkipKeepsProjection(w, fails, s.st, j, d);
      } else if final {
        HandledOutcome(w, fails, s, j);
      }
    case Unlocking(j, todo) =>
      if d in todo {
        NoSelfParent(w, j, d);
        UnlockKeepsProjection(w, fails, s.st, j, d);
      } else {
        HandledOutcome(w, fails, s, j);
      }
    case Counting(r) => CountingStep(w, fails, s, r);
    case Picking(r) =>
    case Submitting(c, r) =>
  }

  lemma MarkingTakesHead(w: Workflow, fails: seq<nat>, s: State, c: nat)
    requires Instance(w, fails) && Inv(w, fails, s) && s.threads == [Marking(c, Finished)]
    ensures w.IsJob(c)
    ensures var todo := Remaining(w, fails, s.st, None, 0);
      todo != [] && todo[0] == c && Remaining(w, fails, Outcome(w, fails, s.st[c := QUEUED], c), None, 0) == todo[1..]
  {
    hide Remaining, Height, Siblings, Search, Settled, Outcome, WellFormed, DependencySafe, Unlocked, QueuedOnce;
    assert s.threads[0] in s.threads;
    SettledWhenIdle(w, fails, s);
    SearchFindsHead(w, fails, s.st, None, 0);
    HeadRuns(w, fails, s.st, c, None, 0);
    SameOutcome(w, fails, s.st, s.st[c := QUEUED], c);
  }

  lemma MarkingFollowsPlan(w: Workflow, fails: seq<nat>, s: State, s': State, c: nat)
    requires Instance(w, fails) && Inv(w, fails, s) && s.threads == [Marking(c, Finished)] && w.IsJob(c)
    requires s' == State(s.st[c := QUEUED], [Submitting(c, Finished)], s.queued + [c]) && OnPlan(w, fails, s)
    ensures OnPlan(w, fails, s')
  {
    hide Remaining, Plan;
    MarkingTakesHead(w, fails, s, c);
    assert Projected(w, fails, s) == s.st;
    assert Projected(w, fails, s') == Outcome(w, fails, s'.st, c);
    MoveHead(s.queued, c, Remaining(w, fails, s.st, None, 0));
  }

  lemma MoveHead(done: seq<nat>, c: nat, todo: seq<nat>)
    requires todo != [] && todo[0] == c
    ensures (done + [c]) + todo[1..] == done + todo
  {
  }

  lemma StepFollowsPlan(w: Workflow, fails: seq<nat>, s: State, s': State)
    requires Instance(w, fails) && Inv(w, fails, s) && Step(w, fails, s, s') && OnPlan(w, fails, s)
    ensures OnPlan(w, fails, s')
  {
    var i, d :| StepOf(w, fails, s, s', i, d);
    OnlyThread(w, fails, s, s', i, d);
    assert s.threads[0] in s.threads;
    if s.threads[0].Marking? {
      MarkingFollowsPlan(w, fails, s, s', s.threads[0].picked);
    } else {
      StepKeepsProjection(w, fails, s, s', d);
    }
  }

  /** Queued so far, followed by what remains, is the reference order. */
  ghost predicate OnPlan(w: Workflow, fails: seq<nat>, s: State)
    requires WellFormed(w) && Outcomes(w, fails)
  {
    && |s.st| == |w.jobs|
    && s.queued + Remaining(w, fails, Projected(w, fails, s), None, 0) == Plan(w, fails, None, 0)
  }

  lemma InitOnPlan(w: Workflow, fails: seq<nat>)
    requires Instance(w, fails)
    ensures OnPlan(w, fails, Init(w))
  {
    FreshPlaceRemains(w, fails, Init(w).st, None, 0);
  }

  /** Run-order refinement: every reachable state of every run of a forest workflow is on plan. */
  lemma {:induction false} RunFollowsPlan(w: Workflow, fails: seq<nat>, run: seq<State>, n: nat)
    requires Instance(w, fails) && Run(w, fails, run) && n < |run|
    ensures OnPlan(w, fails, run[n])
  {
    hide OnPlan, PhaseOk, Step, WellFormed, Unlocked, DependencySafe;
    if n == 0 {
      InitOnPlan(w, fails);
    } else {
      RunFollowsPlan(w, fails, run, n - 1);
      RunKeepsInv(w, fails, run, n - 1);
      StepFollowsPlan(w, fails, run[n - 1], run[n]);
    }
  }

  /** A run that has come to rest has queued exactly the reference order. */
  lemma FinishedRunIsPlan(w: Workflow, fails: seq<nat>, run: seq<State>, n: nat)
    requires Instance(w, fails) && Run(w, fails, run) && n < |run| && run[n].threads == []
    ensures run[n].queued == Plan(w, fails, None, 0)
  {
    RunFollowsPlan(w, fails, run, n);
    RunKeepsInv(w, fails, run, n);
    SettledWhenIdle(w, fails, run[n]);
    SearchFindsHead(w, fails, run[n].st, None, 0);
  }

  // ---------- progress and stopping ----------

  lemma {:induction false} BranchFeedsPlace(w: Workflow, fails: seq<nat>, st: seq<Status>, q: Place, i: nat, k: nat, r: nat)
    requires WellFormed(w) && Outcomes(w, fails) && |st| == |w.jobs| && IsPlace(w, q)
    requires i <= k < |Siblings(w, q)| && r in Branch(w, fails, st, q, k)
    ensures r in Remaining(w, fails, st, q, i)
    decreases k - i
  {
    hide Remaining;
    if i == k {
      BranchRemains(w, fails, st, q, i, r);
    } else {
      BranchFeedsPlace(w, fails, st, q, i + 1, k, r);
      RestRemains(w, fails, st, q, i, r);
    }
  }

  // A READY job remains to be run, seen from every ancestor.
  lemma {:induction false} ReadyRemains(w: Workflow, fails: seq<nat>, st: seq<Status>, j: nat, r: nat)
    requires Instance(w, fails) && Settled(w, fails, st) && w.IsJob(j)
    requires (j == r && st[r] == READY) || (st[j] == COMPLETED && r in Remaining(w, fails, st, Some(j), 0))
    ensures r in Remaining(w, fails, st, None, 0)
    decreases Level(w, j)
  {
    hide Remaining, Height, Siblings, WellFormed;
    var q := ParentPlace(w, j);
    Descends(w, q, j);
    assert j in Siblings(w, q);
    var k :| 0 <= k < |Siblings(w, q)| && Siblings(w, q)[k] == j;
    BranchFeedsPlace(w, fails, st, q, 0, k, r);
    if q.Some? {
      assert ParentsCompleted(w, st, j);
      ReadyRemains(w, fails, st, q.value, r);
    }
  }

  predicate Dead(s: Status) {
    s == FAILED || s == SKIPPED
  }

  predicate BelowDead(w: Workflow, st: seq<Status>, j: nat)
    requires WellFormed(w) && |st| == |w.jobs| && w.IsJob(j)
    decreases Level(w, j)
  {
    var q := ParentPlace(w, j);
    Descends(w, q, j);
    q.Some? && (Dead(st[q.value]) || BelowDead(w, st, q.value))
  }

  /** Progress: with no job active, the search succeeds exactly when some job is READY. */
  lemma PickIffReady(w: Workflow, fails: seq<nat>, st: seq<Status>)
    requires Instance(w, fails) && Settled(w, fails, st)
    ensures PickNextJob(w, st).Some? <==> exists r :: 0 <= r < |st| && st[r] == READY
  {
    SearchFindsHead(w, fails, st, None, 0);
    if r :| 0 <= r < |st| && st[r] == READY {
      ReadyRemains(w, fails, st, r, r);
    }
  }

  /** So it is in every reachable state in which the scheduler searches or the run has come to rest. */
  lemma {:induction false} RunPickIffReady(w: Workflow, fails: seq<nat>, run: seq<State>, n: nat)
    requires Instance(w, fails) && Run(w, fails, run) && n < |run|
    requires run[n].threads == [] || run[n].threads[0].Picking?
    ensures |run[n].st| == |w.jobs|
    ensures PickNextJob(w, run[n].st).Some? <==> exists r :: 0 <= r < |w.jobs| && run[n].st[r] == READY
  {
    RunKeepsInv(w, fails, run, n);
    var s := run[n];
    assert s.threads != [] ==> s.threads[0] in s.threads;
    SettledWhenIdle(w, fails, s);
    PickIffReady(w, fails, s.st);
  }

  /** Stopping: when the search finds nothing, every job is final or waits below a FAILED or SKIPPED one. */
  lemma {:induction false} StopsOnlyWhenDone(w: Workflow, fails: seq<nat>, st: seq<Status>, j: nat)
    requires Instance(w, fails) && Settled(w, fails, st) && PickNextJob(w, st).None? && w.IsJob(j)
    ensures Final(st[j]) || (st[j] == WAITING_FOR_DEPENDENCIES && BelowDead(w, st, j))
    decreases Level(w, j)
  {
    PickIffReady(w, fails, st);
    if st[j] == WAITING_FOR_DEPENDENCIES {
      assert !ParentsCompleted(w, st, j);
      var q := ParentPlace(w, j);
      Descends(w, q, j);
      SiblingDepth(w, q, j);
      StopsOnlyWhenDone(w, fails, st, q.value);
    }
  }

  /** Both, at rest after any run. */
  lemma RunEndsDone(w: Workflow, fails: seq<nat>, run: seq<State>, n: nat, j: nat)
    requires Instance(w, fails) && Run(w, fails, run) && n < |run| && run[n].threads == [] && w.IsJob(j)
    ensures |run[n].st| == |w.jobs|
    ensures Final(run[n].st[j]) || (run[n].st[j] == WAITING_FOR_DEPENDENCIES && BelowDead(w, run[n].st, j))
    ensures run[n].st[j] in {COMPLETED, FAILED, SKIPPED, WAITING_FOR_DEPENDENCIES}
    ensures run[n].st[j] == WAITING_FOR_DEPENDENCIES ==>
      exists a: nat :: a < |w.jobs| && Reaches(DependencyGraph(w), j, a) && run[n].st[a] in {FAILED, SKIPPED}
    ensures j in run[n].queued <==> Eligible(w, fails, j)
  {
    RunKeepsInv(w, fails, run, n);
    SettledWhenIdle(w, fails, run[n]);
    StopsOnlyWhenDone(w, fails, run[n].st, j);
    FinishedRunIsPlan(w, fails, run, n);
    PlanIsEligible(w, fails, j);
    if run[n].st[j] == WAITING_FOR_DEPENDENCIES {
      var a := DeadAncestor(w, run[n].st, j);
    }
  }

  lemma {:induction false} DeadAncestor(w: Workflow, st: seq<Status>, j: nat) returns (a: nat)
    requires WellFormed(w) && |st| == |w.jobs| && w.IsJob(j) && BelowDead(w, st, j)
    ensures a < |w.jobs| && Reaches(DependencyGraph(w), j, a) && st[a] in {FAILED, SKIPPED}
    decreases Level(w, j)
  {
    hide WellFormed, Reaches;
    var q := ParentPlace(w, j);
    Descends(w, q, j);
    assert Edge(DependencyGraph(w), j, q.value);
    if Dead(st[q.value]) {
      a := q.value;
      EdgeReaches(DependencyGraph(w), j, a);
    } else {
      a := DeadAncestor(w, st, q.value);
      EdgeThenReaches(DependencyGraph(w), j, q.value, a);
    }
  }
}
