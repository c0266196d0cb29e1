/**
 * Workflows whose jobs name at most one parent: the reference order in which they should run, and
 * what is left of that order in a given table of job rows.
 */
module Forests {
  import opened Common
  import opened Graphs
  import opened Workflows
  import opened SchedulerMachine

  ghost predicate Instance(w: Workflow, fails: seq<nat>) {
    WellFormed(w) && Forest(w) && Outcomes(w, fails)
  }

  // A STRICT child is skipped as soon as one attempt of its parent has failed.
  predicate IsSkipped(w: Workflow, fails: seq<nat>, q: Place, x: nat)
    requires Outcomes(w, fails) && IsPlace(w, q) && w.IsJob(x)
  {
    q.Some? && fails[q.value] > 0 && w.jobs[x].strict
  }

  /**
   * The reference order: preorder over the forest, siblings by priority and creation, without skipped
   * jobs and without anything below a job that finally fails.
   */
  function Plan(w: Workflow, fails: seq<nat>, q: Place, i: nat): seq<nat>
    requires WellFormed(w) && Outcomes(w, fails) && IsPlace(w, q) && i <= |Siblings(w, q)|
    decreases Height(w, q), |Siblings(w, q)| - i, 0
  {
    if i == |Siblings(w, q)| then [] else
      var x := Siblings(w, q)[i];
      (if IsSkipped(w, fails, q, x) then [] else PlanOf(w, fails, q, x)) + Plan(w, fails, q, i + 1)
  }

  function PlanOf(w: Workflow, fails: seq<nat>, q: Place, x: nat): seq<nat>
    requires WellFormed(w) && Outcomes(w, fails) && IsPlace(w, q) && w.IsJob(x) && IsUnder(w, q, x)
    decreases Height(w, q), 0, 0
  {
    Descends(w, q, x);
    [x] + if Succeeds(w, fails, x) then Plan(w, fails, Some(x), 0) else []
  }

  /** The part of the reference order that a table of job rows has still to run. */
  function Remaining(w: Workflow, fails: seq<nat>, st: seq<Status>, q: Place, i: nat): seq<nat>
    requires WellFormed(w) && Outcomes(w, fails) && |st| == |w.jobs| && IsPlace(w, q) && i <= |Siblings(w, q)|
    decreases Height(w, q), |Siblings(w, q)| - i
  {
    if i == |Siblings(w, q)| then [] else
      var x := Siblings(w, q)[i];
      Descends(w, q, x);
      (match st[x]
       case READY => PlanOf(w, fails, q, x)
       case COMPLETED => Remaining(w, fails, st, Some(x), 0)
       case _ => []) + Remaining(w, fails, st, q, i + 1)
  }

  /** What remains in the i-th sibling's own branch. */
  function Branch(w: Workflow, fails: seq<nat>, st: seq<Status>, q: Place, i: nat): seq<nat>
    requires WellFormed(w) && Outcomes(w, fails) && |st| == |w.jobs| && IsPlace(w, q) && i < |Siblings(w, q)|
  {
    var x := Siblings(w, q)[i];
    match st[x]
    case READY => PlanOf(w, fails, q, x)
    case COMPLETED => Remaining(w, fails, st, Some(x), 0)
    case _ => []
  }

  lemma RemainingUnfolds(w: Workflow, fails: seq<nat>, st: seq<Status>, q: Place, i: nat)
    requires WellFormed(w) && Outcomes(w, fails) && |st| == |w.jobs| && IsPlace(w, q) && i < |Siblings(w, q)|
    ensures Remaining(w, fails, st, q, i) == Branch(w, fails, st, q, i) + Remaining(w, fails, st, q, i + 1)
  {
  }

  // ---------- depth: where a job hangs in the forest ----------

  function Depth(w: Workflow, j: nat): nat
    requires WellFormed(w) && w.IsJob(j)
    decreases Level(w, j)
  {
    var q := ParentPlace(w, j);
    if q.None? then 0 else
      Descends(w, q, j);
      1 + Depth(w, q.value)
  }

  /** The ancestor-or-self of j at depth d. */
  function Climb(w: Workflow, j: nat, d: nat): (a: nat)
    requires WellFormed(w) && w.IsJob(j) && d <= Depth(w, j)
    ensures w.IsJob(a) && Depth(w, a) == d
    decreases Depth(w, j)
  {
    if d == Depth(w, j) then j else
      Climb(w, ParentPlace(w, j).value, d)
  }

  predicate InSubtree(w: Workflow, x: nat, c: nat)
    requires WellFormed(w) && w.IsJob(x) && w.IsJob(c)
  {
    Depth(w, x) <= Depth(w, c) && Climb(w, c, Depth(w, x)) == x
  }

  lemma {:induction false} SubtreeUp(w: Workflow, p: nat, x: nat, c: nat)
    requires WellFormed(w) && Forest(w) && w.IsJob(x) && w.IsJob(c) && IsUnder(w, Some(p), x) && w.IsJob(p)
    requires InSubtree(w, x, c)
    ensures InSubtree(w, p, c)
    decreases Depth(w, c)
  {
    assert w.jobs[x].parents == [p];
    assert Depth(w, x) == Depth(w, p) + 1;
    if Depth(w, c) > Depth(w, x) {
      SubtreeUp(w, p, x, ParentPlace(w, c).value);
    }
  }

  ghost predicate AmongSubtrees(w: Workflow, q: Place, i: nat, k: nat, c: nat)
    requires WellFormed(w) && IsPlace(w, q)
  {
    i <= k < |Siblings(w, q)| && w.IsJob(c) && InSubtree(w, Siblings(w, q)[k], c)
  }

  /** Everything planned from the i-th sibling on lies in one of those siblings' subtrees. */
  lemma {:induction false} PlanInside(w: Workflow, fails: seq<nat>, q: Place, i: nat, c: nat) returns (k: nat)
    requires Instance(w, fails) && IsPlace(w, q) && i <= |Siblings(w, q)|
    requires c in Plan(w, fails, q, i)
    ensures AmongSubtrees(w, q, i, k, c)
    decreases Height(w, q), |Siblings(w, q)| - i, 0
  {
    hide Siblings, WellFormed, Height, InSubtree, PlanOf;
    var x := Siblings(w, q)[i];
    if !IsSkipped(w, fails, q, x) && c in PlanOf(w, fails, q, x) {
      PlanOfInside(w, fails, q, x, c);
      k := i;
    } else {
      k := PlanInside(w, fails, q, i + 1, c);
    }
  }

  lemma {:induction false} PlanOfInside(w: Workflow, fails: seq<nat>, q: Place, x: nat, c: nat)
    requires Instance(w, fails) && IsPlace(w, q) && w.IsJob(x) && IsUnder(w, q, x)
    requires c in PlanOf(w, fails, q, x)
    ensures w.IsJob(c) && InSubtree(w, x, c)
    decreases Height(w, q), 0, 0
  {
    if c != x {
      Descends(w, q, x);
      var k := PlanInside(w, fails, Some(x), 0, c);
      SubtreeUp(w, x, Siblings(w, Some(x))[k], c);
    }
  }

  lemma {:induction false} RemainingInside(w: Workflow, fails: seq<nat>, st: seq<Status>, q: Place, i: nat, c: nat) returns (k: nat)
    requires Instance(w, fails) && |st| == |w.jobs| && IsPlace(w, q) && i <= |Siblings(w, q)|
    requires c in Remaining(w, fails, st, q, i)
    ensures AmongSubtrees(w, q, i, k, c)
    decreases Height(w, q), |Siblings(w, q)| - i
  {
    var x := Siblings(w, q)[i];
    Descends(w, q, x);
    if c in Remaining(w, fails, st, q, i + 1) {
      k := RemainingInside(w, fails, st, q, i + 1, c);
    } else {
      k := i;
      if st[x] == READY {
        PlanOfInside(w, fails, q, x, c);
      } else {
        var l := RemainingInside(w, fails, st, Some(x), 0, c);
        SubtreeUp(w, x, Siblings(w, Some(x))[l], c);
      }
    }
  }

  lemma SiblingDepth(w: Workflow, q: Place, x: nat)
    requires WellFormed(w) && Forest(w) && IsPlace(w, q) && w.IsJob(x) && IsUnder(w, q, x)
    ensures Depth(w, x) == if q.None? then 0 else Depth(w, q.value) + 1
    ensures w.jobs[x].parents == if q.None? then [] else [q.value]
  {
    if q.Some? {
      assert w.jobs[x].parents[0] == q.value;
    }
  }

  /** Subtrees of different siblings share no job. */
  lemma SubtreesDisjoint(w: Workflow, q: Place, i: nat, k: nat, c: nat)
    requires WellFormed(w) && Forest(w) && IsPlace(w, q) && i < k < |Siblings(w, q)| && w.IsJob(c)
    requires InSubtree(w, Siblings(w, q)[i], c)
    ensures !InSubtree(w, Siblings(w, q)[k], c)
  {
    SiblingDepth(w, q, Siblings(w, q)[i]);
    SiblingDepth(w, q, Siblings(w, q)[k]);
  }

  lemma RestElsewhere(w: Workflow, fails: seq<nat>, st: seq<Status>, q: Place, i: nat, c: nat)
    requires Instance(w, fails) && |st| == |w.jobs| && IsPlace(w, q) && i < |Siblings(w, q)|
    requires w.IsJob(c) && InSubtree(w, Siblings(w, q)[i], c)
    ensures c !in Remaining(w, fails, st, q, i + 1)
  {
    if c in Remaining(w, fails, st, q, i + 1) {
      var k := RemainingInside(w, fails, st, q, i + 1, c);
      SubtreesDisjoint(w, q, i, k, c);
    }
  }

  /** The reference order names no job twice. */
  lemma {:induction false} PlanDistinct(w: Workflow, fails: seq<nat>, q: Place, i: nat)
    requires Instance(w, fails) && IsPlace(w, q) && i <= |Siblings(w, q)|
    ensures Distinct(Plan(w, fails, q, i))
    decreases Height(w, q), |Siblings(w, q)| - i, 0
  {
    if i < |Siblings(w, q)| {
      var x := Siblings(w, q)[i];
      PlanDistinct(w, fails, q, i + 1);
      if !IsSkipped(w, fails, q, x) {
        PlanOfDistinct(w, fails, q, x);
        PlansDisjoint(w, fails, q, i);
        DistinctJoin(PlanOf(w, fails, q, x), Plan(w, fails, q, i + 1));
      }
    }
  }

  lemma {:induction false} PlanOfDistinct(w: Workflow, fails: seq<nat>, q: Place, x: nat)
    requires Instance(w, fails) && IsPlace(w, q) && w.IsJob(x) && IsUnder(w, q, x)
    ensures Distinct(PlanOf(w, fails, q, x))
    decreases Height(w, q), 0, 0
  {
    if Succeeds(w, fails, x) {
      Descends(w, q, x);
      PlanDistinct(w, fails, Some(x), 0);
      forall c | c in Plan(w, fails, Some(x), 0) ensures c != x {
        var k := PlanInside(w, fails, Some(x), 0, c);
        SiblingDepth(w, Some(x), Siblings(w, Some(x))[k]);
      }
      DistinctJoin([x], Plan(w, fails, Some(x), 0));
    }
  }

  lemma PlansDisjoint(w: Workflow, fails: seq<nat>, q: Place, i: nat)
    requires Instance(w, fails) && IsPlace(w, q) && i < |Siblings(w, q)|
    ensures forall c :: c in PlanOf(w, fails, q, Siblings(w, q)[i]) ==> c !in Plan(w, fails, q, i + 1)
  {
    forall c | c in PlanOf(w, fails, q, Siblings(w, q)[i]) ensures c !in Plan(w, fails, q, i + 1) {
      PlanOfInside(w, fails, q, Siblings(w, q)[i], c);
      if c in Plan(w, fails, q, i + 1) {
        var k := PlanInside(w, fails, q, i + 1, c);
        SubtreesDisjoint(w, q, i, k, c);
      }
    }
  }

  /** Which jobs run: all ancestors succeed, and none is skipped on the way. */
  predicate Eligible(w: Workflow, fails: seq<nat>, j: nat)
    requires WellFormed(w) && Outcomes(w, fails) && w.IsJob(j)
    decreases Level(w, j)
  {
    var q := ParentPlace(w, j);
    Descends(w, q, j);
    q.Some? ==> Eligible(w, fails, q.value) && Succeeds(w, fails, q.value) && !IsSkipped(w, fails, q, j)
  }

  // From the k-th sibling of a place back to the whole place.
  lemma {:induction false} PlanHasSibling(w: Workflow, fails: seq<nat>, q: Place, i: nat, k: nat, c: nat)
    requires Instance(w, fails) && IsPlace(w, q) && i <= k < |Siblings(w, q)|
    requires !IsSkipped(w, fails, q, Siblings(w, q)[k]) && c in PlanOf(w, fails, q, Siblings(w, q)[k])
    ensures c in Plan(w, fails, q, i)
    decreases k - i
  {
    hide Siblings, WellFormed, PlanOf;
    if i < k { PlanHasSibling(w, fails, q, i + 1, k, c); }
  }

  lemma PlanGrows(w: Workflow, fails: seq<nat>, p: nat, c: nat)
    requires Instance(w, fails) && w.IsJob(p) && p in Plan(w, fails, None, 0)
    requires Succeeds(w, fails, p) && c in Plan(w, fails, Some(p), 0)
    ensures c in Plan(w, fails, None, 0)
  {
    PlanGrowsFrom(w, fails, None, 0, p, c);
  }

  lemma {:induction false} PlanGrowsFrom(w: Workflow, fails: seq<nat>, q: Place, i: nat, p: nat, c: nat)
    requires Instance(w, fails) && IsPlace(w, q) && i <= |Siblings(w, q)| && w.IsJob(p)
    requires p in Plan(w, fails, q, i) && Succeeds(w, fails, p) && c in Plan(w, fails, Some(p), 0)
    ensures c in Plan(w, fails, q, i)
    decreases Height(w, q), |Siblings(w, q)| - i, 0
  {
    var x := Siblings(w, q)[i];
    if p in Plan(w, fails, q, i + 1) {
      PlanGrowsFrom(w, fails, q, i + 1, p, c);
    } else {
      PlanOfGrows(w, fails, q, x, p, c);
    }
  }

  lemma {:induction false} PlanOfGrows(w: Workflow, fails: seq<nat>, q: Place, x: nat, p: nat, c: nat)
    requires Instance(w, fails) && IsPlace(w, q) && w.IsJob(x) && IsUnder(w, q, x) && w.IsJob(p)
    requires p in PlanOf(w, fails, q, x) && Succeeds(w, fails, p) && c in Plan(w, fails, Some(p), 0)
    ensures c in PlanOf(w, fails, q, x)
    decreases Height(w, q), 0, 0
  {
    if p != x {
      Descends(w, q, x);
      PlanGrowsFrom(w, fails, Some(x), 0, p, c);
    }
  }

  /** The reference order contains exactly the eligible jobs. */
  lemma {:induction false} PlanIsEligible(w: Workflow, fails: seq<nat>, j: nat)
    requires Instance(w, fails) && w.IsJob(j)
    ensures j in Plan(w, fails, None, 0) <==> Eligible(w, fails, j)
    decreases Level(w, j)
  {
    if Eligible(w, fails, j) {
      EligiblePlanned(w, fails, j);
    }
    if j in Plan(w, fails, None, 0) {
      PlannedEligible(w, fails, None, 0, j);
    }
  }

  lemma {:induction false} EligiblePlanned(w: Workflow, fails: seq<nat>, j: nat)
    requires Instance(w, fails) && w.IsJob(j) && Eligible(w, fails, j)
    ensures j in Plan(w, fails, None, 0)
    decreases Level(w, j)
  {
    var q := ParentPlace(w, j);
    assert j in Siblings(w, q);
    var k :| 0 <= k < |Siblings(w, q)| && Siblings(w, q)[k] == j;
    PlanHasSibling(w, fails, q, 0, k, j);
    if q.Some? {
      Descends(w, q, j);
      EligiblePlanned(w, fails, q.value);
      PlanGrows(w, fails, q.value, j);
    }
  }

  lemma {:induction false} PlannedEligible(w: Workflow, fails: seq<nat>, q: Place, i: nat, j: nat)
    requires Instance(w, fails) && IsPlace(w, q) && i <= |Siblings(w, q)| && w.IsJob(j)
    requires q.Some? ==> Eligible(w, fails, q.value) && Succeeds(w, fails, q.value)
    requires j in Plan(w, fails, q, i)
    ensures Eligible(w, fails, j)
    decreases Height(w, q), |Siblings(w, q)| - i
  {
    hide Siblings, WellFormed, Depth;
    var x := Siblings(w, q)[i];
    Descends(w, q, x);
    SiblingDepth(w, q, x);
    if j in Plan(w, fails, q, i + 1) {
      PlannedEligible(w, fails, q, i + 1, j);
    } else if j != x {
      PlannedEligible(w, fails, Some(x), 0, j);
    }
  }
}
