/** Which job rows one search reads, and how far its guarantees stretch beyond forests. */
module SearchReads {
  import opened Common
  import opened Graphs
  import opened Sorting
  import opened Workflows
  import opened SchedulerMachine
  import opened WorkflowRuns
  import opened Forests
  import opened RunOrder

  /** The rows the search reads from the i-th sibling on, in the order it reads them. */
  function Reads(w: Workflow, st: seq<Status>, q: Place, i: nat): seq<nat>
    requires WellFormed(w) && |st| == |w.jobs| && IsPlace(w, q) && i <= |Siblings(w, q)|
    decreases Height(w, q), |Siblings(w, q)| - i
  {
    if i == |Siblings(w, q)| then [] else
      var x := Siblings(w, q)[i];
      match st[x]
      case READY | QUEUED | PROCESSING | WAITING_FOR_DEPENDENCIES => [x]
      case COMPLETED | SKIPPED =>
        Descends(w, q, x);
        var below := [x] + Reads(w, st, Some(x), 0);
        if Search(w, st, Some(x), 0).Some? then below else below + Reads(w, st, q, i + 1)
      case FAILED | SCHEDULED => [x] + Reads(w, st, q, i + 1)
  }

  /** Those rows decide the search: on any other table that agrees on them it finds the same job. */
  lemma {:induction false} SearchReadsOnly(w: Workflow, st: seq<Status>, st': seq<Status>, q: Place, i: nat)
    requires WellFormed(w) && |st| == |st'| == |w.jobs| && IsPlace(w, q) && i <= |Siblings(w, q)|
    requires forall c :: 0 <= c < |st| && c in Reads(w, st, q, i) ==> st'[c] == st[c]
    ensures Search(w, st', q, i) == Search(w, st, q, i)
    decreases Height(w, q), |Siblings(w, q)| - i
  {
    hide Siblings, WellFormed, Height, IsUnder, Search, Reads;
    if i == |Siblings(w, q)| {
      NothingFurther(w, st, q);
      NothingFurther(w, st', q);
    } else {
      var x := Siblings(w, q)[i];
      Descends(w, q, x);
      ReadsParts(w, st, q, i);
      if LooksBelow(st[x]) {
        SearchReadsOnly(w, st, st', Some(x), 0);
        if Search(w, st, Some(x), 0).None? {
          SearchReadsOnly(w, st, st', q, i + 1);
        }
      } else if st[x] == FAILED || st[x] == SCHEDULED {
        SearchReadsOnly(w, st, st', q, i + 1);
      }
      SearchAgrees(w, st, st', q, i);
    }
  }

  lemma NothingFurther(w: Workflow, st: seq<Status>, q: Place)
    requires WellFormed(w) && |st| == |w.jobs| && IsPlace(w, q)
    ensures Search(w, st, q, |Siblings(w, q)|).None?
  {
  }

  // What the reads from the i-th sibling on include.
  lemma {:induction false} ReadsParts(w: Workflow, st: seq<Status>, q: Place, i: nat)
    requires WellFormed(w) && |st| == |w.jobs| && IsPlace(w, q) && i < |Siblings(w, q)|
    ensures var x := Siblings(w, q)[i];
      && x in Reads(w, st, q, i)
      && (LooksBelow(st[x]) ==> forall c: nat :: c in Reads(w, st, Some(x), 0) ==> c in Reads(w, st, q, i))
      && ((LooksBelow(st[x]) && Search(w, st, Some(x), 0).None?) || st[x] == FAILED || st[x] == SCHEDULED ==>
            forall c: nat :: c in Reads(w, st, q, i + 1) ==> c in Reads(w, st, q, i))
  {
    hide Siblings, WellFormed, Height, IsUnder, Search;
  }

  lemma {:induction false} SearchAgrees(w: Workflow, st: seq<Status>, st': seq<Status>, q: Place, i: nat)
    requires WellFormed(w) && |st| == |st'| == |w.jobs| && IsPlace(w, q) && i < |Siblings(w, q)|
    requires var x := Siblings(w, q)[i];
      && st'[x] == st[x]
      && (LooksBelow(st[x]) ==> Search(w, st', Some(x), 0) == Search(w, st, Some(x), 0))
      && ((LooksBelow(st[x]) && Search(w, st, Some(x), 0).None?) || st[x] == FAILED || st[x] == SCHEDULED ==>
            Search(w, st', q, i + 1) == Search(w, st, q, i + 1))
    ensures Search(w, st', q, i) == Search(w, st, q, i)
  {
    hide Siblings, WellFormed, Height, IsUnder;
  }

  lemma {:induction false} ReadsInside(w: Workflow, st: seq<Status>, q: Place, i: nat, c: nat) returns (k: nat)
    requires WellFormed(w) && Forest(w) && |st| == |w.jobs| && IsPlace(w, q) && i <= |Siblings(w, q)|
    requires c in Reads(w, st, q, i)
    ensures AmongSubtrees(w, q, i, k, c)
    decreases Height(w, q), |Siblings(w, q)| - i
  {
    hide Siblings, WellFormed, Search;
    var x := Siblings(w, q)[i];
    Descends(w, q, x);
    if c == x {
      k := i;
    } else if (st[x] == COMPLETED || st[x] == SKIPPED) && c in Reads(w, st, Some(x), 0) {
      var l := ReadsInside(w, st, Some(x), 0, c);
      SubtreeUp(w, x, Siblings(w, Some(x))[l], c);
      k := i;
    } else {
      k := ReadsInside(w, st, q, i + 1, c);
    }
  }

  /** One search reads no row twice. */
  lemma {:induction false} ReadsDistinct(w: Workflow, st: seq<Status>, q: Place, i: nat)
    requires WellFormed(w) && Forest(w) && |st| == |w.jobs| && IsPlace(w, q) && i <= |Siblings(w, q)|
    ensures Distinct(Reads(w, st, q, i))
    decreases Height(w, q), |Siblings(w, q)| - i
  {
    if i < |Siblings(w, q)| {
      var x := Siblings(w, q)[i];
      hide Reads;
      Descends(w, q, x);
      ReadsDistinct(w, st, q, i + 1);
      ReadsDistinct(w, st, Some(x), 0);
      ReadsApart(w, st, q, i);
      ReadsUnfold(w, st, q, i);
      AllJoins(x, Reads(w, st, Some(x), 0), Reads(w, st, q, i + 1));
    }
  }

  lemma AllJoins(x: nat, a: seq<nat>, b: seq<nat>)
    requires Distinct(a) && Distinct(b) && x !in a && forall c: nat :: c in [x] + a ==> c !in b
    ensures Distinct([x]) && Distinct([x] + b) && Distinct([x] + a) && Distinct([x] + a + b)
  {
    assert x in [x] + a;
    DistinctJoin([x], a);
    DistinctJoin([x], b);
    DistinctJoin([x] + a, b);
  }

  lemma {:induction false} ReadsUnfold(w: Workflow, st: seq<Status>, q: Place, i: nat)
    requires WellFormed(w) && |st| == |w.jobs| && IsPlace(w, q) && i < |Siblings(w, q)|
    ensures var x := Siblings(w, q)[i];
      var below := [x] + Reads(w, st, Some(x), 0);
      var rest := Reads(w, st, q, i + 1);
      Reads(w, st, q, i) == [x] || Reads(w, st, q, i) == [x] + rest
        || Reads(w, st, q, i) == below || Reads(w, st, q, i) == below + rest
  {
    hide Search, Siblings, WellFormed, Height;
  }

  lemma ReadsApart(w: Workflow, st: seq<Status>, q: Place, i: nat)
    requires WellFormed(w) && Forest(w) && |st| == |w.jobs| && IsPlace(w, q) && i < |Siblings(w, q)|
    ensures var x := Siblings(w, q)[i];
      && x !in Reads(w, st, Some(x), 0)
      && forall c: nat :: c in [x] + Reads(w, st, Some(x), 0) ==> c !in Reads(w, st, q, i + 1)
  {
    hide Reads, Siblings, WellFormed;
    var x := Siblings(w, q)[i];
    if x in Reads(w, st, Some(x), 0) {
      var k := ReadsInside(w, st, Some(x), 0, x);
      SiblingDepth(w, Some(x), Siblings(w, Some(x))[k]);
    }
    forall c: nat | c in [x] + Reads(w, st, Some(x), 0) ensures c !in Reads(w, st, q, i + 1) {
      if c != x {
        var k := ReadsInside(w, st, Some(x), 0, c);
        SubtreeUp(w, x, Siblings(w, Some(x))[k], c);
      }
      if c in Reads(w, st, q, i + 1) {
        var l := ReadsInside(w, st, q, i + 1, c);
        SubtreesDisjoint(w, q, i, l, c);
      }
    }
  }

  // ---------- beyond forests ----------

  /** A job that has one finished parent and one unfinished one. */
  ghost predicate HalfWaiting(w: Workflow, st: seq<Status>, b: nat)
    requires WellFormed(w) && |st| == |w.jobs|
  {
    && w.IsJob(b) && st[b] == WAITING_FOR_DEPENDENCIES
    && exists p: nat, p': nat :: p in w.jobs[b].parents && p' in w.jobs[b].parents && st[p] == COMPLETED && st[p'] != COMPLETED
  }

  ghost predicate NoneHalfWaiting(w: Workflow, st: seq<Status>)
    requires WellFormed(w) && |st| == |w.jobs|
  {
    forall b: nat :: !HalfWaiting(w, st, b)
  }

  function RankOf(w: Workflow, c: nat): Ranked
    requires w.IsJob(c)
  {
    Ranked(PriorityRank(w.jobs[c].priority), c)
  }

  /** A sibling that comes before x, by priority and creation, is one of those. */
  ghost predicate Blocked(w: Workflow, st: seq<Status>, q: Place, x: nat)
    requires WellFormed(w) && |st| == |w.jobs| && w.IsJob(x)
  {
    exists b: nat :: HalfWaiting(w, st, b) && IsUnder(w, q, b) && Before(RankOf(w, b), RankOf(w, x))
  }

  /** A READY job at the end of a chain of COMPLETED ones below q, none of them blocked at its place. */
  ghost predicate OpenChain(w: Workflow, st: seq<Status>, q: Place, p: seq<nat>)
    requires WellFormed(w) && |st| == |w.jobs|
    decreases |p|
  {
    && p != [] && w.IsJob(p[0]) && IsUnder(w, q, p[0]) && !Blocked(w, st, q, p[0])
    && if |p| == 1 then st[p[0]] == READY else st[p[0]] == COMPLETED && OpenChain(w, st, Some(p[0]), p[1..])
  }

  lemma EarlierNotHalfWaiting(w: Workflow, st: seq<Status>, q: Place, i: nat, k: nat)
    requires WellFormed(w) && |st| == |w.jobs| && IsPlace(w, q) && i < k < |Siblings(w, q)|
    requires !Blocked(w, st, q, Siblings(w, q)[k])
    ensures !HalfWaiting(w, st, Siblings(w, q)[i])
  {
    SiblingsOrder(w, q, i, k);
  }

  // Up to an unblocked sibling, the list is scanned.
  lemma {:induction false} ScansPastSiblings(w: Workflow, fails: seq<nat>, st: seq<Status>, q: Place, i: nat, k: nat)
    requires WellFormed(w) && Outcomes(w, fails) && Settled(w, fails, st) && IsPlace(w, q) && Open(w, st, q)
    requires i <= k < |Siblings(w, q)| && !Blocked(w, st, q, Siblings(w, q)[k]) && Search(w, st, q, i).None?
    ensures Search(w, st, q, k).None?
    decreases k - i
  {
    hide Search, Siblings, WellFormed;
    if i < k {
      EarlierNotHalfWaiting(w, st, q, i, k);
      OpenSiblingAnyGraph(w, fails, st, q, Siblings(w, q)[i]);
      ScansPastOne(w, st, q, i);
      ScansPastSiblings(w, fails, st, q, i + 1, k);
    }
  }

  lemma ScansPastOne(w: Workflow, st: seq<Status>, q: Place, i: nat)
    requires WellFormed(w) && |st| == |w.jobs| && IsPlace(w, q) && i < |Siblings(w, q)|
    requires st[Siblings(w, q)[i]] in {READY, COMPLETED, FAILED, SKIPPED} && Search(w, st, q, i).None?
    ensures Search(w, st, q, i + 1).None?
  {
  }

  lemma OpenSiblingAnyGraph(w: Workflow, fails: seq<nat>, st: seq<Status>, q: Place, x: nat)
    requires WellFormed(w) && Outcomes(w, fails) && Settled(w, fails, st) && IsPlace(w, q) && Open(w, st, q)
    requires w.IsJob(x) && IsUnder(w, q, x) && !HalfWaiting(w, st, x)
    ensures st[x] in {READY, COMPLETED, FAILED, SKIPPED}
  {
    assert ParentsCompleted(w, st, x) || st[x] != WAITING_FOR_DEPENDENCIES;
  }

  // The search at a sibling that is READY, or COMPLETED with something to find below it.
  lemma {:induction false} SearchAt(w: Workflow, st: seq<Status>, q: Place, k: nat)
    requires WellFormed(w) && |st| == |w.jobs| && IsPlace(w, q) && k < |Siblings(w, q)|
    requires var x := Siblings(w, q)[k]; st[x] == READY || (st[x] == COMPLETED && Search(w, st, Some(x), 0).Some?)
    ensures Search(w, st, q, k).Some?
  {
  }

  lemma UnblockedIsFound(w: Workflow, fails: seq<nat>, st: seq<Status>, q: Place, x: nat)
    requires WellFormed(w) && Outcomes(w, fails) && Settled(w, fails, st) && IsPlace(w, q) && Open(w, st, q)
    requires w.IsJob(x) && IsUnder(w, q, x) && !Blocked(w, st, q, x)
    requires st[x] == READY || (st[x] == COMPLETED && Search(w, st, Some(x), 0).Some?)
    ensures Search(w, st, q, 0).Some?
  {
    assert x in Siblings(w, q);
    var k :| 0 <= k < |Siblings(w, q)| && Siblings(w, q)[k] == x;
    SearchAt(w, st, q, k);
    if Search(w, st, q, 0).None? {
      ScansPastSiblings(w, fails, st, q, 0, k);
    }
  }

  lemma {:induction false} ChainIsFound(w: Workflow, fails: seq<nat>, st: seq<Status>, q: Place, p: seq<nat>)
    requires WellFormed(w) && Outcomes(w, fails) && Settled(w, fails, st) && IsPlace(w, q) && Open(w, st, q)
    requires OpenChain(w, st, q, p)
    ensures Search(w, st, q, 0).Some?
    decreases |p|
  {
    hide Search, Siblings, WellFormed, Blocked;
    if |p| > 1 {
      ChainIsFound(w, fails, st, Some(p[0]), p[1..]);
    }
    UnblockedIsFound(w, fails, st, q, p[0]);
  }

  ghost predicate ClearBefore(w: Workflow, st: seq<Status>, q: Place, i: nat)
    requires WellFormed(w) && |st| == |w.jobs| && IsPlace(w, q) && i <= |Siblings(w, q)|
  {
    forall m :: 0 <= m < i ==> !HalfWaiting(w, st, Siblings(w, q)[m])
  }

  lemma NotBlockedAt(w: Workflow, st: seq<Status>, q: Place, i: nat)
    requires WellFormed(w) && |st| == |w.jobs| && IsPlace(w, q) && i < |Siblings(w, q)|
    requires ClearBefore(w, st, q, i)
    ensures !Blocked(w, st, q, Siblings(w, q)[i])
  {
    var x := Siblings(w, q)[i];
    if b: nat :| HalfWaiting(w, st, b) && IsUnder(w, q, b) && Before(RankOf(w, b), RankOf(w, x)) {
      assert b in Siblings(w, q);
      var m :| 0 <= m < |Siblings(w, q)| && Siblings(w, q)[m] == b;
      if i < m {
        SiblingsOrder(w, q, i, m);
      }
      assert false;
    }
  }

  lemma {:induction false} FoundInside(w: Workflow, st: seq<Status>, q: Place, i: nat)
    requires WellFormed(w) && |st| == |w.jobs| && IsPlace(w, q) && i <= |Siblings(w, q)| && Search(w, st, q, i).Some?
    ensures i < |Siblings(w, q)| && ClearBefore(w, st, Some(Siblings(w, q)[i]), 0)
  {
  }

  lemma {:induction false} SearchOn(w: Workflow, st: seq<Status>, q: Place, i: nat)
    requires WellFormed(w) && |st| == |w.jobs| && IsPlace(w, q) && i < |Siblings(w, q)| && Search(w, st, q, i).Some?
    ensures var x := Siblings(w, q)[i];
      && (ClearBefore(w, st, q, i) ==> ClearBefore(w, st, q, i + 1))
      && (st[x] == READY || Search(w, st, q, i + 1).Some? || (LooksBelow(st[x]) && Search(w, st, Some(x), 0).Some?))
  {
  }

  lemma NothingBelowSkipped(w: Workflow, fails: seq<nat>, st: seq<Status>, x: nat)
    requires WellFormed(w) && Outcomes(w, fails) && Settled(w, fails, st) && w.IsJob(x)
    ensures st[x] == SKIPPED ==> Search(w, st, Some(x), 0).None?
  {
    if st[x] == SKIPPED {
      NothingBelowUnfinished(w, fails, st, x, 0);
    }
  }

  lemma ShortChain(w: Workflow, st: seq<Status>, q: Place, x: nat)
    requires WellFormed(w) && |st| == |w.jobs| && w.IsJob(x) && IsUnder(w, q, x) && !Blocked(w, st, q, x)
    requires st[x] == READY
    ensures OpenChain(w, st, q, [x])
  {
  }

  lemma LongerChain(w: Workflow, st: seq<Status>, q: Place, x: nat, below: seq<nat>)
    requires WellFormed(w) && |st| == |w.jobs| && w.IsJob(x) && IsUnder(w, q, x) && !Blocked(w, st, q, x)
    requires st[x] == COMPLETED && OpenChain(w, st, Some(x), below)
    ensures OpenChain(w, st, q, [x] + below)
  {
    assert ([x] + below)[1..] == below;
  }

  lemma {:induction false} FoundHasChain(w: Workflow, fails: seq<nat>, st: seq<Status>, q: Place, i: nat)
      returns (p: seq<nat>)
    requires WellFormed(w) && Outcomes(w, fails) && Settled(w, fails, st) && IsPlace(w, q) && Open(w, st, q)
    requires i <= |Siblings(w, q)| && Search(w, st, q, i).Some?
    requires ClearBefore(w, st, q, i)
    ensures OpenChain(w, st, q, p)
    decreases Height(w, q), |Siblings(w, q)| - i
  {
    hide Search, Siblings, WellFormed, Blocked, OpenChain, HalfWaiting, ClearBefore, Height, IsUnder;
    FoundInside(w, st, q, i);
    var x := Siblings(w, q)[i];
    SearchOn(w, st, q, i);
    NotBlockedAt(w, st, q, i);
    Descends(w, q, x);
    if st[x] == READY {
      p := [x];
      ShortChain(w, st, q, x);
    } else if st[x] == COMPLETED && Search(w, st, Some(x), 0).Some? {
      var below := FoundHasChain(w, fails, st, Some(x), 0);
      p := [x] + below;
      LongerChain(w, st, q, x, below);
    } else {
      NothingBelowSkipped(w, fails, st, x);
      p := FoundHasChain(w, fails, st, q, i + 1);
    }
  }

  /**
   * Progress on any acyclic graph: with no job active and no unlock due, the search succeeds exactly when
   * some READY job hangs below COMPLETED jobs with no half-waiting sibling before any job of the chain.
   */
  lemma {:induction false} PicksIff(w: Workflow, fails: seq<nat>, st: seq<Status>)
    requires WellFormed(w) && Outcomes(w, fails) && Settled(w, fails, st)
    ensures PickNextJob(w, st).Some? <==> exists p: seq<nat> :: OpenChain(w, st, None, p)
  {
    hide Search, Siblings, WellFormed, Blocked, OpenChain;
    if PickNextJob(w, st).Some? {
      assert ClearBefore(w, st, None, 0);
      var p := FoundHasChain(w, fails, st, None, 0);
    }
    if p: seq<nat> :| OpenChain(w, st, None, p) {
      ChainIsFound(w, fails, st, None, p);
    }
  }

  /** So it is whenever a run reaches the search, and when it has come to rest no such chain is left. */
  lemma {:induction false} RunPicksIff(w: Workflow, fails: seq<nat>, run: seq<State>, n: nat)
    requires WellFormed(w) && Outcomes(w, fails) && Run(w, fails, run) && n < |run|
    ensures |run[n].st| == |w.jobs|
    ensures run[n].threads != [] && run[n].threads[0].Picking? ==>
      (PickNextJob(w, run[n].st).Some? <==> exists p: seq<nat> :: OpenChain(w, run[n].st, None, p))
    ensures run[n].threads == [] ==> !exists p: seq<nat> :: OpenChain(w, run[n].st, None, p)
  {
    RunKeepsInv(w, fails, run, n);
    var s := run[n];
    if s.threads == [] || s.threads[0].Picking? {
      assert s.threads != [] ==> s.threads[0] in s.threads;
      SettledWhenIdle(w, fails, s);
      PicksIff(w, fails, s.st);
    }
  }

  lemma {:induction false} ReadyIsFound(w: Workflow, fails: seq<nat>, st: seq<Status>, j: nat)
    requires WellFormed(w) && Outcomes(w, fails) && Settled(w, fails, st) && w.IsJob(j)
    requires NoneHalfWaiting(w, st)
    requires st[j] == READY || (st[j] == COMPLETED && Search(w, st, Some(j), 0).Some?)
    ensures PickNextJob(w, st).Some?
    decreases Level(w, j)
  {
    hide Search, Siblings, WellFormed;
    var q := ParentPlace(w, j);
    Descends(w, q, j);
    assert ParentsCompleted(w, st, j);
    UnblockedIsFound(w, fails, st, q, j);
    if q.Some? {
      ReadyIsFound(w, fails, st, q.value);
    }
  }

  /**
   * In any acyclic graph, a search that misses a READY job is explained by a job with one COMPLETED
   * and one unfinished parent, hence never happens where jobs name at most one parent.
   */
  lemma StallNeedsHalfWaiting(w: Workflow, fails: seq<nat>, st: seq<Status>, r: nat) returns (b: nat)
    requires WellFormed(w) && Outcomes(w, fails) && Settled(w, fails, st) && w.IsJob(r)
    requires st[r] == READY && PickNextJob(w, st).None?
    ensures HalfWaiting(w, st, b)
  {
    if NoneHalfWaiting(w, st) {
      ReadyIsFound(w, fails, st, r);
      assert false;
    }
    b :| HalfWaiting(w, st, b);
  }
}
