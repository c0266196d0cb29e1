/** Workflows as stored job and dependency rows, and the search for the next job to queue. */
module Workflows {
  import opened Common
  import opened Graphs
  import opened Sorting

  datatype Priority = HIGH | MEDIUM | LOW | NONE

  // PENDING and STAGED also exist in the source's enumeration, but no job row ever holds them.
  datatype Status =
    | WAITING_FOR_DEPENDENCIES | READY | QUEUED | PROCESSING
    | COMPLETED | FAILED | SKIPPED | SCHEDULED

  function PriorityRank(p: Priority): nat {
    match p
    case HIGH => 1
    case MEDIUM => 2
    case LOW => 3
    case NONE => 4
  }

  /** A job row with the parents its dependency rows name; rows are numbered in creation order. */
  datatype JobSpec = JobSpec(jobType: string, priority: Priority, strict: bool, retries: nat, parents: seq<nat>)

  datatype Workflow = Workflow(jobs: seq<JobSpec>) {
    predicate IsJob(j: nat) { j < |jobs| }
  }

  function DependencyGraph(w: Workflow): Graph<nat> {
    map j | 0 <= j < |w.jobs| :: w.jobs[j].parents
  }

  ghost predicate Closed(w: Workflow) {
    forall j: nat, p: nat :: j < |w.jobs| && p in w.jobs[j].parents ==> p < |w.jobs|
  }

  ghost predicate WellFormed(w: Workflow) {
    Closed(w) && !HasCycle(DependencyGraph(w))
  }

  ghost predicate Forest(w: Workflow) {
    forall j :: 0 <= j < |w.jobs| ==> |w.jobs[j].parents| <= 1
  }

  /** None stands for "above the roots", Some(p) for job p. */
  type Place = Option<nat>

  predicate IsPlace(w: Workflow, q: Place) {
    q.Some? ==> w.IsJob(q.value)
  }

  predicate IsUnder(w: Workflow, q: Place, c: nat)
    requires w.IsJob(c)
  {
    match q
    case None => w.jobs[c].parents == []
    case Some(p) => p in w.jobs[c].parents
  }

  /** Where j hangs: below its first parent, or at the roots. */
  function ParentPlace(w: Workflow, j: nat): (q: Place)
    requires WellFormed(w) && w.IsJob(j)
    ensures IsPlace(w, q) && IsUnder(w, q, j) && (q.None? <==> w.jobs[j].parents == [])
  {
    if w.jobs[j].parents == [] then None else
      assert w.jobs[j].parents[0] in w.jobs[j].parents;
      Some(w.jobs[j].parents[0])
  }

  // The rows below q from row k on, in creation order.
  function RowsUnder(w: Workflow, q: Place, k: nat): (rows: seq<Ranked>)
    requires k <= |w.jobs|
    ensures Ascending(rows)
    ensures forall r :: r in rows <==>
      k <= r.id < |w.jobs| && IsUnder(w, q, r.id) && r.rank == PriorityRank(w.jobs[r.id].priority)
    decreases |w.jobs| - k
  {
    if k == |w.jobs| then []
    else if IsUnder(w, q, k) then [Ranked(PriorityRank(w.jobs[k].priority), k)] + RowsUnder(w, q, k + 1)
    else RowsUnder(w, q, k + 1)
  }

  function Ids(rows: seq<Ranked>): (ids: seq<nat>)
    ensures |ids| == |rows| && forall i :: 0 <= i < |rows| ==> ids[i] == rows[i].id
  {
    seq(|rows|, i requires 0 <= i < |rows| => rows[i].id)
  }

  function SortedRows(w: Workflow, q: Place): (rows: seq<Ranked>)
    ensures InOrder(rows) && multiset(rows) == multiset(RowsUnder(w, q, 0))
  {
    StableSortSorts(RowsUnder(w, q, 0));
    StableSort(RowsUnder(w, q, 0))
  }

  lemma SameRows(a: seq<Ranked>, b: seq<Ranked>, r: Ranked)
    requires multiset(a) == multiset(b)
    ensures r in a <==> r in b
  {
    assert r in a <==> r in multiset(a);
  }

  /** Roots (q == None) or children of a job, sorted by priority and then by creation. */
  function Siblings(w: Workflow, q: Place): (s: seq<nat>)
    ensures forall c :: c in s <==> 0 <= c < |w.jobs| && IsUnder(w, q, c)
    ensures forall i :: 0 <= i < |s| ==> w.IsJob(s[i]) && IsUnder(w, q, s[i])
    ensures Distinct(s)
  {
    var s := Ids(SortedRows(w, q));
    SiblingsAreRows(w, q, s);
    s
  }

  lemma SiblingsAreRows(w: Workflow, q: Place, s: seq<nat>)
    requires s == Ids(SortedRows(w, q))
    ensures forall i :: 0 <= i < |s| ==> w.IsJob(s[i]) && IsUnder(w, q, s[i])
    ensures forall c: nat :: w.IsJob(c) && IsUnder(w, q, c) ==> c in s
    ensures Distinct(s)
  {
    var rows, sorted := RowsUnder(w, q, 0), SortedRows(w, q);
    forall i | 0 <= i < |s| ensures sorted[i] in rows {
      SameRows(rows, sorted, sorted[i]);
    }
    forall c: nat | w.IsJob(c) && IsUnder(w, q, c) ensures c in s {
      var r := Ranked(PriorityRank(w.jobs[c].priority), c);
      SameRows(rows, sorted, r);
      var i :| 0 <= i < |sorted| && sorted[i] == r;
      assert s[i] == c;
    }
    forall i, j | 0 <= i < j < |s| ensures s[i] != s[j] {
      assert sorted[i] in rows && sorted[j] in rows;
      assert Before(sorted[i], sorted[j]);
    }
  }

  /** Siblings are ordered by priority rank, ties broken by creation; nothing else is. */
  lemma SiblingsOrder(w: Workflow, q: Place, i: nat, j: nat)
    requires i < j < |Siblings(w, q)|
    ensures var a, b := Siblings(w, q)[i], Siblings(w, q)[j];
      Before(Ranked(PriorityRank(w.jobs[a].priority), a), Ranked(PriorityRank(w.jobs[b].priority), b))
  {
    var rows, sorted := RowsUnder(w, q, 0), SortedRows(w, q);
    SameRows(rows, sorted, sorted[i]);
    SameRows(rows, sorted, sorted[j]);
  }

  /** HIGH before MEDIUM before LOW before NONE, and equal priorities as created. */
  lemma SiblingsByPriority(w: Workflow, q: Place, i: nat, j: nat)
    requires i < j < |Siblings(w, q)|
    ensures var a, b := Siblings(w, q)[i], Siblings(w, q)[j];
      var pa, pb := w.jobs[a].priority, w.jobs[b].priority;
      && (pb == HIGH ==> pa == HIGH)
      && (pb == MEDIUM ==> pa == HIGH || pa == MEDIUM)
      && (pa == NONE ==> pb == NONE)
      && (pa == pb ==> a < b)
  {
    hide Siblings;
    SiblingsOrder(w, q, i, j);
  }

  // ---------- a measure that acyclicity provides ----------

  ghost function Order(w: Workflow): (order: seq<nat>)
    requires WellFormed(w)
    ensures Distinct(order) && DependenciesFirst(DependencyGraph(w), order)
    ensures forall j :: 0 <= j < |w.jobs| ==> j in order
  {
    AcyclicIffOrdered(DependencyGraph(w));
    var order: seq<nat> :| Distinct(order) && DependenciesFirst(DependencyGraph(w), order) &&
      forall j :: j in DependencyGraph(w) ==> j in order;
    order
  }

  ghost function Level(w: Workflow, j: nat): (l: nat)
    requires WellFormed(w) && w.IsJob(j)
    ensures l < |Order(w)|
  {
    Position(Order(w), j)
  }

  ghost function Height(w: Workflow, q: Place): nat
    requires WellFormed(w) && IsPlace(w, q)
  {
    if q.None? then |Order(w)| + 1 else |Order(w)| - Level(w, q.value)
  }

  lemma Descends(w: Workflow, q: Place, c: nat)
    requires WellFormed(w) && IsPlace(w, q) && w.IsJob(c) && IsUnder(w, q, c)
    ensures Height(w, Some(c)) < Height(w, q)
    ensures q.Some? ==> Level(w, q.value) < Level(w, c)
  {
    if q.Some? {
      PositionDrops(DependencyGraph(w), Order(w), c, q.value);
    }
  }

  // ---------- the search ----------

  predicate LooksBelow(s: Status) {
    s == COMPLETED || s == SKIPPED
  }

  /** The dependencies of the jobs the search looks below. */
  function LookedBelow(w: Workflow, st: seq<Status>): Graph<nat>
    requires |st| == |w.jobs|
  {
    map j | 0 <= j < |w.jobs| && LooksBelow(st[j]) :: w.jobs[j].parents
  }

  /** All the search needs to end: no cycle among the jobs it looks below. */
  ghost predicate Searchable(w: Workflow, st: seq<Status>) {
    Closed(w) && |st| == |w.jobs| && !HasCycle(LookedBelow(w, st))
  }

  ghost function LookOrder(w: Workflow, st: seq<Status>): (order: seq<nat>)
    requires Searchable(w, st)
    ensures Distinct(order) && DependenciesFirst(LookedBelow(w, st), order)
    ensures forall j :: 0 <= j < |st| && LooksBelow(st[j]) ==> j in order
  {
    AcyclicIffOrdered(LookedBelow(w, st));
    var order: seq<nat> :| Distinct(order) && DependenciesFirst(LookedBelow(w, st), order) &&
      forall j :: j in LookedBelow(w, st) ==> j in order;
    order
  }

  /** How far down the search can still go from q. */
  ghost function SearchHeight(w: Workflow, st: seq<Status>, q: Place): nat
    requires WellFormed(w) || Searchable(w, st)
    requires IsPlace(w, q)
  {
    if WellFormed(w) then Height(w, q)
    else if q.None? then |LookOrder(w, st)| + 1
    else if q.value in LookOrder(w, st) then |LookOrder(w, st)| - Position(LookOrder(w, st), q.value)
    else 0
  }

  lemma SearchDescends(w: Workflow, st: seq<Status>, q: Place, c: nat)
    requires WellFormed(w) || Searchable(w, st)
    requires |st| == |w.jobs| && IsPlace(w, q) && w.IsJob(c) && IsUnder(w, q, c) && LooksBelow(st[c])
    ensures SearchHeight(w, st, Some(c)) < SearchHeight(w, st, q)
  {
    if WellFormed(w) {
      Descends(w, q, c);
    } else if q.Some? {
      PositionDrops(LookedBelow(w, st), LookOrder(w, st), c, q.value);
    }
  }

  /**
   * The scan behind both pickNextJobGLobal (q == None) and pickBestReadyDescendantDfs (q == Some(p)):
   * their loops treat every status alike, from the i-th sibling on.
   */
  function Search(w: Workflow, st: seq<Status>, q: Place, i: nat): (r: Option<nat>)
    requires WellFormed(w) || Searchable(w, st)
    requires |st| == |w.jobs| && IsPlace(w, q) && i <= |Siblings(w, q)|
    ensures r.Some? ==> w.IsJob(r.value) && st[r.value] == READY
    decreases SearchHeight(w, st, q), |Siblings(w, q)| - i
  {
    if i == |Siblings(w, q)| then None else
      var x := Siblings(w, q)[i];
      match st[x]
      case READY => Some(x)
      case QUEUED | PROCESSING | WAITING_FOR_DEPENDENCIES => None
      case COMPLETED | SKIPPED =>
        SearchDescends(w, st, q, x);
        var deeper := Search(w, st, Some(x), 0);
        if deeper.Some? then deeper else Search(w, st, q, i + 1)
      case FAILED | SCHEDULED => Search(w, st, q, i + 1)
  }

  function PickNextJob(w: Workflow, st: seq<Status>): Option<nat>
    requires WellFormed(w) || Searchable(w, st)
    requires |st| == |w.jobs|
  {
    Search(w, st, None, 0)
  }

  /** Exactly a QUEUED, PROCESSING or WAITING sibling hides what the search would find behind it. */
  lemma {:induction false} SearchBlocksIff(w: Workflow, st: seq<Status>, q: Place, i: nat)
    requires WellFormed(w) || Searchable(w, st)
    requires |st| == |w.jobs| && IsPlace(w, q) && i < |Siblings(w, q)| && Search(w, st, q, i + 1).Some?
    ensures Search(w, st, q, i).None? <==> st[Siblings(w, q)[i]] in {QUEUED, PROCESSING, WAITING_FOR_DEPENDENCIES}
    ensures st[Siblings(w, q)[i]] in {FAILED, SCHEDULED} ==> Search(w, st, q, i) == Search(w, st, q, i + 1)
  {
    hide WellFormed, Searchable, Siblings, SearchHeight;
  }

  /**
   * Whatever the rows, the job the search returns has no READY job of higher priority beside it, nor an older
   * one of the same priority; q is the place where it was found.
   */
  lemma {:induction false} PickedIsHighest(w: Workflow, st: seq<Status>, c: nat) returns (q: Place)
    requires WellFormed(w) || Searchable(w, st)
    requires |st| == |w.jobs| && PickNextJob(w, st) == Some(c)
    ensures IsPlace(w, q) && w.IsJob(c) && IsUnder(w, q, c)
    ensures forall x :: 0 <= x < |st| && x != c && IsUnder(w, q, x) && st[x] == READY ==>
      var pc, px := w.jobs[c].priority, w.jobs[x].priority;
      && (px == HIGH ==> pc == HIGH)
      && (px == MEDIUM ==> pc == HIGH || pc == MEDIUM)
      && (pc == NONE ==> px == NONE)
      && (pc == px ==> c < x)
  {
    hide Searchable, WellFormed, Siblings, Search;
    var i;
    q, i := FoundAt(w, st, None, 0, c);
    forall x | 0 <= x < |st| && x != c && IsUnder(w, q, x) && st[x] == READY
      ensures var pc, px := w.jobs[c].priority, w.jobs[x].priority;
        && (px == HIGH ==> pc == HIGH)
        && (px == MEDIUM ==> pc == HIGH || pc == MEDIUM)
        && (pc == NONE ==> px == NONE)
        && (pc == px ==> c < x)
    {
      assert x in Siblings(w, q);
      var k :| 0 <= k < |Siblings(w, q)| && Siblings(w, q)[k] == x;
      SiblingsByPriority(w, q, i, k);
    }
  }

  // Where the search finds c: the first READY job of its place.
  lemma {:induction false} FoundAt(w: Workflow, st: seq<Status>, q: Place, i: nat, c: nat) returns (found: Place, k: nat)
    requires WellFormed(w) || Searchable(w, st)
    requires |st| == |w.jobs| && IsPlace(w, q) && i <= |Siblings(w, q)| && Search(w, st, q, i) == Some(c)
    requires forall m :: 0 <= m < i ==> st[Siblings(w, q)[m]] != READY
    ensures IsPlace(w, found) && k < |Siblings(w, found)| && Siblings(w, found)[k] == c
    ensures forall m :: 0 <= m < k ==> st[Siblings(w, found)[m]] != READY
    decreases SearchHeight(w, st, q), |Siblings(w, q)| - i
  {
    hide Searchable, WellFormed, Siblings, SearchHeight;
    var x := Siblings(w, q)[i];
    if st[x] == READY {
      found, k := q, i;
    } else {
      if LooksBelow(st[x]) {
        SearchDescends(w, st, q, x);
      }
      if LooksBelow(st[x]) && Search(w, st, Some(x), 0).Some? {
        found, k := FoundAt(w, st, Some(x), 0, c);
      } else {
        found, k := FoundAt(w, st, q, i + 1, c);
      }
    }
  }
}
