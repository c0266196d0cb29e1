/** ChainService: validating, storing and scheduling workflows in the job table. */
module Chain {
  import opened Common
  import opened Graphs
  import opened Workflows
  import opened SchedulerMachine
  import opened CycleDetection
  import opened Queues
  import opened TenantCap

  datatype Strategy = STRICT | LENIENT

  /** A single name (empty if absent), or an array of names. */
  datatype DependsOn = One(key: string) | Many(keys: seq<string>)

  /** One submitted job; an absent key or type is the empty string. */
  datatype JobDto = JobDto(
    key: string, jobType: string, dependsOn: DependsOn,
    priorityLevel: Option<Priority>, retries: Option<nat>, strategy: Option<Strategy>)

  datatype ChainError =
    | InvalidJobsArray | DuplicateKeys | NoRoot | CircularDependency
    | MissingKeyOrType | ParentNotFound | NotScheduled(error: QueueError)

  // ---------- what a submission means ----------

  // An empty array counts as given.
  predicate Given(d: DependsOn) {
    d.Many? || d.key != ""
  }

  /** The parents a job names. */
  function Dependencies(job: JobDto): seq<string> {
    match job.dependsOn
    case One(k) => if k == "" then [] else [k]
    case Many(ks) => ks
  }

  function Joined(keys: seq<string>): string {
    if keys == [] then "" else if |keys| == 1 then keys[0] else keys[0] + "," + Joined(keys[1..])
  }

  /** The cycle check's node for a job's dependsOn; i is the job's position. */
  function CheckedNode(d: DependsOn, i: nat): Node {
    match d
    case One(k) => Name(k)
    case Many(ks) => ArrayOf(i, Joined(ks))
  }

  // The name under which the check looks a dependsOn up: an array is looked up as a whole.
  function CheckedNames(job: JobDto): seq<string> {
    if Given(job.dependsOn) then [CheckedNode(job.dependsOn, 0).key] else []
  }

  /** The dependencies as the cycle check sees them. */
  function KeyGraph(jobs: seq<JobDto>): Graph<string> {
    if jobs == [] then map[]
    else KeyGraph(jobs[..|jobs| - 1])[jobs[|jobs| - 1].key := CheckedNames(jobs[|jobs| - 1])]
  }

  function NodesOf(job: JobDto, i: nat): seq<Node> {
    if Given(job.dependsOn) then [CheckedNode(job.dependsOn, i)] else []
  }

  function KeyTable(jobs: seq<JobDto>): Table {
    if jobs == [] then map[]
    else KeyTable(jobs[..|jobs| - 1])[jobs[|jobs| - 1].key := NodesOf(jobs[|jobs| - 1], |jobs| - 1)]
  }

  lemma {:induction false} TableNames(jobs: seq<JobDto>)
    ensures NameGraph(KeyTable(jobs)) == KeyGraph(jobs)
  {
    if jobs != [] {
      var n := |jobs| - 1;
      TableNames(jobs[..n]);
      assert NamesOf(NodesOf(jobs[n], n)) == CheckedNames(jobs[n]);
    }
  }

  function Keys(jobs: seq<JobDto>): seq<string> {
    seq(|jobs|, i requires 0 <= i < |jobs| => jobs[i].key)
  }

  function Orders(o: Option<Priority>): Priority { if o.Some? then o.value else Priority.NONE }

  /** The row saved for a job, before its dependency rows exist. */
  function Row(job: JobDto): JobSpec {
    JobSpec(job.jobType, Orders(job.priorityLevel),
            job.strategy.None? || job.strategy.value == STRICT,
            if job.retries.Some? then job.retries.value else 3, [])
  }

  function RowStatus(job: JobDto): Status {
    if |Dependencies(job)| > 0 then WAITING_FOR_DEPENDENCIES else READY
  }

  /** The first job with key k, or |jobs| if there is none. */
  function IndexOf(jobs: seq<JobDto>, k: string): (i: nat)
    ensures i <= |jobs| && (i < |jobs| ==> jobs[i].key == k)
    ensures i == |jobs| ==> forall j :: 0 <= j < |jobs| ==> jobs[j].key != k
  {
    IndexFrom(jobs, k, 0)
  }

  function IndexFrom(jobs: seq<JobDto>, k: string, from: nat): (i: nat)
    requires from <= |jobs|
    ensures from <= i <= |jobs| && (i < |jobs| ==> jobs[i].key == k)
    ensures forall j :: from <= j < i ==> jobs[j].key != k
    decreases |jobs| - from
  {
    if from < |jobs| && jobs[from].key != k then IndexFrom(jobs, k, from + 1) else from
  }

  predicate Complete(job: JobDto) {
    job.key != "" && job.jobType != ""
  }

  /** The first name from i on that no job has, or |keys|. */
  function FirstUnknown(jobs: seq<JobDto>, keys: seq<string>, i: nat): (n: nat)
    requires i <= |keys|
    ensures i <= n <= |keys| && (n < |keys| ==> IndexOf(jobs, keys[n]) == |jobs|)
    ensures forall j :: i <= j < n ==> IndexOf(jobs, keys[j]) < |jobs|
    decreases |keys| - i
  {
    if i < |keys| && IndexOf(jobs, keys[i]) < |jobs| then FirstUnknown(jobs, keys, i + 1) else i
  }

  predicate ParentsKnown(jobs: seq<JobDto>, job: JobDto) {
    FirstUnknown(jobs, Dependencies(job), 0) == |Dependencies(job)|
  }

  function Parents(jobs: seq<JobDto>, job: JobDto): seq<nat> {
    var keys := Dependencies(job);
    seq(|keys|, i requires 0 <= i < |keys| => IndexOf(jobs, keys[i]))
  }

  /** The workflow with all dependency rows of the first n jobs, and the first k of the next one. */
  function StoredPart(jobs: seq<JobDto>, n: nat, k: nat): Workflow {
    Workflow(seq(|jobs|, i requires 0 <= i < |jobs| =>
      Row(jobs[i]).(parents := if i < n then Parents(jobs, jobs[i])
                               else if i == n && k <= |Dependencies(jobs[i])| then Parents(jobs, jobs[i])[..k]
                               else [])))
  }

  function Stored(jobs: seq<JobDto>, n: nat): Workflow {
    StoredPart(jobs, n, 0)
  }

  lemma {:induction false} StoredRow(jobs: seq<JobDto>, n: nat, k: nat)
    requires n < |jobs| && k < |Dependencies(jobs[n])|
    ensures var rows, more := StoredPart(jobs, n, k).jobs, StoredPart(jobs, n, k + 1).jobs;
      && |rows| == |more| == |jobs|
      && more == rows[n := rows[n].(parents := rows[n].parents + [IndexOf(jobs, Dependencies(jobs[n])[k])])]
  {
    hide IndexOf, Row, Dependencies;
    var rows, more := StoredPart(jobs, n, k).jobs, StoredPart(jobs, n, k + 1).jobs;
    assert forall c :: 0 <= c < |jobs| && c != n ==> more[c] == rows[c];
    assert more[n].parents == rows[n].parents + [IndexOf(jobs, Dependencies(jobs[n])[k])];
  }

  lemma {:induction false} StoredNext(jobs: seq<JobDto>, n: nat)
    requires n < |jobs|
    ensures StoredPart(jobs, n, |Dependencies(jobs[n])|) == Stored(jobs, n + 1)
  {
    var all, next := StoredPart(jobs, n, |Dependencies(jobs[n])|).jobs, Stored(jobs, n + 1).jobs;
    assert all[n].parents == Parents(jobs, jobs[n]);
    assert forall c :: 0 <= c < |jobs| ==> all[c].parents == next[c].parents;
    assert all == next;
  }

  /** What is stored when the first orphan's first unknown parent stops the loop. */
  function StoredBeforeOrphan(jobs: seq<JobDto>): Workflow
  {
    var n := FirstOrphan(jobs, 0);
    if n < |jobs| then StoredPart(jobs, n, FirstUnknown(jobs, Dependencies(jobs[n]), 0)) else Stored(jobs, n)
  }

  /** What the checks before the first save say, in their order. */
  ghost function Rejection(jobs: seq<JobDto>): Option<ChainError> {
    if jobs == [] then Some(InvalidJobsArray)
    else if !Distinct(Keys(jobs)) then Some(DuplicateKeys)
    else if forall j :: 0 <= j < |jobs| ==> Given(jobs[j].dependsOn) then Some(NoRoot)
    else if HasCycle(KeyGraph(jobs)) then Some(CircularDependency)
    else None
  }

  /** The first job from i on without key or type, or |jobs|. */
  function FirstIncomplete(jobs: seq<JobDto>, i: nat): (n: nat)
    requires i <= |jobs|
    ensures i <= n <= |jobs| && (n < |jobs| ==> !Complete(jobs[n]))
    ensures forall j {:trigger Complete(jobs[j])} :: i <= j < n ==> Complete(jobs[j])
    decreases |jobs| - i
  {
    if i < |jobs| && Complete(jobs[i]) then FirstIncomplete(jobs, i + 1) else i
  }

  /** The first job from i on whose parent was not submitted, or |jobs|. */
  function FirstOrphan(jobs: seq<JobDto>, i: nat): (n: nat)
    requires i <= |jobs|
    ensures i <= n <= |jobs| && (n < |jobs| ==> !ParentsKnown(jobs, jobs[n]))
    ensures forall j {:trigger ParentsKnown(jobs, jobs[j])} :: i <= j < n ==> ParentsKnown(jobs, jobs[j])
    decreases |jobs| - i
  {
    if i < |jobs| && ParentsKnown(jobs, jobs[i]) then FirstOrphan(jobs, i + 1) else i
  }

  /** The rows saved when the first n jobs have been stored and no dependency row exists. */
  function Saved(jobs: seq<JobDto>, n: nat): Workflow
    requires n <= |jobs|
  {
    Workflow(seq(n, i requires 0 <= i < n => Row(jobs[i])))
  }

  function SavedStatuses(jobs: seq<JobDto>, n: nat): seq<Status>
    requires n <= |jobs|
  {
    seq(n, i requires 0 <= i < n => RowStatus(jobs[i]))
  }

  lemma SavedNext(jobs: seq<JobDto>, i: nat)
    requires i < |jobs|
    ensures Saved(jobs, i).jobs + [Row(jobs[i])] == Saved(jobs, i + 1).jobs
    ensures SavedStatuses(jobs, i) + [RowStatus(jobs[i])] == SavedStatuses(jobs, i + 1)
  {
  }

  /** The map from each submitted key to the position of its job. */
  ghost predicate IndexesKeys(jobs: seq<JobDto>, jobMap: map<string, nat>) {
    forall k :: (k in jobMap <==> IndexOf(jobs, k) < |jobs|) && (k in jobMap ==> jobMap[k] == IndexOf(jobs, k))
  }

  lemma AllSaved(jobs: seq<JobDto>)
    ensures Saved(jobs, |jobs|) == Stored(jobs, 0)
    ensures SavedStatuses(jobs, |jobs|) == InitialStatuses(Stored(jobs, |jobs|))
  {
    assert forall i :: 0 <= i < |jobs| ==> Stored(jobs, 0).jobs[i].parents == [];
    assert Saved(jobs, |jobs|).jobs == Stored(jobs, 0).jobs;
  }

  // With distinct keys, a map from every key to a position holding it maps to the first such position.
  lemma MapIsIndex(jobs: seq<JobDto>, jobMap: map<string, nat>)
    requires Distinct(Keys(jobs))
    requires forall k :: k in jobMap ==> jobMap[k] < |jobs| && jobs[jobMap[k]].key == k
    requires forall j :: 0 <= j < |jobs| ==> jobs[j].key in jobMap
    ensures IndexesKeys(jobs, jobMap)
  {
    forall k ensures (k in jobMap <==> IndexOf(jobs, k) < |jobs|) && (k in jobMap ==> jobMap[k] == IndexOf(jobs, k)) {
      var i := IndexOf(jobs, k);
      if k in jobMap {
        assert Keys(jobs)[jobMap[k]] == k;
        assert i < |jobs| && Keys(jobs)[i] == k;
      }
    }
  }

  predicate AllStorable(jobs: seq<JobDto>) {
    && (forall j {:trigger Complete(jobs[j])} :: 0 <= j < |jobs| ==> Complete(jobs[j]))
    && (forall j {:trigger ParentsKnown(jobs, jobs[j])} :: 0 <= j < |jobs| ==> ParentsKnown(jobs, jobs[j]))
  }

  lemma {:induction false} KeyGraphAt(jobs: seq<JobDto>, i: nat)
    requires Distinct(Keys(jobs)) && i < |jobs|
    ensures jobs[i].key in KeyGraph(jobs) && KeyGraph(jobs)[jobs[i].key] == CheckedNames(jobs[i])
  {
    var n := |jobs| - 1;
    if i < n {
      var front := jobs[..n];
      assert forall k :: 0 <= k < n ==> Keys(front)[k] == Keys(jobs)[k];
      KeyGraphAt(front, i);
      assert Keys(jobs)[i] != Keys(jobs)[n];
    }
  }

  lemma {:induction false} KeyGraphKeys(jobs: seq<JobDto>, k: string)
    requires k in KeyGraph(jobs)
    ensures IndexOf(jobs, k) < |jobs|
  {
    var n := |jobs| - 1;
    if k != jobs[n].key {
      KeyGraphKeys(jobs[..n], k);
      assert jobs[IndexOf(jobs[..n], k)].key == k;
    }
  }

  /** No array of two or more names. */
  predicate OneParentEach(jobs: seq<JobDto>) {
    forall j {:trigger Dependencies(jobs[j])} :: 0 <= j < |jobs| ==> |Dependencies(jobs[j])| <= 1
  }

  lemma {:induction false} OneIndex(jobs: seq<JobDto>, i: nat)
    requires Distinct(Keys(jobs)) && i < |jobs|
    ensures IndexOf(jobs, jobs[i].key) == i
  {
    assert Keys(jobs)[i] == jobs[i].key;
    assert Keys(jobs)[IndexOf(jobs, jobs[i].key)] == jobs[i].key;
  }

  lemma {:induction false} StoredParents(jobs: seq<JobDto>, u: nat)
    requires u < |jobs|
    ensures Stored(jobs, |jobs|).jobs[u].parents == Parents(jobs, jobs[u])
    ensures Succ(DependencyGraph(Stored(jobs, |jobs|)), u) == Parents(jobs, jobs[u])
  {
  }

  /** No job is called like an array of several names joined by commas. */
  predicate NoJoinedNames(jobs: seq<JobDto>) {
    forall j {:trigger Dependencies(jobs[j])} ::
      0 <= j < |jobs| && |Dependencies(jobs[j])| > 1 ==> IndexOf(jobs, Joined(Dependencies(jobs[j]))) == |jobs|
  }

  /** The rows of the jobs that name exactly one parent. */
  function SingleParents(jobs: seq<JobDto>): Graph<nat> {
    map j | 0 <= j < |jobs| && |Dependencies(jobs[j])| == 1 :: Parents(jobs, jobs[j])
  }

  lemma NameChecked(jobs: seq<JobDto>, u: nat, v: nat)
    requires u < |jobs| && v < |jobs| && NoJoinedNames(jobs) && jobs[v].key != ""
    ensures jobs[v].key in CheckedNames(jobs[u]) <==> |Dependencies(jobs[u])| == 1 && jobs[v].key == Dependencies(jobs[u])[0]
  {
    hide IndexFrom;
    var names := Dependencies(jobs[u]);
    if |names| > 1 {
      assert CheckedNames(jobs[u]) == [Joined(names)];
    }
  }

  /** The check sees exactly the edges of the jobs that name one parent. */
  lemma {:induction false} EdgesAgree(jobs: seq<JobDto>, u: nat, v: nat)
    requires Distinct(Keys(jobs)) && AllStorable(jobs) && NoJoinedNames(jobs) && u < |jobs| && v < |jobs|
    ensures Edge(SingleParents(jobs), u, v) <==> Edge(KeyGraph(jobs), jobs[u].key, jobs[v].key)
  {
    hide KeyGraph, Dependencies, CheckedNames, AllStorable, Keys, NoJoinedNames;
    KeyGraphAt(jobs, u);
    OneIndex(jobs, v);
    KeyGiven(jobs, v);
    NameChecked(jobs, u, v);
    var names := Dependencies(jobs[u]);
    assert |names| == 1 ==> Parents(jobs, jobs[u]) == [IndexOf(jobs, names[0])];
  }

  lemma KeyGiven(jobs: seq<JobDto>, v: nat)
    requires AllStorable(jobs) && v < |jobs|
    ensures jobs[v].key != ""
  {
    assert Complete(jobs[v]);
  }

  lemma {:induction false} RowEdgeInside(jobs: seq<JobDto>, u: nat, v: nat)
    requires AllStorable(jobs) && Edge(DependencyGraph(Stored(jobs, |jobs|)), u, v)
    ensures u < |jobs| && v < |jobs|
  {
    StoredParents(jobs, u);
    assert ParentsKnown(jobs, jobs[u]);
  }

  lemma {:induction false} StoredIsClosed(jobs: seq<JobDto>)
    requires AllStorable(jobs)
    ensures Closed(Stored(jobs, |jobs|))
  {
    forall j: nat, p: nat | j < |jobs| && p in Stored(jobs, |jobs|).jobs[j].parents ensures p < |jobs| {
      RowEdgeInside(jobs, j, p);
    }
  }

  /**
   * What the check finds, exactly: where no job is called like a joined array, the cycles all of whose jobs
   * name one parent.
   */
  lemma {:induction false} CheckFinds(jobs: seq<JobDto>)
    requires Distinct(Keys(jobs)) && AllStorable(jobs)
    requires forall j :: 0 <= j < |jobs| && |Dependencies(jobs[j])| > 1 ==> Joined(Dependencies(jobs[j])) !in Keys(jobs)
    ensures HasCycle(KeyGraph(jobs)) <==> HasCycle(SingleParents(jobs))
  {
    hide KeyGraph, SingleParents, AllStorable, Distinct, Keys, Reaches;
    forall j | 0 <= j < |jobs| && |Dependencies(jobs[j])| > 1
      ensures IndexOf(jobs, Joined(Dependencies(jobs[j]))) == |jobs|
    {
      InKeysIff(jobs, Joined(Dependencies(jobs[j])));
    }
    if v: nat :| Reaches(SingleParents(jobs), v, v) {
      RowCycleIsKeyCycle(jobs, v);
    }
    if k :| Reaches(KeyGraph(jobs), k, k) {
      KeyCycleIsRowCycle(jobs, k);
    }
  }

  lemma SingleEdgeInside(jobs: seq<JobDto>, u: nat, v: nat)
    requires AllStorable(jobs) && Edge(SingleParents(jobs), u, v)
    ensures u < |jobs| && v < |jobs|
  {
    StoredParents(jobs, u);
    RowEdgeInside(jobs, u, v);
  }

  lemma {:induction false} RowCycleIsKeyCycle(jobs: seq<JobDto>, v: nat)
    requires Distinct(Keys(jobs)) && AllStorable(jobs) && NoJoinedNames(jobs)
    requires Reaches(SingleParents(jobs), v, v)
    ensures HasCycle(KeyGraph(jobs))
  {
    hide Walk, KeyGraph, AllStorable, NoJoinedNames, SingleParents;
    var g := SingleParents(jobs);
    var p: seq<nat> :| |p| >= 2 && p[0] == v && p[|p| - 1] == v && Walk(g, p);
    var keys := seq(|p|, i requires 0 <= i < |p| => KeyAt(jobs, p[i]));
    forall i | 0 <= i < |p| - 1 ensures StepAt(KeyGraph(jobs), keys, i) {
      WalkStep(g, p, i);
      SingleEdgeInside(jobs, p[i], p[i + 1]);
      EdgesAgree(jobs, p[i], p[i + 1]);
    }
    StepsReach(KeyGraph(jobs), keys, |p| - 1);
  }

  lemma {:induction false} KeyCycleIsRowCycle(jobs: seq<JobDto>, k: string)
    requires Distinct(Keys(jobs)) && AllStorable(jobs) && NoJoinedNames(jobs)
    requires Reaches(KeyGraph(jobs), k, k)
    ensures HasCycle(SingleParents(jobs))
  {
    hide Walk, KeyGraph, AllStorable, NoJoinedNames, SingleParents;
    var g, h := KeyGraph(jobs), SingleParents(jobs);
    var p: seq<string> :| |p| >= 2 && p[0] == k && p[|p| - 1] == k && Walk(g, p);
    forall i | 0 <= i < |p| ensures IndexOf(jobs, p[i]) < |jobs| {
      WalkStep(g, p, if i < |p| - 1 then i else 0);
      KeyGraphKeys(jobs, p[i]);
    }
    var rows: seq<nat> := seq(|p|, i requires 0 <= i < |p| => IndexOf(jobs, p[i]));
    forall i | 0 <= i < |p| - 1 ensures StepAt(h, rows, i) {
      WalkStep(g, p, i);
      EdgesAgree(jobs, rows[i], rows[i + 1]);
    }
    StepsReach(h, rows, |p| - 1);
  }

  /** So its verdict is right about the rows to be stored, if no array names several parents. */
  lemma {:induction false} CyclesAgree(jobs: seq<JobDto>)
    requires Distinct(Keys(jobs)) && AllStorable(jobs) && OneParentEach(jobs)
    ensures HasCycle(KeyGraph(jobs)) <==> HasCycle(DependencyGraph(Stored(jobs, |jobs|)))
  {
    CheckFinds(jobs);
    forall u: nat, v: nat ensures Edge(SingleParents(jobs), u, v) <==> Edge(DependencyGraph(Stored(jobs, |jobs|)), u, v) {
      if u < |jobs| {
        StoredParents(jobs, u);
        assert |Dependencies(jobs[u])| <= 1;
      }
    }
    CycleCarries(SingleParents(jobs), DependencyGraph(Stored(jobs, |jobs|)));
    CycleCarries(DependencyGraph(Stored(jobs, |jobs|)), SingleParents(jobs));
  }

  /** What passes the checks, with at most one parent each, is stored as an acyclic forest. */
  lemma {:induction false} AcceptedIsForest(jobs: seq<JobDto>)
    requires Rejection(jobs).None? && AllStorable(jobs) && OneParentEach(jobs)
    ensures WellFormed(Stored(jobs, |jobs|)) && Forest(Stored(jobs, |jobs|))
  {
    CyclesAgree(jobs);
    StoredIsClosed(jobs);
    forall j | 0 <= j < |jobs| ensures |Stored(jobs, |jobs|).jobs[j].parents| <= 1 {
      StoredParents(jobs, j);
    }
  }

  function KeyAt(jobs: seq<JobDto>, i: nat): string {
    if i < |jobs| then jobs[i].key else ""
  }

  // A workflow none of whose jobs has been started can be searched whatever its rows.
  lemma FreshIsSearchable(w: Workflow)
    requires Closed(w)
    ensures Searchable(w, InitialStatuses(w))
  {
    assert LookedBelow(w, InitialStatuses(w)) == map[];
    OrderedIsAcyclic(LookedBelow(w, InitialStatuses(w)), []);
  }

  // ---------- what is refused and what is stored, in the submission's own terms ----------

  /** Which check refuses a submission before anything is saved. */
  lemma {:induction false} RefusedIff(jobs: seq<JobDto>)
    ensures Rejection(jobs) == Some(InvalidJobsArray) <==> jobs == []
    ensures Rejection(jobs) == Some(DuplicateKeys) <==> exists a, b :: 0 <= a < b < |jobs| && jobs[a].key == jobs[b].key
    ensures Rejection(jobs) == Some(NoRoot) <==>
      && jobs != [] && (forall a, b :: 0 <= a < b < |jobs| ==> jobs[a].key != jobs[b].key)
      && (forall j :: 0 <= j < |jobs| ==> jobs[j].dependsOn != One(""))
    ensures Rejection(jobs) == Some(CircularDependency) <==>
      && (forall a, b :: 0 <= a < b < |jobs| ==> jobs[a].key != jobs[b].key)
      && (exists j :: 0 <= j < |jobs| && jobs[j].dependsOn == One("")) && HasCycle(KeyGraph(jobs))
    ensures Rejection(jobs) == None <==>
      && (forall a, b :: 0 <= a < b < |jobs| ==> jobs[a].key != jobs[b].key)
      && (exists j :: 0 <= j < |jobs| && jobs[j].dependsOn == One("")) && !HasCycle(KeyGraph(jobs))
  {
    hide HasCycle, KeyGraph;
    DistinctKeysIff(jobs);
    RootIff(jobs);
    hide Keys, Given, Distinct;
  }

  lemma DistinctKeysIff(jobs: seq<JobDto>)
    ensures Distinct(Keys(jobs)) <==> forall a, b :: 0 <= a < b < |jobs| ==> jobs[a].key != jobs[b].key
  {
    if !Distinct(Keys(jobs)) {
      var a, b :| 0 <= a < b < |jobs| && Keys(jobs)[a] == Keys(jobs)[b];
      assert jobs[a].key == jobs[b].key;
    } else {
      forall a, b | 0 <= a < b < |jobs| ensures jobs[a].key != jobs[b].key {
        assert Keys(jobs)[a] != Keys(jobs)[b];
      }
    }
  }

  lemma RootIff(jobs: seq<JobDto>)
    ensures (forall j :: 0 <= j < |jobs| ==> Given(jobs[j].dependsOn))
      <==> forall j :: 0 <= j < |jobs| ==> jobs[j].dependsOn != One("")
  {
  }

  /** Which jobs stop the saving: one without key or type, then one naming a parent that was not submitted. */
  lemma {:induction false} StoppedIff(jobs: seq<JobDto>)
    ensures FirstIncomplete(jobs, 0) < |jobs| <==> exists j :: 0 <= j < |jobs| && (jobs[j].key == "" || jobs[j].jobType == "")
    ensures FirstOrphan(jobs, 0) < |jobs| <==> !forall j :: 0 <= j < |jobs| ==>
      match jobs[j].dependsOn
      case One(k) => k == "" || k in Keys(jobs)
      case Many(ks) => forall n :: 0 <= n < |ks| ==> ks[n] in Keys(jobs)
  {
    var n, m := FirstIncomplete(jobs, 0), FirstOrphan(jobs, 0);
    if n < |jobs| {
      assert !Complete(jobs[n]);
    } else {
      forall j | 0 <= j < |jobs| ensures jobs[j].key != "" && jobs[j].jobType != "" {
        assert Complete(jobs[j]);
      }
    }
    forall j | 0 <= j < |jobs| ensures ParentsKnown(jobs, jobs[j]) <==> match jobs[j].dependsOn
      case One(k) => k == "" || k in Keys(jobs)
      case Many(ks) => forall i :: 0 <= i < |ks| ==> ks[i] in Keys(jobs)
    {
      KnownIff(jobs, jobs[j]);
    }
    hide ParentsKnown, Keys;
    assert m < |jobs| ==> !ParentsKnown(jobs, jobs[m]);
    assert forall j {:trigger jobs[j]} :: 0 <= j < m ==> ParentsKnown(jobs, jobs[j]);
  }

  lemma {:induction false} KnownIff(jobs: seq<JobDto>, job: JobDto)
    ensures ParentsKnown(jobs, job) <==> match job.dependsOn
      case One(k) => k == "" || k in Keys(jobs)
      case Many(ks) => forall n :: 0 <= n < |ks| ==> ks[n] in Keys(jobs)
  {
    var names := Dependencies(job);
    forall n | 0 <= n < |names| ensures IndexOf(jobs, names[n]) < |jobs| <==> names[n] in Keys(jobs) {
      InKeysIff(jobs, names[n]);
    }
    var n := FirstUnknown(jobs, names, 0);
  }

  lemma InKeysIff(jobs: seq<JobDto>, k: string)
    ensures IndexOf(jobs, k) < |jobs| <==> k in Keys(jobs)
  {
    var i := IndexOf(jobs, k);
    if i < |jobs| {
      assert Keys(jobs)[i] == k;
    }
    assert forall j :: 0 <= j < |jobs| ==> Keys(jobs)[j] == jobs[j].key;
  }

  ghost predicate KeysDiffer(jobs: seq<JobDto>) {
    forall a, b :: 0 <= a < b < |jobs| ==> jobs[a].key != jobs[b].key
  }

  ghost predicate SomeRoot(jobs: seq<JobDto>) {
    exists j :: 0 <= j < |jobs| && jobs[j].dependsOn == One("")
  }

  ghost predicate AllComplete(jobs: seq<JobDto>) {
    forall j :: 0 <= j < |jobs| ==> jobs[j].key != "" && jobs[j].jobType != ""
  }

  ghost predicate AllParentsGiven(jobs: seq<JobDto>) {
    forall j :: 0 <= j < |jobs| ==>
      match jobs[j].dependsOn
      case One(k) => k == "" || k in Keys(jobs)
      case Many(ks) => forall n :: 0 <= n < |ks| ==> ks[n] in Keys(jobs)
  }

  // The two lemmas above in those terms.
  lemma {:induction false} SubmissionChecks(jobs: seq<JobDto>)
    ensures Rejection(jobs) == (
      if jobs == [] then Some(InvalidJobsArray) else if !KeysDiffer(jobs) then Some(DuplicateKeys)
      else if !SomeRoot(jobs) then Some(NoRoot) else if HasCycle(KeyGraph(jobs)) then Some(CircularDependency) else None)
    ensures jobs == [] ==> KeysDiffer(jobs) && !SomeRoot(jobs)
    ensures Distinct(Keys(jobs)) <==> KeysDiffer(jobs)
    ensures FirstIncomplete(jobs, 0) == |jobs| <==> AllComplete(jobs)
    ensures FirstOrphan(jobs, 0) == |jobs| <==> AllParentsGiven(jobs)
    ensures AllStorable(jobs) <==> FirstIncomplete(jobs, 0) == |jobs| && FirstOrphan(jobs, 0) == |jobs|
  {
    hide HasCycle, KeyGraph, FirstIncomplete, FirstOrphan, ParentsKnown, Keys, Rejection;
    RefusedIff(jobs);
    StoppedIff(jobs);
    DistinctKeysIff(jobs);
    StorableIff(jobs);
  }

  lemma {:induction false} StorableIff(jobs: seq<JobDto>)
    ensures AllStorable(jobs) <==> FirstIncomplete(jobs, 0) == |jobs| && FirstOrphan(jobs, 0) == |jobs|
  {
    hide ParentsKnown, Complete;
    var n, m := FirstIncomplete(jobs, 0), FirstOrphan(jobs, 0);
    assert n < |jobs| ==> !Complete(jobs[n]);
    assert m < |jobs| ==> !ParentsKnown(jobs, jobs[m]);
  }

  /**
   * What a stored row says: the submitted type, NONE unless a priority is given, three attempts unless a number
   * is, STRICT unless LENIENT is asked for, and the rows of exactly the named parents; it waits if it has any.
   */
  lemma {:induction false} StoredRowMeans(jobs: seq<JobDto>, j: nat)
    requires AllStorable(jobs) && j < |jobs|
    ensures var row, d := Stored(jobs, |jobs|).jobs[j], jobs[j];
      && row.jobType == d.jobType
      && (d.priorityLevel == None ==> row.priority == NONE)
      && (forall p :: d.priorityLevel == Some(p) ==> row.priority == p)
      && (d.retries == None ==> row.retries == 3)
      && (forall n :: d.retries == Some(n) ==> row.retries == n)
      && (row.strict <==> d.strategy != Some(LENIENT))
      && InitialStatuses(Stored(jobs, |jobs|))[j] == (if row.parents == [] then READY else WAITING_FOR_DEPENDENCIES)
    ensures var parents := Stored(jobs, |jobs|).jobs[j].parents;
      match jobs[j].dependsOn
      case One(k) => if k == "" then parents == [] else |parents| == 1 && parents[0] < |jobs| && jobs[parents[0]].key == k
      case Many(ks) => |parents| == |ks| && forall n :: 0 <= n < |ks| ==> parents[n] < |jobs| && jobs[parents[n]].key == ks[n]
  {
    StoredParents(jobs, j);
    assert ParentsKnown(jobs, jobs[j]);
  }

  /** The same of the rows left behind: all parents of earlier jobs, and the orphan's own up to the unknown one. */
  lemma {:induction false} LeftoverRows(jobs: seq<JobDto>, j: nat)
    requires FirstOrphan(jobs, 0) < |jobs| && j < |jobs|
    ensures |StoredBeforeOrphan(jobs).jobs| == |jobs|
    ensures var n, parents, names := FirstOrphan(jobs, 0), StoredBeforeOrphan(jobs).jobs[j].parents, Dependencies(jobs[j]);
      && |parents| <= |names|
      && (forall i :: 0 <= i < |parents| ==> parents[i] < |jobs| && jobs[parents[i]].key == names[i])
      && (j < n ==> |parents| == |names|)
      && (j == n ==> |parents| < |names| && names[|parents|] !in Keys(jobs))
      && (j > n ==> parents == [])
  {
    var n := FirstOrphan(jobs, 0);
    if j < n {
      assert ParentsKnown(jobs, jobs[j]);
    } else if j == n {
      InKeysIff(jobs, Dependencies(jobs[n])[FirstUnknown(jobs, Dependencies(jobs[n]), 0)]);
    }
  }

  // ---------- what scheduling does ----------

  lemma ParentsByPosition(w: Workflow, st: seq<Status>, d: nat)
    requires WellFormed(w) && |st| == |w.jobs| && w.IsJob(d)
    ensures var parents := w.jobs[d].parents;
      ParentsCompleted(w, st, d) <==>
        forall n :: 0 <= n < |parents| ==> parents[n] < |st| && st[parents[n]] == COMPLETED
  {
    var parents := w.jobs[d].parents;
    assert forall n :: 0 <= n < |parents| ==> parents[n] in parents;
  }

  /** unlockChildren, all children at once. */
  function UnlockAll(w: Workflow, st: seq<Status>, p: nat): (st': seq<Status>)
    requires WellFormed(w) && |st| == |w.jobs|
    ensures |st'| == |st|
  {
    seq(|st|, d requires 0 <= d < |st| =>
      if IsChild(w, p, d) && st[d] == WAITING_FOR_DEPENDENCIES && ParentsCompleted(w, st, d) then READY else st[d])
  }

  /** handleParentFailure's loop, all children at once. */
  function SkipAll(w: Workflow, st: seq<Status>, p: nat): (st': seq<Status>)
    requires |st| == |w.jobs|
    ensures |st'| == |st|
  {
    seq(|st|, d requires 0 <= d < |st| =>
      if IsChild(w, p, d) && w.jobs[d].strict then SKIPPED else st[d])
  }

  function PayloadOf(w: Workflow, flow: nat, tenant: nat, c: nat, q: QueueName): Payload
    requires w.IsJob(c)
  {
    Payload(FlowJob(flow, c), w.jobs[c].jobType, tenant, q, w.jobs[c].retries, w.jobs[c].priority)
  }

  /** scheduleNextJob: new job rows, new cap state, and the error it throws, if any. */
  function Schedule(w: Workflow, st: seq<Status>, cap: Cap, flow: nat, tenant: nat, up: bool)
    : (r: (seq<Status>, Cap, Option<QueueError>))
    requires WellFormed(w) || Searchable(w, st)
    requires |st| == |w.jobs| && HasTenant(cap, tenant)
    ensures |r.0| == |st| && HasTenant(r.1, tenant)
  {
    if AnyActive(st) then (st, cap, None)
    else match PickNextJob(w, st)
      case None => (st, cap, None)
      case Some(c) =>
        var (cap', error) := SubmitPicked(w, cap, flow, tenant, c, up);
        (st[c := QUEUED], cap', error)
  }

  function SubmitPicked(w: Workflow, cap: Cap, flow: nat, tenant: nat, c: nat, up: bool): (r: (Cap, Option<QueueError>))
    requires w.IsJob(c) && HasTenant(cap, tenant)
    ensures HasTenant(r.0, tenant)
  {
    match ResolveQueueName(w.jobs[c].jobType)
    case Err(e) => (cap, Some(e))
    case Ok(q) =>
      var (cap', verdict) := Submit(cap, PayloadOf(w, flow, tenant, c, q), up);
      (cap', if verdict.Ok? then None else Some(verdict.error))
  }

  /**
   * Priority at the scheduler: the job it marks QUEUED was READY, and no READY job of the place where it was found
   * has a higher priority, or the same one and an earlier creation.
   */
  lemma QueuesHighest(w: Workflow, st: seq<Status>, cap: Cap, flow: nat, tenant: nat, up: bool, c: nat) returns (q: Place)
    requires WellFormed(w) || Searchable(w, st)
    requires |st| == |w.jobs| && HasTenant(cap, tenant) && w.IsJob(c)
    requires Schedule(w, st, cap, flow, tenant, up).0[c] == QUEUED && st[c] != QUEUED
    ensures Schedule(w, st, cap, flow, tenant, up).0 == st[c := QUEUED] && st[c] == READY
    ensures IsPlace(w, q) && IsUnder(w, q, c)
    ensures forall x :: 0 <= x < |st| && x != c && IsUnder(w, q, x) && st[x] == READY ==>
      var pc, px := w.jobs[c].priority, w.jobs[x].priority;
      && (px == HIGH ==> pc == HIGH)
      && (px == MEDIUM ==> pc == HIGH || pc == MEDIUM)
      && (pc == NONE ==> px == NONE)
      && (pc == px ==> c < x)
  {
    hide WellFormed, Searchable, Search, SubmitPicked;
    q := PickedIsHighest(w, st, c);
  }

  /** Before anything has started, the job queued is the first root by priority and creation. */
  lemma FirstQueued(w: Workflow, cap: Cap, flow: nat, tenant: nat, up: bool, c: nat)
    requires Closed(w) && HasTenant(cap, tenant) && w.IsJob(c)
    requires WellFormed(w) || Searchable(w, InitialStatuses(w))
    ensures Schedule(w, InitialStatuses(w), cap, flow, tenant, up).0[c] == QUEUED <==>
      w.jobs[c].parents == [] && forall x :: 0 <= x < |w.jobs| && x != c && w.jobs[x].parents == [] ==>
        var pc, px := w.jobs[c].priority, w.jobs[x].priority;
        && (px == HIGH ==> pc == HIGH)
        && (px == MEDIUM ==> pc == HIGH || pc == MEDIUM)
        && (pc == NONE ==> px == NONE)
        && (pc == px ==> c < x)
  {
    hide WellFormed, Searchable, SubmitPicked, Siblings;
    var st, roots := InitialStatuses(w), Siblings(w, None);
    assert !AnyActive(st);
    assert c in roots <==> w.jobs[c].parents == [];
    if roots != [] {
      var first := roots[0];
      assert first in roots && w.jobs[first].parents == [];
      assert PickNextJob(w, st) == Some(first);
      forall x | 0 <= x < |w.jobs| && x != first && w.jobs[x].parents == []
        ensures var pc, px := w.jobs[first].priority, w.jobs[x].priority;
          && (px == HIGH ==> pc == HIGH)
          && (px == MEDIUM ==> pc == HIGH || pc == MEDIUM)
          && (pc == NONE ==> px == NONE)
          && (pc == px ==> first < x)
      {
        assert IsUnder(w, None, x) && x in roots;
        var k :| 0 <= k < |roots| && roots[k] == x;
        SiblingsByPriority(w, None, 0, k);
      }
    }
  }

  // ---------- the service ----------

  method HasCircularDependency(jobs: seq<JobDto>) returns (circular: bool)
    ensures circular <==> HasCycle(KeyGraph(jobs))
  {
    var graph: Table := map[];
    var keys: seq<string> := [];
    for i := 0 to |jobs|
      invariant graph == KeyTable(jobs[..i])
      invariant forall k :: k in keys <==> k in graph
    {
      assert jobs[..i + 1][..i] == jobs[..i];
      if jobs[i].key !in graph {
        keys := keys + [jobs[i].key];
      }
      graph := graph[jobs[i].key := if Given(jobs[i].dependsOn) then [CheckedNode(jobs[i].dependsOn, i)] else []];
    }
    assert jobs[..|jobs|] == jobs;
    NamesDecide(graph);
    TableNames(jobs);
    var detector := new CycleDetector(graph);
    circular := detector.Check(keys);
  }

  /** The checks of createWorkFlow that come before anything is saved. */
  method Validate(jobs: seq<JobDto>) returns (e: Option<ChainError>)
    ensures e == Rejection(jobs)
  {
    if |jobs| == 0 {
      return Some(InvalidJobsArray);
    }
    if !Distinct(Keys(jobs)) {
      return Some(DuplicateKeys);
    }
    if !exists j :: 0 <= j < |jobs| && !Given(jobs[j].dependsOn) {
      return Some(NoRoot);
    }
    var circular := HasCircularDependency(jobs);
    return if circular then Some(CircularDependency) else None;
  }

  class ChainService {
    const cap: TenantCapService
    var flows: seq<Workflow>        // job and dependency rows, by workflow
    var statuses: seq<seq<Status>>
    var tenants: seq<nat>

    ghost predicate Valid()
      reads this, cap
    {
      && |flows| == |statuses| == |tenants|
      && (forall i :: 0 <= i < |flows| ==> |statuses[i]| == |flows[i].jobs|)
      && |cap.inflight| == |cap.staging|
      && (forall i :: 0 <= i < |flows| ==> tenants[i] < |cap.inflight|)
    }

    /** The scheduler's search will end. */
    ghost predicate Schedulable(flow: nat)
      reads this, cap
    {
      Valid() && flow < |flows| && (WellFormed(flows[flow]) || Searchable(flows[flow], statuses[flow]))
    }

    ghost predicate Live(flow: nat)
      reads this, cap
    {
      Valid() && flow < |flows| && WellFormed(flows[flow])
    }

    constructor (cap: TenantCapService)
      requires |cap.inflight| == |cap.staging|
      ensures Valid() && this.cap == cap && flows == [] && statuses == []
    {
      this.cap := cap;
      flows, statuses, tenants := [], [], [];
    }

    method CountActive(flow: nat) returns (count: nat)
      requires Valid() && flow < |flows|
      ensures count > 0 <==> AnyActive(statuses[flow])
    {
      var st := statuses[flow];
      count := 0;
      for i := 0 to |st|
        invariant count > 0 <==> exists j :: 0 <= j < i && Active(st[j])
      {
        if st[i] == QUEUED || st[i] == PROCESSING {
          count := count + 1;
        }
      }
    }

    method ScheduleNextJob(flow: nat, up: bool) returns (error: Option<QueueError>)
      requires Schedulable(flow)
      modifies this`statuses, cap, cap.collector, cap.queue
      ensures Valid() && |statuses| == |old(statuses)|
      ensures statuses == old(statuses)[flow := statuses[flow]]
      ensures (statuses[flow], cap.State(), error)
           == Schedule(flows[flow], old(statuses[flow]), old(cap.State()), flow, tenants[flow], up)
    {
      var count := CountActive(flow);
      if count > 0 {
        return None;
      }
      var candidate := PickNextJob(flows[flow], statuses[flow]);
      if candidate.None? {
        return None;
      }
      var c := candidate.value;
      statuses := statuses[flow := statuses[flow][c := QUEUED]];
      var q := ResolveQueueName(flows[flow].jobs[c].jobType);
      if q.Err? {
        return Some(q.error);
      }
      var verdict := cap.SubmitJob(PayloadOf(flows[flow], flow, tenants[flow], c, q.value), up);
      return if verdict.Ok? then None else Some(verdict.error);
    }

    method UnlockChildren(flow: nat, p: nat)
      requires Live(flow) && flows[flow].IsJob(p)
      modifies this`statuses
      ensures Live(flow) && statuses == old(statuses)[flow := UnlockAll(flows[flow], old(statuses[flow]), p)]
      ensures forall d :: 0 <= d < |flows[flow].jobs| ==>
        var before, after, parents := old(statuses[flow]), statuses[flow], flows[flow].jobs[d].parents;
        && (after[d] == before[d] || after[d] == READY)
        && (after[d] != before[d] <==>
              && p in parents && before[d] == WAITING_FOR_DEPENDENCIES
              && (forall n :: 0 <= n < |parents| ==> parents[n] < |before| && before[parents[n]] == COMPLETED))
    {
      var w := flows[flow];
      ghost var before := statuses[flow];
      for d := 0 to |w.jobs|
        invariant Live(flow) && statuses == old(statuses)[flow := statuses[flow]]
        invariant forall c :: 0 <= c < d ==> statuses[flow][c] == UnlockAll(w, before, p)[c]
        invariant forall c :: d <= c < |w.jobs| ==> statuses[flow][c] == before[c]
      {
        assert forall c :: 0 <= c < |w.jobs| ==> (statuses[flow][c] == COMPLETED <==> before[c] == COMPLETED);
        if p in w.jobs[d].parents && statuses[flow][d] == WAITING_FOR_DEPENDENCIES {
          var remaining := exists q: nat :: q in w.jobs[d].parents && statuses[flow][q] != COMPLETED;
          if !remaining {
            statuses := statuses[flow := statuses[flow][d := READY]];
          }
        }
      }
      assert statuses[flow] == UnlockAll(w, before, p);
      forall d | 0 <= d < |w.jobs|
        ensures ParentsCompleted(w, before, d) <==>
          forall n :: 0 <= n < |w.jobs[d].parents| ==> w.jobs[d].parents[n] < |before| && before[w.jobs[d].parents[n]] == COMPLETED
      {
        ParentsByPosition(w, before, d);
      }
    }

    method OnJobCompleted(flow: nat, j: nat, up: bool) returns (error: Option<QueueError>)
      requires Live(flow) && flows[flow].IsJob(j)
      modifies this`statuses, cap, cap.collector, cap.queue
      ensures Live(flow) && statuses == old(statuses)[flow := statuses[flow]]
      ensures (statuses[flow], cap.State(), error)
           == Schedule(flows[flow], UnlockAll(flows[flow], old(statuses[flow]), j), old(cap.State()), flow, tenants[flow], up)
    {
      UnlockChildren(flow, j);
      error := ScheduleNextJob(flow, up);
    }

    /** Runs after every failed attempt, final or not. */
    method HandleParentFailure(flow: nat, j: nat, up: bool) returns (error: Option<QueueError>)
      requires Live(flow) && flows[flow].IsJob(j)
      modifies this`statuses, cap, cap.collector, cap.queue
      ensures Live(flow) && statuses == old(statuses)[flow := statuses[flow]]
      ensures (statuses[flow], cap.State(), error)
           == Schedule(flows[flow], SkipAll(flows[flow], old(statuses[flow]), j), old(cap.State()), flow, tenants[flow], up)
    {
      SkipStrictChildren(flow, j);
      error := ScheduleNextJob(flow, up);
    }

    method SkipStrictChildren(flow: nat, j: nat)
      requires Live(flow) && flows[flow].IsJob(j)
      modifies this`statuses
      ensures Live(flow) && statuses == old(statuses)[flow := SkipAll(flows[flow], old(statuses[flow]), j)]
      ensures forall d :: 0 <= d < |flows[flow].jobs| ==>
        statuses[flow][d] ==
          if j in flows[flow].jobs[d].parents && flows[flow].jobs[d].strict then SKIPPED else old(statuses[flow])[d]
    {
      var w := flows[flow];
      ghost var before := statuses[flow];
      for d := 0 to |w.jobs|
        invariant Live(flow) && statuses == old(statuses)[flow := statuses[flow]]
        invariant forall c :: 0 <= c < d ==> statuses[flow][c] == SkipAll(w, before, j)[c]
        invariant forall c :: d <= c < |w.jobs| ==> statuses[flow][c] == before[c]
      {
        if j in w.jobs[d].parents && w.jobs[d].strict {
          statuses := statuses[flow := statuses[flow][d := SKIPPED]];
        }
      }
      assert statuses[flow] == SkipAll(w, before, j);
    }

    /** The loop that saves job rows; a job without key or type stops it after earlier rows were saved. */
    method SaveJobs(jobs: seq<JobDto>, tenant: nat) returns (complete: bool, jobMap: map<string, nat>)
      requires Valid() && tenant < |cap.inflight| && Distinct(Keys(jobs))
      modifies this`flows, this`statuses, this`tenants
      ensures Valid()
      ensures var n := FirstIncomplete(jobs, 0);
        && flows == old(flows) + [Saved(jobs, n)]
        && statuses == old(statuses) + [SavedStatuses(jobs, n)]
        && tenants == old(tenants) + [tenant]
        && (complete <==> n == |jobs|)
      ensures complete ==> IndexesKeys(jobs, jobMap)
    {
      hide IndexOf;
      var id := |flows|;
      flows, statuses, tenants := flows + [Workflow([])], statuses + [[]], tenants + [tenant];
      jobMap := map[];
      assert Saved(jobs, 0).jobs == [] && SavedStatuses(jobs, 0) == [];
      for i := 0 to |jobs|
        invariant Valid() && |flows| == id + 1
        invariant flows == old(flows) + [Saved(jobs, i)]
        invariant statuses == old(statuses) + [SavedStatuses(jobs, i)]
        invariant tenants == old(tenants) + [tenant]
        invariant FirstIncomplete(jobs, 0) == FirstIncomplete(jobs, i)
        invariant forall k :: k in jobMap ==> jobMap[k] < i && jobs[jobMap[k]].key == k
        invariant forall j :: 0 <= j < i ==> jobs[j].key in jobMap
      {
        if jobs[i].key == "" || jobs[i].jobType == "" {
          complete := false;
          return;
        }
        flows := flows[id := Workflow(flows[id].jobs + [Row(jobs[i])])];
        statuses := statuses[id := statuses[id] + [RowStatus(jobs[i])]];
        SavedNext(jobs, i);
        jobMap := jobMap[jobs[i].key := i];
      }
      MapIsIndex(jobs, jobMap);
      complete := true;
    }

    /** The loop that saves dependency rows; an unknown parent stops it with the earlier rows saved. */
    method SaveDependencies(jobs: seq<JobDto>, id: nat, jobMap: map<string, nat>) returns (known: bool)
      requires Valid() && |flows| == id + 1 && flows[id] == Stored(jobs, 0)
      requires IndexesKeys(jobs, jobMap)
      modifies this`flows
      ensures Valid()
      ensures flows == old(flows)[id := StoredBeforeOrphan(jobs)] && (known <==> FirstOrphan(jobs, 0) == |jobs|)
    {
      hide IndexesKeys, IndexOf, Row, Stored, StoredPart, FirstUnknown, Dependencies;
      for n := 0 to |jobs|
        invariant Valid() && flows == old(flows)[id := Stored(jobs, n)]
        invariant FirstOrphan(jobs, 0) == FirstOrphan(jobs, n)
      {
        known := SaveParents(jobs, id, n, jobMap);
        if !known {
          return;
        }
      }
      return true;
    }

    method SaveParents(jobs: seq<JobDto>, id: nat, n: nat, jobMap: map<string, nat>) returns (known: bool)
      requires Valid() && |flows| == id + 1 && n < |jobs| && flows[id] == Stored(jobs, n)
      requires IndexesKeys(jobs, jobMap)
      modifies this`flows
      ensures Valid() && (known <==> ParentsKnown(jobs, jobs[n]))
      ensures flows == old(flows)[id := if known then Stored(jobs, n + 1)
                                        else StoredPart(jobs, n, FirstUnknown(jobs, Dependencies(jobs[n]), 0))]
    {
      hide StoredPart, Dependencies, Row, IndexOf;
      var dependencies := Dependencies(jobs[n]);
      for k := 0 to |dependencies|
        invariant Valid() && flows == old(flows)[id := StoredPart(jobs, n, k)]
        invariant FirstUnknown(jobs, dependencies, 0) == FirstUnknown(jobs, dependencies, k)
      {
        if dependencies[k] !in jobMap {
          return false;
        }
        StoredRow(jobs, n, k);
        var row := flows[id].jobs[n];
        flows := flows[id := Workflow(flows[id].jobs[n := row.(parents := row.parents + [jobMap[dependencies[k]]])])];
      }
      StoredNext(jobs, n);
      return true;
    }

    method Store(jobs: seq<JobDto>, tenant: nat) returns (failure: Option<ChainError>)
      requires Valid() && tenant < |cap.inflight| && Distinct(Keys(jobs))
      modifies this`flows, this`statuses, this`tenants
      ensures Valid() && tenants == old(tenants) + [tenant]
      ensures var n, m := FirstIncomplete(jobs, 0), FirstOrphan(jobs, 0);
        && (n < |jobs| ==>
              failure == Some(MissingKeyOrType) && flows == old(flows) + [Saved(jobs, n)]
              && statuses == old(statuses) + [SavedStatuses(jobs, n)])
        && (n == |jobs| ==>
              && failure == (if m < |jobs| then Some(ParentNotFound) else None)
              && flows == old(flows) + [StoredBeforeOrphan(jobs)]
              && statuses == old(statuses) + [InitialStatuses(Stored(jobs, |jobs|))])
    {
      hide Saved, Stored, SavedStatuses, InitialStatuses, StoredBeforeOrphan, Keys;
      var id := |flows|;
      var complete, jobMap := SaveJobs(jobs, tenant);
      if !complete {
        return Some(MissingKeyOrType);
      }
      AllSaved(jobs);
      var known := SaveDependencies(jobs, id, jobMap);
      return if known then None else Some(ParentNotFound);
    }

    /**
     * Accepts exactly the complete, closed submissions with a root and distinct keys in which the check
     * sees no cycle. A check that fails leaves nothing behind; a job or parent that turns out missing later
     * leaves unscheduled rows.
     */
    method CreateWorkFlow(jobs: seq<JobDto>, tenant: nat, up: bool) returns (r: Result<nat, ChainError>)
      requires Valid() && tenant < |cap.inflight|
      modifies this, cap, cap.collector, cap.queue
      ensures Valid()
      ensures r == Err(InvalidJobsArray) <==> jobs == []
      ensures r == Err(DuplicateKeys) <==> !KeysDiffer(jobs)
      ensures r == Err(NoRoot) <==> jobs != [] && KeysDiffer(jobs) && !SomeRoot(jobs)
      ensures r == Err(CircularDependency) <==> KeysDiffer(jobs) && SomeRoot(jobs) && HasCycle(KeyGraph(jobs))
      ensures r == Err(MissingKeyOrType) <==>
        KeysDiffer(jobs) && SomeRoot(jobs) && !HasCycle(KeyGraph(jobs)) && !AllComplete(jobs)
      ensures r == Err(ParentNotFound) <==>
        KeysDiffer(jobs) && SomeRoot(jobs) && !HasCycle(KeyGraph(jobs)) && AllComplete(jobs) && !AllParentsGiven(jobs)
      ensures r.Ok? || r.error.NotScheduled? <==>
        KeysDiffer(jobs) && SomeRoot(jobs) && !HasCycle(KeyGraph(jobs)) && AllComplete(jobs) && AllParentsGiven(jobs)
      ensures Rejection(jobs).Some? ==>
        r == Err(Rejection(jobs).value) && flows == old(flows) && statuses == old(statuses) && cap.State() == old(cap.State())
      ensures Rejection(jobs).None? && FirstIncomplete(jobs, 0) < |jobs| ==>
        && r == Err(MissingKeyOrType) && cap.State() == old(cap.State())
        && flows == old(flows) + [Saved(jobs, FirstIncomplete(jobs, 0))]
        && statuses == old(statuses) + [SavedStatuses(jobs, FirstIncomplete(jobs, 0))]
      ensures Rejection(jobs).None? && FirstIncomplete(jobs, 0) == |jobs| && FirstOrphan(jobs, 0) < |jobs| ==>
        && r == Err(ParentNotFound) && cap.State() == old(cap.State())
        && flows == old(flows) + [StoredBeforeOrphan(jobs)]
        && statuses == old(statuses) + [InitialStatuses(Stored(jobs, |jobs|))]
      ensures Rejection(jobs).None? && AllStorable(jobs) ==>
        var id, w := |old(flows)|, Stored(jobs, |jobs|);
        && Searchable(w, InitialStatuses(w)) && (OneParentEach(jobs) ==> WellFormed(w) && Forest(w))
        && flows == old(flows) + [w] && (WellFormed(w) ==> Live(id))
        && |statuses| == id + 1 && statuses[..id] == old(statuses)
        && var (st, cap', error) := Schedule(w, InitialStatuses(w), old(cap.State()), id, tenant, up);
           && statuses[id] == st && cap.State() == cap'
           && r == if error.None? then Ok(id) else Err(NotScheduled(error.value))
    {
      hide HasCycle, KeyGraph, Rejection, FirstIncomplete, FirstOrphan, Keys, Stored, OneParentEach, AllStorable;
      hide KeysDiffer, SomeRoot, AllComplete, AllParentsGiven, Distinct, Schedule, Saved, SavedStatuses, Searchable;
      SubmissionChecks(jobs);
      var rejection := Validate(jobs);
      if rejection.Some? {
        return Err(rejection.value);
      }
      var id := |flows|;
      var failure := Store(jobs, tenant);
      if failure.Some? {
        return Err(failure.value);
      }
      StoredIsClosed(jobs);
      FreshIsSearchable(Stored(jobs, |jobs|));
      if OneParentEach(jobs) {
        AcceptedIsForest(jobs);
      }
      var error := ScheduleNextJob(id, up);
      return if error.None? then Ok(id) else Err(NotScheduled(error.value));
    }
  }
}
