/** Jobs outside workflows: single submissions, retries of failed jobs, and batches. */
module BatchJobs {
  import opened Common
  import opened Graphs
  import opened Sorting
  import opened Workflows
  import opened Queues
  import opened TenantCap

  datatype JobRow = JobRow(jobType: string, priority: Priority, retries: nat, tenant: nat, status: Status)

  /** A submitted job; delayMs 0 means none. */
  datatype Item = Item(key: string, jobType: string, priorityLevel: Option<Priority>, retries: Option<nat>, delayMs: nat)

  datatype JobError =
    | EmptyBatch | DuplicateBatchKeys | MissingField
    | JobNotFound | NotFailed | NotSubmitted(error: QueueError)

  function PriorityOf(item: Item): Priority {
    if item.priorityLevel.Some? then item.priorityLevel.value else Priority.NONE
  }

  // The batch and queue priority table, where lower runs first.
  function BatchRank(p: Priority): nat {
    match p
    case HIGH => 1
    case MEDIUM => 2
    case LOW => 10
    case NONE => 20
  }

  function NewRow(item: Item, tenant: nat): JobRow {
    JobRow(item.jobType, PriorityOf(item), if item.retries.Some? then item.retries.value else 3, tenant,
           if item.delayMs > 0 then SCHEDULED else QUEUED)
  }

  /** Resolving a row's queue and submitting it; a type no queue has never reaches the cap. */
  function SubmitRow(cap: Cap, row: JobRow, id: nat, up: bool): (r: (Cap, Result<Verdict, QueueError>))
    requires HasTenant(cap, row.tenant)
    ensures |r.0.inflight| == |cap.inflight| && |r.0.staging| == |cap.staging|
  {
    match ResolveQueueName(row.jobType)
    case Err(e) => (cap, Err(e))
    case Ok(q) => Submit(cap, PayloadFor(row, id, q), up)
  }

  function PayloadFor(row: JobRow, id: nat, q: QueueName): Payload {
    Payload(SingleJob(id), row.jobType, row.tenant, q, row.retries, row.priority)
  }

  /** The row a submitted item gets: no level is NONE, three attempts by default, SCHEDULED only with a delay. */
  lemma NewRowMeans(item: Item, tenant: nat)
    ensures var row := NewRow(item, tenant);
      && row.jobType == item.jobType && row.tenant == tenant
      && (row.status == SCHEDULED <==> item.delayMs > 0) && (row.status == QUEUED <==> item.delayMs == 0)
      && (item.priorityLevel == None ==> row.priority == Priority.NONE)
      && (forall p :: item.priorityLevel == Some(p) ==> row.priority == p)
      && (item.retries == None ==> row.retries == 3)
      && (forall n :: item.retries == Some(n) ==> row.retries == n)
  {
  }

  /** What a row's submission puts into the queue or at the end of its tenant's list: that job, as its row says. */
  lemma {:induction false} SubmittedPayload(cap: Cap, row: JobRow, id: nat)
    requires HasTenant(cap, row.tenant) && GetQueueName(row.jobType).Some?
    ensures var (cap', verdict) := SubmitRow(cap, row, id, true);
      && verdict.Ok? && (verdict.value.Queued? <==> cap.inflight[row.tenant] < 5)
      && var (before, after) := if verdict.value.Queued? then (cap.live, cap'.live)
                                else (cap.staging[row.tenant], cap'.staging[row.tenant]);
         && |after| == |before| + 1 && after[..|before|] == before
         && var p := after[|before|];
            && p.job == SingleJob(id) && p.jobType == row.jobType && p.tenant == row.tenant
            && p.retries == row.retries && p.priority == row.priority && GetQueueName(p.jobType) == Some(p.queueName)
  {
    hide ResolveQueueName, GetQueueName, SubmitRow;
    SubmitDeliverable(cap, row, id);
    TablesAgreeExceptOnce(row.jobType);
  }

  // ---------- the order of a batch ----------

  function Keys(items: seq<Item>): seq<string> {
    seq(|items|, i requires 0 <= i < |items| => items[i].key)
  }

  function Ranks(items: seq<Item>): seq<Ranked> {
    seq(|items|, i requires 0 <= i < |items| => Ranked(BatchRank(PriorityOf(items[i])), i))
  }

  function BatchOrder(items: seq<Item>): (order: seq<nat>)
    ensures |order| == |items| && forall n :: 0 <= n < |order| ==> order[n] < |items|
  {
    var sorted := StableSort(Ranks(items));
    SortedRanks(items);
    Ids(sorted)
  }

  lemma SortedRanks(items: seq<Item>)
    ensures var sorted := StableSort(Ranks(items));
      && |sorted| == |items| && InOrder(sorted) && multiset(sorted) == multiset(Ranks(items))
      && forall n :: 0 <= n < |sorted| ==>
           sorted[n].id < |items| && sorted[n].rank == BatchRank(PriorityOf(items[sorted[n].id]))
  {
    var sorted := StableSort(Ranks(items));
    StableSortSorts(Ranks(items));
    assert |sorted| == |multiset(sorted)| == |Ranks(items)|;
    forall n | 0 <= n < |sorted|
      ensures sorted[n].id < |items| && sorted[n].rank == BatchRank(PriorityOf(items[sorted[n].id]))
    {
      SameRows(Ranks(items), sorted, sorted[n]);
      var i :| 0 <= i < |items| && Ranks(items)[i] == sorted[n];
    }
  }

  /** The order is the stable priority sort: by rank, equal ranks as submitted, every item once. */
  lemma BatchOrderIsStable(items: seq<Item>)
    ensures var order := BatchOrder(items);
      && Distinct(order) && (forall i: nat :: i < |items| ==> i in order)
      && forall a, b :: 0 <= a < b < |order| ==>
           var ra, rb := BatchRank(PriorityOf(items[order[a]])), BatchRank(PriorityOf(items[order[b]]));
           ra < rb || (ra == rb && order[a] < order[b])
  {
    var sorted, order := StableSort(Ranks(items)), BatchOrder(items);
    SortedRanks(items);
    forall i: nat | i < |items| ensures i in order {
      SameRows(Ranks(items), sorted, Ranks(items)[i]);
      assert Ranks(items)[i] in Ranks(items);
      var n :| 0 <= n < |sorted| && sorted[n] == Ranks(items)[i];
      assert order[n] == i;
    }
    forall a, b | 0 <= a < b < |order| ensures Before(sorted[a], sorted[b]) && order[a] != order[b] {
    }
  }

  /** HIGH before MEDIUM before LOW before NONE or no level at all, and equal levels as submitted. */
  lemma BatchByPriority(items: seq<Item>, i: nat, j: nat)
    requires i < j < |items|
    ensures var order := BatchOrder(items);
      var a, b := items[order[i]].priorityLevel, items[order[j]].priorityLevel;
      && (b == Some(HIGH) ==> a == Some(HIGH))
      && (b == Some(MEDIUM) ==> a == Some(HIGH) || a == Some(MEDIUM))
      && (a == None || a == Some(Priority.NONE) ==> b == None || b == Some(Priority.NONE))
      && (a == b || (a in {None, Some(Priority.NONE)} && b in {None, Some(Priority.NONE)}) ==> order[i] < order[j])
  {
    hide BatchOrder;
    BatchOrderIsStable(items);
    var order := BatchOrder(items);
    var ra, rb := BatchRank(PriorityOf(items[order[i]])), BatchRank(PriorityOf(items[order[j]]));
    assert ra < rb || (ra == rb && order[i] < order[j]);
  }

  // ---------- what a batch does ----------

  datatype Outcome = Outcome(cap: Cap, verdicts: seq<Verdict>, error: Option<QueueError>)

  /** The first n items in batch order, saved and submitted one after the other until one fails. */
  function SubmitFirst(cap: Cap, items: seq<Item>, base: nat, tenant: nat, up: seq<bool>, n: nat): (o: Outcome)
    requires HasTenant(cap, tenant) && |up| == |items| && n <= |items|
    ensures |o.cap.inflight| == |cap.inflight| && |o.cap.staging| == |cap.staging|
    ensures if o.error.None? then |o.verdicts| == n else |o.verdicts| < n
  {
    if n == 0 then Outcome(cap, [], None) else
      var before := SubmitFirst(cap, items, base, tenant, up, n - 1);
      if before.error.Some? then before else
        var (cap', verdict) := SubmitRow(before.cap, RowAt(items, tenant, n - 1), base + n - 1, up[n - 1]);
        match verdict
        case Ok(v) => Outcome(cap', before.verdicts + [v], None)
        case Err(e) => Outcome(cap', before.verdicts, Some(e))
  }

  function RowAt(items: seq<Item>, tenant: nat, n: nat): JobRow
    requires n < |items|
  {
    NewRow(items[BatchOrder(items)[n]], tenant)
  }

  function RowsOf(items: seq<Item>, tenant: nat, n: nat): seq<JobRow>
    requires n <= |items|
  {
    seq(n, i requires 0 <= i < n => RowAt(items, tenant, i))
  }

  // Payload of the n-th item in batch order; only used where its type resolves.
  function PayloadAt(items: seq<Item>, base: nat, tenant: nat, n: nat): Payload
    requires n < |items|
  {
    var row := RowAt(items, tenant, n);
    PayloadFor(row, base + n, if ResolveQueueName(row.jobType).Ok? then ResolveQueueName(row.jobType).value else MediaJobs)
  }

  function PayloadsFrom(items: seq<Item>, base: nat, tenant: nat, a: nat, b: nat): seq<Payload>
    requires a <= b <= |items|
  {
    seq(b - a, i requires 0 <= i < b - a => PayloadAt(items, base, tenant, a + i))
  }

  function Free(cap: Cap, tenant: nat): nat
    requires HasTenant(cap, tenant)
  {
    if cap.inflight[tenant] >= MAX_CONCURRENT_PER_TENANT then 0 else MAX_CONCURRENT_PER_TENANT - cap.inflight[tenant]
  }

  function Admitted(cap: Cap, tenant: nat, n: nat): nat
    requires HasTenant(cap, tenant)
  {
    if n <= Free(cap, tenant) then n else Free(cap, tenant)
  }

  /**
   * Batch admission respects priority: with every queue reachable and every type known, the free slots go
   * to the first items in batch order, and the rest are staged behind the list in that same order.
   */
  lemma {:induction false} AdmissionFollowsPriority(cap: Cap, items: seq<Item>, base: nat, tenant: nat, up: seq<bool>, n: nat)
    requires HasTenant(cap, tenant) && |up| == |items| && n <= |items|
    requires forall i :: 0 <= i < |items| ==> GetQueueName(items[i].jobType).Some? && up[i]
    ensures SubmitFirst(cap, items, base, tenant, up, n).error.None?
    ensures AdmittedInOrder(cap, items, base, tenant, SubmitFirst(cap, items, base, tenant, up, n), n)
  {
    hide SubmitFirst, SubmitRow, BatchOrder, AdmittedInOrder, ResolveQueueName, GetQueueName, NewRow, PayloadsFrom;
    if n == 0 {
      NothingAdmitted(cap, items, base, tenant, up);
    } else {
      AdmissionFollowsPriority(cap, items, base, tenant, up, n - 1);
      var row := RowAt(items, tenant, n - 1);
      var before := SubmitFirst(cap, items, base, tenant, up, n - 1);
      assert GetQueueName(items[BatchOrder(items)[n - 1]].jobType).Some? && up[n - 1];
      NextSubmission(cap, items, base, tenant, up, n);
      AdmittedNext(cap, items, base, tenant, before, n);
    }
  }

  /** So when the slots run out, no staged item has a higher priority than an admitted one. */
  lemma {:induction false} AdmittedBeforeStaged(cap: Cap, items: seq<Item>, base: nat, tenant: nat, up: seq<bool>, i: nat, j: nat)
    requires HasTenant(cap, tenant) && |up| == |items| && i < |items| && j < |items|
    requires forall k :: 0 <= k < |items| ==> GetQueueName(items[k].jobType).Some? && up[k]
    ensures var o, order := SubmitFirst(cap, items, base, tenant, up, |items|), BatchOrder(items);
      && |o.verdicts| == |items|
      && (o.verdicts[i] == Verdict.Queued && o.verdicts[j] == Verdict.Staged ==>
            var a, b := items[order[i]].priorityLevel, items[order[j]].priorityLevel;
            && (b == Some(HIGH) ==> a == Some(HIGH))
            && (b == Some(MEDIUM) ==> a == Some(HIGH) || a == Some(MEDIUM))
            && (a == None || a == Some(Priority.NONE) ==> b == None || b == Some(Priority.NONE)))
      && (o.verdicts[i] == Verdict.Queued <==> cap.inflight[tenant] + i < 5)
  {
    hide SubmitFirst, BatchOrder, GetQueueName, PayloadsFrom;
    AdmissionFollowsPriority(cap, items, base, tenant, up, |items|);
    if i < j {
      BatchByPriority(items, i, j);
    }
  }

  /** Each admitted or staged payload is its item's, as submitted. */
  lemma {:induction false} BatchPayloads(cap: Cap, items: seq<Item>, base: nat, tenant: nat, up: seq<bool>, n: nat)
    requires HasTenant(cap, tenant) && |up| == |items| && n < |items|
    requires forall k :: 0 <= k < |items| ==> GetQueueName(items[k].jobType).Some? && up[k]
    ensures var after := SubmitFirst(cap, items, base, tenant, up, |items|).cap;
      var free := if cap.inflight[tenant] < 5 then 5 - cap.inflight[tenant] else 0;
      var m := if |items| < free then |items| else free;
      && HasTenant(after, tenant)
      && |after.live| == |cap.live| + m && |after.staging[tenant]| == |cap.staging[tenant]| + |items| - m
      && after.live[..|cap.live|] == cap.live && after.staging[tenant][..|cap.staging[tenant]|] == cap.staging[tenant]
      && var p := if n < m then after.live[|cap.live| + n] else after.staging[tenant][|cap.staging[tenant]| + n - m];
         var item := items[BatchOrder(items)[n]];
         && p.job == SingleJob(base + n) && p.jobType == item.jobType && p.tenant == tenant
         && GetQueueName(p.jobType) == Some(p.queueName)
         && p.retries == (if item.retries.Some? then item.retries.value else 3)
         && p.priority == (if item.priorityLevel.Some? then item.priorityLevel.value else Priority.NONE)
  {
    hide SubmitFirst, BatchOrder, GetQueueName, ResolveQueueName, PayloadAt;
    AdmissionFollowsPriority(cap, items, base, tenant, up, |items|);
    PayloadMeans(items, base, tenant, n);
    var m := Admitted(cap, tenant, |items|);
    PayloadFromAt(items, base, tenant, if n < m then 0 else m, if n < m then m else |items|, n);
  }

  lemma PayloadFromAt(items: seq<Item>, base: nat, tenant: nat, a: nat, b: nat, n: nat)
    requires a <= n < b <= |items|
    ensures PayloadsFrom(items, base, tenant, a, b)[n - a] == PayloadAt(items, base, tenant, n)
  {
  }

  lemma PayloadMeans(items: seq<Item>, base: nat, tenant: nat, n: nat)
    requires n < |items| && GetQueueName(items[BatchOrder(items)[n]].jobType).Some?
    ensures var p, item := PayloadAt(items, base, tenant, n), items[BatchOrder(items)[n]];
      && p.job == SingleJob(base + n) && p.jobType == item.jobType && p.tenant == tenant
      && GetQueueName(p.jobType) == Some(p.queueName)
      && p.retries == (if item.retries.Some? then item.retries.value else 3)
      && p.priority == (if item.priorityLevel.Some? then item.priorityLevel.value else Priority.NONE)
  {
    hide BatchOrder, GetQueueName, ResolveQueueName;
    TablesAgreeExceptOnce(items[BatchOrder(items)[n]].jobType);
  }

  ghost predicate AdmittedInOrder(cap: Cap, items: seq<Item>, base: nat, tenant: nat, o: Outcome, n: nat)
    requires HasTenant(cap, tenant) && n <= |items|
  {
    var m := Admitted(cap, tenant, n);
    && HasTenant(o.cap, tenant) && |o.verdicts| == n
    && (forall i :: 0 <= i < n ==> o.verdicts[i] == if i < m then Verdict.Queued else Verdict.Staged)
    && o.cap.inflight[tenant] == cap.inflight[tenant] + m
    && o.cap.live == cap.live + PayloadsFrom(items, base, tenant, 0, m)
    && o.cap.staging[tenant] == cap.staging[tenant] + PayloadsFrom(items, base, tenant, m, n)
  }

  lemma NothingAdmitted(cap: Cap, items: seq<Item>, base: nat, tenant: nat, up: seq<bool>)
    requires HasTenant(cap, tenant) && |up| == |items|
    ensures SubmitFirst(cap, items, base, tenant, up, 0).error.None?
    ensures AdmittedInOrder(cap, items, base, tenant, SubmitFirst(cap, items, base, tenant, up, 0), 0)
  {
    NothingSubmitted(cap, items, base, tenant, up);
    PayloadsNone(items, base, tenant, 0);
  }

  lemma AdmittedNext(cap: Cap, items: seq<Item>, base: nat, tenant: nat, before: Outcome, n: nat)
    requires HasTenant(cap, tenant) && 0 < n <= |items| && GetQueueName(items[BatchOrder(items)[n - 1]].jobType).Some?
    requires AdmittedInOrder(cap, items, base, tenant, before, n - 1)
    ensures var (cap', verdict) := SubmitRow(before.cap, RowAt(items, tenant, n - 1), base + n - 1, true);
      verdict.Ok? && AdmittedInOrder(cap, items, base, tenant, Outcome(cap', before.verdicts + [verdict.value], None), n)
  {
    hide SubmitRow, ResolveQueueName, BatchOrder, PayloadsFrom;
    var m := Admitted(cap, tenant, n - 1);
    SubmitDeliverable(before.cap, RowAt(items, tenant, n - 1), base + n - 1);
    PayloadsSplit(items, base, tenant, 0, n);
    PayloadsSplit(items, base, tenant, m, n);
    PayloadsNone(items, base, tenant, n);
    PayloadsNone(items, base, tenant, m);
  }

  lemma PayloadsNone(items: seq<Item>, base: nat, tenant: nat, a: nat)
    requires a <= |items|
    ensures PayloadsFrom(items, base, tenant, a, a) == []
  {
  }

  // The n-th submission after n - 1 successful ones.
  lemma NextSubmission(cap: Cap, items: seq<Item>, base: nat, tenant: nat, up: seq<bool>, n: nat)
    requires HasTenant(cap, tenant) && |up| == |items| && 0 < n <= |items|
    requires SubmitFirst(cap, items, base, tenant, up, n - 1).error.None?
    ensures var before := SubmitFirst(cap, items, base, tenant, up, n - 1);
      var (cap', verdict) := SubmitRow(before.cap, RowAt(items, tenant, n - 1), base + n - 1, up[n - 1]);
      SubmitFirst(cap, items, base, tenant, up, n) ==
        if verdict.Ok? then Outcome(cap', before.verdicts + [verdict.value], None)
        else Outcome(cap', before.verdicts, Some(verdict.error))
  {
    hide SubmitRow, BatchOrder;
  }

  lemma PayloadsSplit(items: seq<Item>, base: nat, tenant: nat, a: nat, b: nat)
    requires a < b <= |items|
    ensures PayloadsFrom(items, base, tenant, a, b)
         == PayloadsFrom(items, base, tenant, a, b - 1) + [PayloadAt(items, base, tenant, b - 1)]
  {
  }

  // A row whose type has a queue takes a free slot, or joins the end of its tenant's list.
  lemma SubmitDeliverable(cap: Cap, row: JobRow, id: nat)
    requires HasTenant(cap, row.tenant) && GetQueueName(row.jobType).Some?
    ensures var t, q := row.tenant, ResolveQueueName(row.jobType);
      && q.Ok?
      && var p, (cap', verdict) := PayloadFor(row, id, q.value), SubmitRow(cap, row, id, true);
         if cap.inflight[t] + 1 <= MAX_CONCURRENT_PER_TENANT then
           verdict == Ok(Verdict.Queued) && cap'.inflight[t] == cap.inflight[t] + 1
           && cap'.live == cap.live + [p] && cap'.staging[t] == cap.staging[t]
         else
           verdict == Ok(Verdict.Staged) && cap'.inflight[t] == cap.inflight[t]
           && cap'.live == cap.live && cap'.staging[t] == cap.staging[t] + [p]
  {
    TablesAgreeExceptOnce(row.jobType);
    hide ResolveQueueName, GetQueueName;
  }

  // ---------- the services ----------

  class JobRepository {
    var rows: seq<JobRow>

    constructor ()
      ensures rows == []
    {
      rows := [];
    }
  }

  class JobsService {
    const repo: JobRepository
    const cap: TenantCapService

    constructor (repo: JobRepository, cap: TenantCapService)
      ensures this.repo == repo && this.cap == cap
    {
      this.repo, this.cap := repo, cap;
    }

    /** A failed submission is rethrown; the row it saved stays. */
    method CreateAndEnqueue(item: Item, tenant: nat, up: bool) returns (r: Result<nat, JobError>)
      requires HasTenant(cap.State(), tenant)
      modifies repo, cap, cap.collector, cap.queue
      ensures repo.rows == old(repo.rows) + [NewRow(item, tenant)]
      ensures var (cap', verdict) := SubmitRow(old(cap.State()), NewRow(item, tenant), |old(repo.rows)|, up);
        && cap.State() == cap'
        && r == if verdict.Ok? then Ok(|old(repo.rows)|) else Err(NotSubmitted(verdict.error))
    {
      var id, row := |repo.rows|, NewRow(item, tenant);
      repo.rows := repo.rows + [row];
      var q := ResolveQueueName(row.jobType);
      if q.Err? {
        return Err(NotSubmitted(q.error));
      }
      var verdict := cap.SubmitJob(PayloadFor(row, id, q.value), up);
      return if verdict.Ok? then Ok(id) else Err(NotSubmitted(verdict.error));
    }

    /** Only FAILED jobs of the caller's tenant are resubmitted, and they take a slot like any other. */
    method RetryFailedJob(id: nat, tenant: nat, up: bool) returns (r: Result<nat, JobError>)
      requires HasTenant(cap.State(), tenant)
      modifies repo, cap, cap.collector, cap.queue
      ensures var rows := old(repo.rows);
        && (id >= |rows| || rows[id].tenant != tenant ==>
              r == Err(JobNotFound) && repo.rows == rows && cap.State() == old(cap.State()))
        && (id < |rows| && rows[id].tenant == tenant && rows[id].status != FAILED ==>
              r == Err(NotFailed) && repo.rows == rows && cap.State() == old(cap.State()))
        && (id < |rows| && rows[id].tenant == tenant && rows[id].status == FAILED ==>
              var (cap', verdict) := SubmitRow(old(cap.State()), rows[id], id, up);
              && repo.rows == rows[id := rows[id].(status := QUEUED)] && cap.State() == cap'
              && r == if verdict.Ok? then Ok(id) else Err(NotSubmitted(verdict.error)))
    {
      if id >= |repo.rows| || repo.rows[id].tenant != tenant {
        return Err(JobNotFound);
      }
      if repo.rows[id].status != FAILED {
        return Err(NotFailed);
      }
      var row := repo.rows[id];
      repo.rows := repo.rows[id := row.(status := QUEUED)];
      var q := ResolveQueueName(row.jobType);
      if q.Err? {
        return Err(NotSubmitted(q.error));
      }
      var verdict := cap.SubmitJob(PayloadFor(row, id, q.value), up);
      return if verdict.Ok? then Ok(id) else Err(NotSubmitted(verdict.error));
    }
  }

  datatype Submitted = Submitted(key: string, id: nat, status: Verdict)

  class BatchJobService {
    const repo: JobRepository
    const cap: TenantCapService

    constructor (repo: JobRepository, cap: TenantCapService)
      ensures this.repo == repo && this.cap == cap
    {
      this.repo, this.cap := repo, cap;
    }

    /** Items are saved and submitted in batch order; the first failing one is marked FAILED and ends the batch. */
    method SubmitBatch(items: seq<Item>, tenant: nat, up: seq<bool>) returns (r: Result<seq<Submitted>, JobError>)
      requires HasTenant(cap.State(), tenant) && |up| == |items|
      modifies repo, cap, cap.collector, cap.queue
      ensures var refusal := Refusal(items);
        refusal.Some? ==> r == Err(refusal.value) && repo.rows == old(repo.rows) && cap.State() == old(cap.State())
      ensures Refusal(items).None? ==>
        var base := |old(repo.rows)|;
        var o := SubmitFirst(old(cap.State()), items, base, tenant, up, |items|);
        && cap.State() == o.cap
        && (o.error.None? ==>
              && r.Ok? && |r.value| == |items| && repo.rows == old(repo.rows) + RowsOf(items, tenant, |items|)
              && forall n :: 0 <= n < |items| ==>
                   r.value[n] == Submitted(items[BatchOrder(items)[n]].key, base + n, o.verdicts[n]))
        && (o.error.Some? ==>
              var n := |o.verdicts|;
              && r == Err(NotSubmitted(o.error.value))
              && repo.rows == old(repo.rows) + RowsOf(items, tenant, n) + [RowAt(items, tenant, n).(status := FAILED)])
    {
      var refusal := Validate(items);
      if refusal.Some? {
        return Err(refusal.value);
      }
      r := SubmitAll(items, tenant, up);
    }

    method Validate(items: seq<Item>) returns (e: Option<JobError>)
      ensures e == Refusal(items)
    {
      if |items| == 0 {
        return Some(EmptyBatch);
      }
      if !Distinct(Keys(items)) {
        return Some(DuplicateBatchKeys);
      }
      for i := 0 to |items|
        invariant forall k :: 0 <= k < i ==> items[k].key != "" && items[k].jobType != ""
      {
        if items[i].key == "" || items[i].jobType == "" {
          return Some(MissingField);
        }
      }
      return None;
    }

    method SubmitAll(items: seq<Item>, tenant: nat, up: seq<bool>) returns (r: Result<seq<Submitted>, JobError>)
      requires HasTenant(cap.State(), tenant) && |up| == |items|
      modifies repo, cap, cap.collector, cap.queue
      ensures var base := |old(repo.rows)|;
        var o := SubmitFirst(old(cap.State()), items, base, tenant, up, |items|);
        && cap.State() == o.cap
        && (o.error.None? ==>
              && r.Ok? && |r.value| == |items| && repo.rows == old(repo.rows) + RowsOf(items, tenant, |items|)
              && forall n :: 0 <= n < |items| ==>
                   r.value[n] == Submitted(items[BatchOrder(items)[n]].key, base + n, o.verdicts[n]))
        && (o.error.Some? ==>
              var n := |o.verdicts|;
              && r == Err(NotSubmitted(o.error.value))
              && repo.rows == old(repo.rows) + RowsOf(items, tenant, n) + [RowAt(items, tenant, n).(status := FAILED)])
    {
      hide SubmitFirst, SubmitRow, BatchOrder;
      NothingSubmitted(cap.State(), items, |repo.rows|, tenant, up);
      var order := BatchOrder(items);
      var results: seq<Submitted> := [];
      ghost var base, cap0 := |repo.rows|, cap.State();
      assert RowsOf(items, tenant, 0) == [];
      for n := 0 to |items|
        invariant SubmitFirst(cap0, items, base, tenant, up, n).error.None?
        invariant cap.State() == SubmitFirst(cap0, items, base, tenant, up, n).cap
        invariant repo.rows == old(repo.rows) + RowsOf(items, tenant, n)
        invariant |results| == n && forall i :: 0 <= i < n ==>
          results[i] == Submitted(items[order[i]].key, base + i, SubmitFirst(cap0, items, base, tenant, up, n).verdicts[i])
      {
        var id, row := |repo.rows|, NewRow(items[order[n]], tenant);
        repo.rows := repo.rows + [row];
        assert RowsOf(items, tenant, n) + [row] == RowsOf(items, tenant, n + 1);
        NextSubmission(cap0, items, base, tenant, up, n + 1);
        var verdict := SubmitSaved(row, id, up[n]);
        if verdict.Err? {
          repo.rows := repo.rows[id := row.(status := FAILED)];
          FirstErrorStays(cap0, items, base, tenant, up, n + 1, |items|);
          return Err(NotSubmitted(verdict.error));
        }
        results := results + [Submitted(items[order[n]].key, id, verdict.value)];
      }
      return Ok(results);
    }

    method SubmitSaved(row: JobRow, id: nat, up: bool) returns (verdict: Result<Verdict, QueueError>)
      requires HasTenant(cap.State(), row.tenant)
      modifies cap, cap.collector, cap.queue
      ensures (cap.State(), verdict) == SubmitRow(old(cap.State()), row, id, up)
    {
      var q := ResolveQueueName(row.jobType);
      if q.Err? {
        return Err(q.error);
      }
      verdict := cap.SubmitJob(PayloadFor(row, id, q.value), up);
    }
  }

  lemma NothingSubmitted(cap: Cap, items: seq<Item>, base: nat, tenant: nat, up: seq<bool>)
    requires HasTenant(cap, tenant) && |up| == |items|
    ensures SubmitFirst(cap, items, base, tenant, up, 0) == Outcome(cap, [], None)
  {
  }

  lemma {:induction false} FirstErrorStays(cap: Cap, items: seq<Item>, base: nat, tenant: nat, up: seq<bool>, n: nat, m: nat)
    requires HasTenant(cap, tenant) && |up| == |items| && n <= m <= |items|
    requires SubmitFirst(cap, items, base, tenant, up, n).error.Some?
    ensures SubmitFirst(cap, items, base, tenant, up, m) == SubmitFirst(cap, items, base, tenant, up, n)
    decreases m - n
  {
    hide SubmitRow, BatchOrder;
    if n < m {
      FirstErrorStays(cap, items, base, tenant, up, n, m - 1);
    }
  }

  /** What a batch is refused for before anything is saved, in the order of the checks. */
  function Refusal(items: seq<Item>): Option<JobError> {
    if items == [] then Some(EmptyBatch)
    else if !Distinct(Keys(items)) then Some(DuplicateBatchKeys)
    else if exists i :: 0 <= i < |items| && (items[i].key == "" || items[i].jobType == "") then Some(MissingField)
    else None
  }

  /** That is: no items, two with one key, or one without key or type. */
  lemma {:induction false} RefusedIff(items: seq<Item>)
    ensures Refusal(items) == Some(EmptyBatch) <==> items == []
    ensures Refusal(items) == Some(DuplicateBatchKeys) <==> exists a, b :: 0 <= a < b < |items| && items[a].key == items[b].key
    ensures Refusal(items) == Some(MissingField) <==>
      && (forall a, b :: 0 <= a < b < |items| ==> items[a].key != items[b].key)
      && (exists i :: 0 <= i < |items| && (items[i].key == "" || items[i].jobType == ""))
    ensures Refusal(items) == None <==>
      && items != [] && (forall a, b :: 0 <= a < b < |items| ==> items[a].key != items[b].key)
      && (forall i :: 0 <= i < |items| ==> items[i].key != "" && items[i].jobType != "")
  {
    DistinctKeysIff(items);
    hide Keys, Distinct;
  }

  lemma DistinctKeysIff(items: seq<Item>)
    ensures Distinct(Keys(items)) <==> forall a, b :: 0 <= a < b < |items| ==> items[a].key != items[b].key
  {
    if !Distinct(Keys(items)) {
      var a, b :| 0 <= a < b < |items| && Keys(items)[a] == Keys(items)[b];
      assert items[a].key == items[b].key;
    } else {
      forall a, b | 0 <= a < b < |items| ensures items[a].key != items[b].key {
        assert Keys(items)[a] != Keys(items)[b];
      }
    }
  }
}
