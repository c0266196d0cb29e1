/**
 * How sharp the interleaved bounds are: the admission bound is reached for every number of releases, and
 * the two promises that only whole operations keep have their exact conditions and concrete failing runs.
 */
module CapWitnesses {
  import opened Common
  import opened Queues
  import opened TenantCap
  import opened CapInterleaving

  // ---------- the admission bound is reached ----------

  function Copies(j: Payload, n: nat): Bag {
    multiset{}[j := n]
  }

  /** Cap plus m jobs admitted, m drains short of their INCR. */
  function Rung(j: Payload, m: nat): State {
    State(5, [], Copies(j, 5 + m), Copies(j, 0), Copies(j, 0), Copies(j, 0), 0, Copies(j, 0), m,
          Copies(j, 5 + 2 * m), Copies(j, m), Copies(j, 0), 0, m)
  }

  lemma CopiesAdd(j: Payload, n: nat)
    ensures Copies(j, n) + multiset{j} == Copies(j, n + 1)
    ensures Copies(j, n + 1) - multiset{j} == Copies(j, n)
    ensures j in Copies(j, n + 1)
  {
  }

  lemma {:induction false} CopiesSize(j: Payload, n: nat)
    ensures |Copies(j, n)| == n
  {
    if n > 0 {
      CopiesSize(j, n - 1);
      CopiesAdd(j, n - 1);
    }
  }

  /** Running es from s ends in s'. */
  predicate Leads(s: State, es: seq<Event>, s': State) {
    Possible(s, es) && Exec(s, es) == s'
  }

  lemma Extend(s: State, es: seq<Event>, mid: State, e: Event) returns (longer: seq<Event>)
    requires Leads(s, es, mid) && Enabled(mid, e)
    ensures Leads(s, longer, Next(mid, e))
  {
    assert [e][1..] == [];
    ExecConcat(s, es, [e]);
    longer := es + [e];
  }

  // A submission with a free slot, uninterrupted.
  lemma AdmitNow(s: State, j: Payload, es: seq<Event>) returns (longer: seq<Event>)
    requires Leads(EMPTY, es, s) && s.counter < MAX_CONCURRENT_PER_TENANT
    ensures Leads(EMPTY, longer,
      s.(counter := s.counter + 1, queue := s.queue + multiset{j}, submitted := s.submitted + multiset{j}))
  {
    hide Possible, Exec, Leads;
    longer := Extend(EMPTY, es, s, SubmitIncr(j));
    var mid := Next(s, SubmitIncr(j));
    assert mid.claimed - multiset{j} == s.claimed;
    longer := Extend(EMPTY, longer, mid, SubmitEnqueue(j));
  }

  // A rung with one payload staged; then with one admitted job ended and its release about to pop.
  function Staging(j: Payload, m: nat): State {
    Rung(j, m).(staging := [j], submitted := Copies(j, 6 + 2 * m))
  }

  function Ending(j: Payload, m: nat): State {
    Staging(j, m).(queue := Copies(j, 4 + m), finished := Copies(j, m + 1), counter := 4, popping := 1, peak := m + 1)
  }

  function Slipped(j: Payload, m: nat): State {
    Ending(j, m).(queue := Copies(j, 5 + m), counter := 5, submitted := Copies(j, 7 + 2 * m))
  }

  lemma StageOne(j: Payload, m: nat, es: seq<Event>) returns (longer: seq<Event>)
    requires Leads(EMPTY, es, Rung(j, m))
    ensures Leads(EMPTY, longer, Staging(j, m))
  {
    hide Possible, Exec, Leads, Copies;
    CopiesAdd(j, 0);
    CopiesAdd(j, 5 + 2 * m);
    var s := Rung(j, m);
    longer := Extend(EMPTY, es, s, SubmitIncr(j));
    longer := Extend(EMPTY, longer, s.(counter := 6, over := Copies(j, 1), submitted := Copies(j, 6 + 2 * m)), SubmitDecr(j));
    assert s.staging + [j] == [j];
    longer := Extend(EMPTY, longer, s.(undone := Copies(j, 1), submitted := Copies(j, 6 + 2 * m)), SubmitPush(j));
  }

  lemma EndOne(j: Payload, m: nat, es: seq<Event>) returns (longer: seq<Event>)
    requires Leads(EMPTY, es, Staging(j, m))
    ensures Leads(EMPTY, longer, Ending(j, m))
  {
    hide Possible, Exec, Leads, Copies;
    CopiesSize(j, 0);
    CopiesAdd(j, m);
    CopiesAdd(j, 4 + m);
    longer := Extend(EMPTY, es, Staging(j, m), ReleaseDecr(j));
  }

  // A submission slips in between that release's DECR and its LPOP.
  lemma SlipIn(j: Payload, m: nat, es: seq<Event>) returns (longer: seq<Event>)
    requires Leads(EMPTY, es, Ending(j, m))
    ensures Leads(EMPTY, longer, Slipped(j, m))
  {
    hide Possible, Exec, Leads, Copies;
    CopiesAdd(j, 4 + m);
    CopiesAdd(j, 6 + 2 * m);
    longer := AdmitNow(Ending(j, m), j, es);
  }

  lemma PopOne(s: State, j: Payload, es: seq<Event>) returns (longer: seq<Event>)
    requires Leads(EMPTY, es, s) && s.popping == 1 && s.staging == [j] && s.holding == Copies(j, 0)
    ensures Leads(EMPTY, longer, s.(popping := 0, holding := Copies(j, 1), staging := []))
  {
    hide Possible, Exec, Leads, Copies;
    CopiesAdd(j, 0);
    assert s.staging[1..] == [];
    longer := Extend(EMPTY, es, s, ReleasePop);
  }

  // The release then drains the staged payload into the queue without looking at the cap.
  lemma DrainAnyway(j: Payload, m: nat, es: seq<Event>) returns (longer: seq<Event>)
    requires Leads(EMPTY, es, Slipped(j, m))
    ensures Leads(EMPTY, longer, Rung(j, m + 1))
  {
    hide Possible, Exec, Leads, Copies;
    longer := PopOne(Slipped(j, m), j, es);
    CopiesAdd(j, 5 + m);
    longer := EnqueueHeld(Slipped(j, m).(popping := 0, holding := Copies(j, 1), staging := []), j, longer);
  }

  lemma EnqueueHeld(s: State, j: Payload, es: seq<Event>) returns (longer: seq<Event>)
    requires Leads(EMPTY, es, s) && s.holding == Copies(j, 1)
    ensures Leads(EMPTY, longer,
      s.(holding := Copies(j, 0), queue := s.queue + multiset{j}, settling := s.settling + 1))
  {
    hide Possible, Exec, Leads, Copies;
    CopiesAdd(j, 0);
    longer := Extend(EMPTY, es, s, DrainEnqueue(j));
  }

  /** n jobs admitted directly, nothing in progress. */
  function Level(j: Payload, n: nat): State {
    State(n, [], Copies(j, n), Copies(j, 0), Copies(j, 0), Copies(j, 0), 0, Copies(j, 0), 0,
          Copies(j, n), Copies(j, 0), Copies(j, 0), 0, 0)
  }

  lemma {:induction false} Fill(j: Payload, n: nat) returns (es: seq<Event>)
    requires n <= 5
    ensures Leads(EMPTY, es, Level(j, n))
  {
    if n == 0 {
      es := [];
    } else {
      var fewer := Fill(j, n - 1);
      hide Possible, Exec, Leads, Copies;
      CopiesAdd(j, n - 1);
      es := AdmitNow(Level(j, n - 1), j, fewer);
    }
  }

  lemma {:induction false} ReachRung(j: Payload, m: nat) returns (es: seq<Event>)
    ensures Leads(EMPTY, es, Rung(j, m))
  {
    if m == 0 {
      es := Fill(j, 5);
    } else {
      var lower := ReachRung(j, m - 1);
      es := StageOne(j, m - 1, lower);
      es := EndOne(j, m - 1, es);
      es := SlipIn(j, m - 1, es);
      es := DrainAnyway(j, m - 1, es);
    }
  }

  /** For every m, some run admits cap plus m jobs with no more than m releases ever in progress. */
  lemma BoundIsReached(j: Payload, m: nat) returns (es: seq<Event>)
    ensures Possible(EMPTY, es)
    ensures Exec(EMPTY, es).peak == m && |Exec(EMPTY, es).queue| == MAX_CONCURRENT_PER_TENANT + m
  {
    es := ReachRung(j, m);
    CopiesSize(j, 5 + m);
  }

  // ---------- the reset of a negative counter ----------

  /**
   * A job's release finds the counter at or below zero exactly when every slot it still counts is
   * outweighed by drains that have enqueued their job and not yet counted it.
   */
  lemma ResetFiresIff(es: seq<Event>, p: Payload)
    requires Possible(EMPTY, es) && p in Exec(EMPTY, es).queue
    ensures var s := Exec(EMPTY, es);
      Next(s, ReleaseDecr(p)).drift > s.drift <==>
        |s.queue| + |s.claimed| + |s.over| + |s.lost| + s.drift <= s.settling
  {
    ExecKeepsInv(EMPTY, es);
  }

  /** A drain between its enqueue and its INCR is needed for that. */
  lemma NoResetWithoutSettlingDrain(es: seq<Event>, p: Payload)
    requires Possible(EMPTY, es) && p in Exec(EMPTY, es).queue && Exec(EMPTY, es).settling == 0
    ensures Next(Exec(EMPTY, es), ReleaseDecr(p)).drift == Exec(EMPTY, es).drift
  {
    ResetFiresIff(es, p);
  }

  // ---------- admission beyond the cap ----------

  /** A command takes the commitments beyond the cap exactly when it is a claim made while they fill it. */
  lemma PassesCapIff(s: State, e: Event)
    requires Enabled(s, e)
    ensures Committed(Next(s, e)) > Max(Committed(s), MAX_CONCURRENT_PER_TENANT) <==>
      e.SubmitIncr? && s.counter < MAX_CONCURRENT_PER_TENANT && Committed(s) >= MAX_CONCURRENT_PER_TENANT
  {
    if e.SubmitIncr? {
      ClaimCommits(s, e.p);
    } else {
      OthersCommitNothing(s, e);
      hide Next;
    }
  }

  lemma ClaimCommits(s: State, p: Payload)
    ensures Committed(Next(s, SubmitIncr(p))) == Committed(s) + if s.counter < MAX_CONCURRENT_PER_TENANT then 1 else 0
  {
    assert |s.claimed + multiset{p}| == |s.claimed| + 1;
  }

  lemma OthersCommitNothing(s: State, e: Event)
    requires Enabled(s, e) && !e.SubmitIncr?
    ensures Committed(Next(s, e)) == Committed(s) - (match e
      case SubmitThrows(_) => 1
      case DrainReturn(_) => 1
      case ReleaseDecr(_) => if s.counter <= 0 then 1 else 0
      case ReleasePop => if s.staging == [] then 1 else 0
      case _ => 0)
  {
    match e
    case SubmitEnqueue(p) => BagStep(s.claimed, s.queue, p);
    case SubmitThrows(p) => BagStep(s.claimed, s.lost, p);
    case ReleaseDecr(p) => BagStep(s.queue, s.finished, p);
    case DrainEnqueue(p) => BagStep(s.holding, s.queue, p);
    case DrainReturn(p) => BagStep(s.holding, s.lost, p);
    case _ =>
  }

  lemma BagStep(a: Bag, b: Bag, p: Payload)
    requires p in a
    ensures |a - multiset{p}| == |a| - 1 && |b + multiset{p}| == |b| + 1
  {
  }

  // ---------- stranded work ----------

  /**
   * While payloads are staged, at least n jobs or calls are left that will still look for them: an admitted
   * or claimed job by its release, a release by its drain. Slots lost or added by a reset do not count.
   */
  predicate Covered(s: State, n: nat) {
    s.staging != [] ==> Committed(s) >= n
  }

  /** The commands that can lower that: a late push, a failed drain, a throwing enqueue, a resetting release. */
  predicate Strands(s: State, e: Event, n: nat) {
    match e
    case SubmitPush(_) => Committed(s) < n
    case DrainReturn(_) => Committed(s) <= n
    case SubmitThrows(_) => s.staging != [] && Committed(s) <= n
    case ReleaseDecr(_) => s.counter <= 0 && s.staging != [] && Committed(s) <= n
    case _ => false
  }

  /**
   * Coverage by n survives a command exactly when the command is none of those. With n = 1 this is the
   * exact moment at which staged work is left with nothing running.
   */
  lemma CoverageLostIff(s: State, e: Event, n: nat)
    requires Enabled(s, e) && Covered(s, n) && n > 0
    ensures Covered(Next(s, e), n) <==> !Strands(s, e, n)
  {
    if e.SubmitIncr? {
      ClaimCommits(s, e.p);
    } else {
      OthersCommitNothing(s, e);
    }
  }

  predicate NeverStrands(s: State, es: seq<Event>, n: nat)
    requires Possible(s, es)
    decreases |es|
  {
    es == [] || (!Strands(s, es[0], n) && NeverStrands(Next(s, es[0]), es[1..], n))
  }

  predicate Quiet(s: State) {
    |s.claimed| == |s.over| == |s.undone| == |s.holding| == 0 && s.popping == s.settling == 0
  }

  lemma {:induction false} StaysCovered(s: State, es: seq<Event>, n: nat)
    requires Covered(s, n) && n > 0 && Possible(s, es) && NeverStrands(s, es, n)
    ensures Covered(Exec(s, es), n)
    decreases |es|
  {
    hide Covered, Strands, Next;
    if es != [] {
      CoverageLostIff(s, es[0], n);
      StaysCovered(Next(s, es[0]), es[1..], n);
    }
  }

  // The same condition, command by command.
  lemma {:induction false} NeverStrandsAt(s: State, es: seq<Event>, n: nat)
    requires Possible(s, es)
    requires forall k :: 0 <= k < |es| && Possible(s, es[..k]) ==> !Strands(Exec(s, es[..k]), es[k], n)
    ensures NeverStrands(s, es, n)
    decreases |es|
  {
    hide Strands, Next;
    if es != [] {
      assert es[..0] == [];
      var s', rest := Next(s, es[0]), es[1..];
      forall k | 0 <= k < |rest| && Possible(s', rest[..k]) ensures !Strands(Exec(s', rest[..k]), rest[k], n) {
        assert es[..k + 1][1..] == rest[..k] && es[..k + 1][0] == es[0] && es[k + 1] == rest[k];
        assert Possible(s, es[..k + 1]) && Exec(s, es[..k + 1]) == Exec(s', rest[..k]);
      }
      NeverStrandsAt(s', rest, n);
    }
  }

  /**
   * Once all calls of such a run have returned, n admitted jobs stand behind whatever is staged: with n = 1,
   * some job is left whose release will drain it.
   */
  lemma NothingStrandedWhenQuiet(es: seq<Event>, n: nat)
    requires n > 0 && Possible(EMPTY, es) && Quiet(Exec(EMPTY, es))
    requires forall k :: 0 <= k < |es| && Possible(EMPTY, es[..k]) ==> !Strands(Exec(EMPTY, es[..k]), es[k], n)
    ensures Exec(EMPTY, es).staging != [] ==> |Exec(EMPTY, es).queue| >= n
  {
    NeverStrandsAt(EMPTY, es, n);
    StaysCovered(EMPTY, es, n);
  }

  /** n slots claimed by submissions whose enqueue threw. */
  function Leaked(j: Payload, n: nat): State {
    State(n, [], Copies(j, 0), Copies(j, 0), Copies(j, 0), Copies(j, 0), 0, Copies(j, 0), 0,
          Copies(j, n), Copies(j, 0), Copies(j, n), 0, 0)
  }

  lemma {:induction false} LeakAway(j: Payload, n: nat) returns (es: seq<Event>)
    requires n <= 5
    ensures Leads(EMPTY, es, Leaked(j, n))
  {
    if n == 0 {
      es := [];
    } else {
      var fewer := LeakAway(j, n - 1);
      es := LeakOne(j, n, fewer);
    }
  }

  lemma LeakOne(j: Payload, n: nat, es: seq<Event>) returns (longer: seq<Event>)
    requires 0 < n <= 5 && Leads(EMPTY, es, Leaked(j, n - 1))
    ensures Leads(EMPTY, longer, Leaked(j, n))
  {
    hide Possible, Exec, Leads, Copies;
    CopiesAdd(j, 0);
    CopiesAdd(j, n - 1);
    var s := Leaked(j, n - 1);
    longer := Extend(EMPTY, es, s, SubmitIncr(j));
    longer := Extend(EMPTY, longer, s.(counter := n, claimed := Copies(j, 1), submitted := Copies(j, n)), SubmitThrows(j));
  }

  /** A concrete lockout: five submissions whose enqueue throws, and the next job is staged with nothing running. */
  lemma LockoutRun(j: Payload) returns (es: seq<Event>)
    ensures Possible(EMPTY, es)
    ensures var s := Exec(EMPTY, es);
      Quiet(s) && s.queue == multiset{} && s.staging == [j] && s.peak == 0 && s.counter == 5 && s.lost == Copies(j, 5)
  {
    es := LeakAway(j, 5);
    es := StageBehindLeaks(j, es);
    CopiesSize(j, 0);
  }

  lemma StageBehindLeaks(j: Payload, es: seq<Event>) returns (longer: seq<Event>)
    requires Leads(EMPTY, es, Leaked(j, 5))
    ensures Leads(EMPTY, longer, Leaked(j, 5).(staging := [j], submitted := Copies(j, 6)))
  {
    hide Possible, Exec, Leads, Copies;
    CopiesAdd(j, 0);
    CopiesAdd(j, 5);
    var s := Leaked(j, 5);
    longer := Extend(EMPTY, es, s, SubmitIncr(j));
    longer := Extend(EMPTY, longer, s.(counter := 6, over := Copies(j, 1), submitted := Copies(j, 6)), SubmitDecr(j));
    assert s.staging + [j] == [j];
    longer := Extend(EMPTY, longer, s.(undone := Copies(j, 1), submitted := Copies(j, 6)), SubmitPush(j));
  }

  // All n admitted jobs end while one submission sits between its DECR and its RPUSH.
  function Ebb(j: Payload, n: nat): State
    requires n <= 5
  {
    State(n, [], Copies(j, n), Copies(j, 0), Copies(j, 0), Copies(j, 1), 0, Copies(j, 0), 0,
          Copies(j, 6), Copies(j, 5 - n), Copies(j, 0), 0, if n == 5 then 0 else 1)
  }

  lemma {:induction false} EbbAway(j: Payload, n: nat) returns (es: seq<Event>)
    requires n <= 5
    ensures Leads(EMPTY, es, Ebb(j, n))
    decreases 5 - n
  {
    if n == 5 {
      es := Fill(j, 5);
      es := HoldOne(j, es);
    } else {
      es := EbbAway(j, n + 1);
      es := EbbOne(j, n, es);
    }
  }

  lemma HoldOne(j: Payload, es: seq<Event>) returns (longer: seq<Event>)
    requires Leads(EMPTY, es, Level(j, 5))
    ensures Leads(EMPTY, longer, Ebb(j, 5))
  {
    hide Possible, Exec, Leads, Copies;
    CopiesAdd(j, 0);
    CopiesAdd(j, 5);
    var s := Level(j, 5);
    longer := Extend(EMPTY, es, s, SubmitIncr(j));
    longer := Extend(EMPTY, longer, s.(counter := 6, over := Copies(j, 1), submitted := Copies(j, 6)), SubmitDecr(j));
  }

  lemma EbbOne(j: Payload, n: nat, es: seq<Event>) returns (longer: seq<Event>)
    requires n < 5 && Leads(EMPTY, es, Ebb(j, n + 1))
    ensures Leads(EMPTY, longer, Ebb(j, n))
  {
    hide Possible, Exec, Leads, Copies;
    CopiesSize(j, 0);
    CopiesAdd(j, n);
    CopiesAdd(j, 4 - n);
    longer := Extend(EMPTY, es, Ebb(j, n + 1), ReleaseDecr(j));
    longer := Extend(EMPTY, longer, Ebb(j, n).(popping := 1, peak := 1), ReleasePop);
  }

  function Stranded(j: Payload): State {
    Ebb(j, 0).(undone := Copies(j, 0), staging := [j])
  }

  lemma ReachStranded(j: Payload) returns (es: seq<Event>)
    ensures Leads(EMPTY, es, Stranded(j))
  {
    es := EbbAway(j, 0);
    hide Possible, Exec, Leads, Copies;
    CopiesAdd(j, 0);
    es := Extend(EMPTY, es, Ebb(j, 0), SubmitPush(j));
  }

  /** A concrete run that strands work: all calls returned, counter at zero, one payload left staged. */
  lemma StrandedRun(j: Payload) returns (es: seq<Event>)
    ensures Possible(EMPTY, es)
    ensures var s := Exec(EMPTY, es);
      Quiet(s) && s.counter == 0 && s.queue == multiset{} && s.staging == [j] && s.peak == 1
  {
    es := ReachStranded(j);
    CopiesSize(j, 0);
  }

  /**
   * A concrete run whose reset fires: the drained job ends before its drain has counted it, and one slot
   * stays taken for good with nothing admitted, staged or in progress.
   */
  lemma ResetRun(j: Payload) returns (es: seq<Event>)
    ensures Possible(EMPTY, es)
    ensures var s := Exec(EMPTY, es);
      Quiet(s) && s.queue == multiset{} && s.staging == [] && s.counter == 1 && s.drift == 1
  {
    es := ReachStranded(j);
    es := ServeAgain(j, es);
    es := OutrunDrain(j, es);
    CopiesSize(j, 0);
  }

  // A new job is admitted and ends; its release holds the stranded payload.
  function Serving(j: Payload): State {
    Stranded(j).(submitted := Copies(j, 7), finished := Copies(j, 6), staging := [], holding := Copies(j, 1))
  }

  lemma ServeAgain(j: Payload, es: seq<Event>) returns (longer: seq<Event>)
    requires Leads(EMPTY, es, Stranded(j))
    ensures Leads(EMPTY, longer, Serving(j))
  {
    hide Possible, Exec, Leads, Copies;
    CopiesSize(j, 0);
    CopiesAdd(j, 0);
    CopiesAdd(j, 5);
    CopiesAdd(j, 6);
    var s := Stranded(j);
    longer := AdmitNow(s, j, es);
    longer := Extend(EMPTY, longer, s.(counter := 1, queue := Copies(j, 1), submitted := Copies(j, 7)), ReleaseDecr(j));
    var popping := s.(submitted := Copies(j, 7), finished := Copies(j, 6), popping := 1);
    assert s.staging[1..] == [];
    longer := Extend(EMPTY, longer, popping, ReleasePop);
  }

  lemma OutrunDrain(j: Payload, es: seq<Event>) returns (longer: seq<Event>)
    requires Leads(EMPTY, es, Serving(j))
    ensures Leads(EMPTY, longer, Serving(j).(holding := Copies(j, 0), finished := Copies(j, 7), counter := 1, drift := 1))
  {
    hide Possible, Exec, Leads, Copies;
    CopiesAdd(j, 0);
    var s := Serving(j).(holding := Copies(j, 0));
    longer := EnqueueHeld(Serving(j), j, es);
    longer := EndUncounted(j, s.(queue := Copies(j, 1), settling := 1), longer);
    longer := Extend(EMPTY, longer, s.(settling := 1, finished := Copies(j, 7), drift := 1), DrainIncr);
  }

  // The only admitted job ends while the counter does not stand for it yet.
  lemma EndUncounted(j: Payload, s: State, es: seq<Event>) returns (longer: seq<Event>)
    requires Leads(EMPTY, es, s) && s.counter == 0 && s.queue == Copies(j, 1) && s.finished == Copies(j, 6)
    ensures Leads(EMPTY, longer, s.(queue := Copies(j, 0), finished := Copies(j, 7), drift := s.drift + 1))
  {
    hide Possible, Exec, Leads, Copies;
    CopiesAdd(j, 0);
    CopiesAdd(j, 6);
    longer := Extend(EMPTY, es, s, ReleaseDecr(j));
  }

  // ---------- whole operations are runs of commands ----------

  predicate Stands(c: Cap, s: State) {
    c.inflight == [s.counter] && c.staging == [s.staging] && multiset(c.live) == s.queue
  }

  /** One uninterrupted submitJob is a run of commands with the same effect. */
  lemma SubmitIsRun(c: Cap, s: State, p: Payload, up: bool) returns (es: seq<Event>, s': State)
    requires Stands(c, s) && p.tenant == 0 && Quiet(s)
    ensures Leads(s, es, s') && Stands(Submit(c, p, up).0, s') && Quiet(s')
  {
    if s.counter + 1 > MAX_CONCURRENT_PER_TENANT {
      es, s' := StageRun(s, p);
    } else {
      hide GetQueueName;
      es, s' := AdmitRun(s, p, Enqueue(c.live, p, up).Ok?);
    }
  }

  lemma StageRun(s: State, p: Payload) returns (es: seq<Event>, s': State)
    requires Quiet(s) && s.counter + 1 > MAX_CONCURRENT_PER_TENANT
    ensures Leads(s, es, s') && Quiet(s')
    ensures s'.counter == s.counter && s'.staging == s.staging + [p] && s'.queue == s.queue
  {
    es := Extend(s, [], s, SubmitIncr(p));
    s' := Next(s, SubmitIncr(p));
    hide Possible, Exec, Leads;
    es := Extend(s, es, s', SubmitDecr(p));
    s' := Next(s', SubmitDecr(p));
    es := Extend(s, es, s', SubmitPush(p));
    s' := Next(s', SubmitPush(p));
  }

  lemma AdmitRun(s: State, p: Payload, enqueued: bool) returns (es: seq<Event>, s': State)
    requires Quiet(s) && s.counter + 1 <= MAX_CONCURRENT_PER_TENANT
    ensures Leads(s, es, s') && Quiet(s')
    ensures s'.counter == s.counter + 1 && s'.staging == s.staging
    ensures s'.queue == if enqueued then s.queue + multiset{p} else s.queue
  {
    es := Extend(s, [], s, SubmitIncr(p));
    s' := Next(s, SubmitIncr(p));
    hide Possible, Exec, Leads;
    var e := if enqueued then SubmitEnqueue(p) else SubmitThrows(p);
    es := Extend(s, es, s', e);
    s' := Next(s', e);
  }

  /** So is one uninterrupted release after the i-th live job, resetting or not. */
  lemma ReleaseIsRun(c: Cap, s: State, i: nat, up: bool) returns (es: seq<Event>, s': State)
    requires Stands(c, s) && i < |c.live| && Quiet(s)
    ensures Leads(s, es, s') && Quiet(s')
    ensures Stands(Release(c.(live := c.live[..i] + c.live[i + 1..]), 0, up), s')
  {
    hide Leads, Quiet, Release, Possible, Exec, Enabled, Next;
    var without := c.live[..i] + c.live[i + 1..];
    BagWithout(c.live, i);
    if s.counter >= 1 {
      es, s' := DrainingRelease(c.(live := without), s, c.live[i], up);
    } else {
      ResetEffect(c.(live := without), up);
      es, s' := ResetsRun(s, c.live[i]);
    }
  }

  // c is the cap with p's job already gone.
  lemma DrainingRelease(c: Cap, s: State, p: Payload, up: bool) returns (es: seq<Event>, s': State)
    requires c.inflight == [s.counter] && c.staging == [s.staging] && multiset(c.live) == s.queue - multiset{p}
    requires p in s.queue && s.counter >= 1 && Quiet(s)
    ensures Leads(s, es, s') && Quiet(s') && Stands(Release(c, 0, up), s')
  {
    hide Leads, Quiet, Release, Possible, Exec, Enabled, Next;
    var drained := ReleaseEffect(c, up);
    es, s' := DrainRun(s, p, drained);
    if drained {
      BagAppend(c.live, s.staging[0]);
    }
  }

  lemma BagAppend(live: seq<Payload>, p: Payload)
    ensures multiset(live + [p]) == multiset(live) + multiset{p}
  {
  }

  lemma ResetEffect(c: Cap, up: bool)
    requires |c.inflight| == |c.staging| == 1 && c.inflight[0] < 1
    ensures Release(c, 0, up) == c.(inflight := [0])
  {
    assert c.inflight[0 := 0] == [0];
  }

  lemma ResetsRun(s: State, p: Payload) returns (es: seq<Event>, s': State)
    requires p in s.queue && s.counter < 1 && Quiet(s)
    ensures Leads(s, es, s') && Quiet(s')
    ensures s'.counter == 0 && s'.staging == s.staging && s'.queue == s.queue - multiset{p}
  {
    es := Extend(s, [], s, ReleaseDecr(p));
    s' := Next(s, ReleaseDecr(p));
  }

  lemma BagWithout(live: seq<Payload>, i: nat)
    requires i < |live|
    ensures multiset(live[..i] + live[i + 1..]) == multiset(live) - multiset{live[i]}
    ensures live[i] in multiset(live)
  {
    assert live == live[..i] + [live[i]] + live[i + 1..];
  }

  // What Release does to a single tenant with a positive counter, apart from the reconcile counters.
  lemma ReleaseEffect(c: Cap, up: bool) returns (drained: bool)
    requires |c.inflight| == |c.staging| == 1 && c.inflight[0] >= 1
    ensures drained ==> c.staging[0] != []
    ensures var c' := Release(c, 0, up);
      && c'.inflight == [if drained then c.inflight[0] else c.inflight[0] - 1]
      && c'.staging == [if drained then c.staging[0][1..] else c.staging[0]]
      && c'.live == if drained then c.live + [c.staging[0][0]] else c.live
  {
    hide GetQueueName, AddStaged, DropStaged, AddPending, DropPending;
    drained := c.staging[0] != [] && Enqueue(c.live, c.staging[0][0], up).Ok?;
  }

  lemma DrainRun(s: State, p: Payload, drained: bool) returns (es: seq<Event>, s': State)
    requires p in s.queue && s.counter >= 1 && Quiet(s) && (drained ==> s.staging != [])
    ensures Leads(s, es, s') && Quiet(s')
    ensures s'.counter == if drained then s.counter else s.counter - 1
    ensures s'.staging == if drained then s.staging[1..] else s.staging
    ensures s'.queue == s.queue - multiset{p} + if drained then multiset{s.staging[0]} else multiset{}
  {
    hide Possible, Exec, Leads, Next, Enabled;
    es, s' := PopRun(s, p);
    if drained {
      es, s' := KeepRun(s, es, s', s.staging[0]);
    } else if s.staging != [] {
      es, s' := PutBackRun(s, es, s', s.staging[0]);
      assert [s.staging[0]] + s.staging[1..] == s.staging;
    }
  }

  lemma PutBackRun(s: State, es: seq<Event>, mid: State, h: Payload) returns (longer: seq<Event>, s': State)
    requires Leads(s, es, mid) && mid.holding == multiset{h}
    requires mid.claimed == mid.over == mid.undone == multiset{} && mid.popping == mid.settling == 0
    ensures Leads(s, longer, s') && Quiet(s')
    ensures s'.counter == mid.counter && s'.staging == [h] + mid.staging && s'.queue == mid.queue
  {
    hide Possible, Exec, Leads;
    longer := Extend(s, es, mid, DrainReturn(h));
    s' := Next(mid, DrainReturn(h));
  }

  lemma KeepRun(s: State, es: seq<Event>, mid: State, h: Payload) returns (longer: seq<Event>, s': State)
    requires Leads(s, es, mid) && mid.holding == multiset{h}
    requires mid.claimed == mid.over == mid.undone == multiset{} && mid.popping == mid.settling == 0
    ensures Leads(s, longer, s') && Quiet(s')
    ensures s'.counter == mid.counter + 1 && s'.staging == mid.staging && s'.queue == mid.queue + multiset{h}
  {
    hide Possible, Exec, Leads;
    longer := Extend(s, es, mid, DrainEnqueue(h));
    s' := Next(mid, DrainEnqueue(h));
    longer := Extend(s, longer, s', DrainIncr);
    s' := Next(s', DrainIncr);
  }

  // A release up to and including its LPOP.
  lemma PopRun(s: State, p: Payload) returns (es: seq<Event>, s': State)
    requires p in s.queue && s.counter >= 1 && Quiet(s)
    ensures Leads(s, es, s')
    ensures s'.claimed == s'.over == s'.undone == multiset{} && s'.popping == s'.settling == 0
    ensures s'.counter == s.counter - 1 && s'.queue == s.queue - multiset{p}
    ensures s'.staging == if s.staging == [] then [] else s.staging[1..]
    ensures s'.holding == if s.staging == [] then multiset{} else multiset{s.staging[0]}
  {
    es := Extend(s, [], s, ReleaseDecr(p));
    s' := Next(s, ReleaseDecr(p));
    hide Possible, Exec, Leads;
    es := Extend(s, es, s', ReleasePop);
    s' := Next(s', ReleasePop);
  }
}
