/**
 * The whole-delivery view of the job table (AttemptLoop, Chain) against the step-by-step view
 * (SchedulerMachine): one delivery, taken without interruption, is a run of steps with the same rows.
 */
module ExecuteRuns {
  import opened Common
  import opened Graphs
  import opened Workflows
  import opened SchedulerMachine
  import opened Queues
  import opened TenantCap
  import opened Chain
  import opened AttemptLoop

  /** Consecutive steps from s to s'. */
  ghost predicate Path(w: Workflow, fails: seq<nat>, run: seq<State>, s: State, s': State)
    requires WellFormed(w) && Outcomes(w, fails)
  {
    && |run| > 0 && run[0] == s && run[|run| - 1] == s'
    && forall i, j :: 0 <= i < j < |run| && j == i + 1 ==> Step(w, fails, run[i], run[j])
  }

  lemma Extend(w: Workflow, fails: seq<nat>, run: seq<State>, s: State, mid: State, s': State) returns (longer: seq<State>)
    requires WellFormed(w) && Outcomes(w, fails)
    requires Path(w, fails, run, s, mid) && Step(w, fails, mid, s')
    ensures Path(w, fails, longer, s, s')
  {
    longer := run + [s'];
  }

  // With a single thread, its next step is Advance.
  lemma OneStep(w: Workflow, fails: seq<nat>, s: State, d: nat) returns (s': State)
    requires WellFormed(w) && Outcomes(w, fails) && |s.st| == |w.jobs|
    requires |s.threads| == 1 && ThreadTyped(w, s.threads[0]) && Chooses(s.threads[0], d)
    ensures var e := Advance(w, fails, s.st, s.threads[0], d); s' == State(e.st, e.threads, s.queued + e.queued)
    ensures Step(w, fails, s, s')
  {
    var e := Advance(w, fails, s.st, s.threads[0], d);
    s' := State(e.st, e.threads, s.queued + e.queued);
    assert s.threads[..0] + e.threads + s.threads[1..] == e.threads;
    assert StepOf(w, fails, s, s', 0, d);
  }

  function UnlockSome(w: Workflow, st: seq<Status>, todo: set<nat>): (st': seq<Status>)
    requires WellFormed(w) && |st| == |w.jobs|
    ensures |st'| == |st|
  {
    seq(|st|, d requires 0 <= d < |st| =>
      if d in todo && st[d] == WAITING_FOR_DEPENDENCIES && ParentsCompleted(w, st, d) then READY else st[d])
  }

  function SkipSome(w: Workflow, st: seq<Status>, todo: set<nat>): (st': seq<Status>)
    requires |st| == |w.jobs|
    ensures |st'| == |st|
  {
    seq(|st|, d requires 0 <= d < |st| => if d in todo && w.jobs[d].strict then SKIPPED else st[d])
  }

  lemma UnlockSomeStep(w: Workflow, st: seq<Status>, todo: set<nat>, d: nat)
    requires WellFormed(w) && |st| == |w.jobs| && d in todo && w.IsJob(d)
    ensures UnlockSome(w, UnlockOne(w, st, d), todo - {d}) == UnlockSome(w, st, todo)
  {
    var st' := UnlockOne(w, st, d);
    forall c: nat | c < |st| ensures ParentsCompleted(w, st', c) <==> ParentsCompleted(w, st, c) {
    }
  }

  lemma {:induction false} UnlockLoop(w: Workflow, fails: seq<nat>, run: seq<State>, s0: State, s: State, j: nat, todo: set<nat>)
      returns (longer: seq<State>)
    requires WellFormed(w) && Outcomes(w, fails) && |s.st| == |w.jobs|
    requires s.threads == [Unlocking(j, todo)] && ThreadTyped(w, s.threads[0]) && Path(w, fails, run, s0, s)
    ensures Path(w, fails, longer, s0, State(UnlockSome(w, s.st, todo), [Counting(Finished)], s.queued))
    decreases todo
  {
    if todo == {} {
      var s' := OneStep(w, fails, s, 0);
      assert UnlockSome(w, s.st, todo) == s.st && s.queued + [] == s.queued;
      longer := Extend(w, fails, run, s0, s, s');
    } else {
      var d :| d in todo;
      var s' := OneStep(w, fails, s, d);
      assert s.queued + [] == s.queued;
      longer := Extend(w, fails, run, s0, s, s');
      UnlockSomeStep(w, s.st, todo, d);
      longer := UnlockLoop(w, fails, longer, s0, s', j, todo - {d});
    }
  }

  lemma {:induction false} SkipLoop(w: Workflow, fails: seq<nat>, run: seq<State>, s0: State, s: State,
                                    j: nat, k: nat, final: bool, todo: set<nat>) returns (longer: seq<State>)
    requires WellFormed(w) && Outcomes(w, fails) && |s.st| == |w.jobs|
    requires s.threads == [Skipping(j, k, final, todo)] && ThreadTyped(w, s.threads[0]) && Path(w, fails, run, s0, s)
    ensures Path(w, fails, longer, s0,
      State(SkipSome(w, s.st, todo), [Counting(if final then Finished else Redeliver(j, k + 1))], s.queued))
    decreases todo
  {
    if todo == {} {
      var s' := OneStep(w, fails, s, 0);
      assert SkipSome(w, s.st, todo) == s.st && s.queued + [] == s.queued;
      longer := Extend(w, fails, run, s0, s, s');
    } else {
      var d :| d in todo;
      var s' := OneStep(w, fails, s, d);
      assert s.queued + [] == s.queued;
      longer := Extend(w, fails, run, s0, s, s');
      assert SkipSome(w, SkipOne(w, s.st, d), todo - {d}) == SkipSome(w, s.st, todo);
      longer := SkipLoop(w, fails, longer, s0, s', j, k, final, todo - {d});
    }
  }

  /** The rows Schedule leaves, and the thread its caller leaves. */
  function ScheduledRows(w: Workflow, st: seq<Status>): seq<Status>
    requires WellFormed(w) && |st| == |w.jobs|
  {
    if AnyActive(st) || PickNextJob(w, st).None? then st else st[PickNextJob(w, st).value := QUEUED]
  }

  function Scheduled(w: Workflow, st: seq<Status>): seq<nat>
    requires WellFormed(w) && |st| == |w.jobs|
  {
    if AnyActive(st) || PickNextJob(w, st).None? then [] else [PickNextJob(w, st).value]
  }

  lemma ScheduleRows(w: Workflow, st: seq<Status>, cap: Cap, flow: nat, tenant: nat, up: bool)
    requires WellFormed(w) && |st| == |w.jobs| && HasTenant(cap, tenant)
    ensures Schedule(w, st, cap, flow, tenant, up).0 == ScheduledRows(w, st)
  {
  }

  function HandedOn(picked: seq<nat>, r: Resume): seq<Thread> {
    (if picked == [] then [] else [Handed(picked[0], 0)]) + Return(r)
  }

  lemma ScheduleLoop(w: Workflow, fails: seq<nat>, run: seq<State>, s0: State, s: State, r: Resume) returns (longer: seq<State>)
    requires WellFormed(w) && Outcomes(w, fails) && |s.st| == |w.jobs|
    requires s.threads == [Counting(r)] && ResumeTyped(w, r) && Path(w, fails, run, s0, s)
    ensures Path(w, fails, longer, s0,
      State(ScheduledRows(w, s.st), HandedOn(Scheduled(w, s.st), r), s.queued + Scheduled(w, s.st)))
  {
    hide Search;
    var s1 := OneStep(w, fails, s, 0);
    longer := Extend(w, fails, run, s0, s, s1);
    assert s.queued + [] == s.queued;
    if !AnyActive(s.st) {
      var s2 := OneStep(w, fails, s1, 0);
      longer := Extend(w, fails, longer, s0, s1, s2);
      var pick := PickNextJob(w, s.st);
      if pick.Some? {
        longer := MarkAndSubmit(w, fails, longer, s0, s2, pick.value, r);
      }
    }
  }

  lemma MarkAndSubmit(w: Workflow, fails: seq<nat>, run: seq<State>, s0: State, s: State, c: nat, r: Resume) returns (longer: seq<State>)
    requires WellFormed(w) && Outcomes(w, fails) && |s.st| == |w.jobs| && w.IsJob(c)
    requires s.threads == [Marking(c, r)] && ResumeTyped(w, r) && Path(w, fails, run, s0, s)
    ensures Path(w, fails, longer, s0, State(s.st[c := QUEUED], [Handed(c, 0)] + Return(r), s.queued + [c]))
  {
    var s1 := OneStep(w, fails, s, 0);
    longer := Extend(w, fails, run, s0, s, s1);
    var s2 := OneStep(w, fails, s1, 0);
    assert s1.queued + [] == s1.queued;
    longer := Extend(w, fails, longer, s0, s1, s2);
  }

  // The rows one delivery leaves, and what it hands on.
  function DeliveredRows(w: Workflow, fails: seq<nat>, st: seq<Status>, j: nat, k: nat): (rows: seq<Status>)
    requires WellFormed(w) && Outcomes(w, fails) && |st| == |w.jobs| && w.IsJob(j)
    ensures |rows| == |st|
  {
    var begun := if k == 0 then st[j := PROCESSING] else st;
    if k >= fails[j] then UnlockAll(w, begun[j := COMPLETED], j)
    else SkipAll(w, if k + 1 >= w.jobs[j].retries then begun[j := FAILED] else begun, j)
  }

  function DeliveredResume(w: Workflow, fails: seq<nat>, j: nat, k: nat): Resume
    requires Outcomes(w, fails) && w.IsJob(j)
  {
    if k < fails[j] && k + 1 < w.jobs[j].retries then Redeliver(j, k + 1) else Finished
  }

  /** One uninterrupted delivery of a handed job is a run of steps, up to the scheduler's count. */
  lemma DeliveryIsRun(w: Workflow, fails: seq<nat>, s: State, j: nat, k: nat) returns (run: seq<State>)
    requires WellFormed(w) && Outcomes(w, fails) && |s.st| == |w.jobs| && w.IsJob(j) && s.threads == [Handed(j, k)]
    ensures Path(w, fails, run, s, State(DeliveredRows(w, fails, s.st, j, k), [Counting(DeliveredResume(w, fails, j, k))], s.queued))
  {
    assert s.queued + [] == s.queued;
    var s1 := OneStep(w, fails, s, 0);
    var s2 := OneStep(w, fails, s1, 0);
    run := Extend(w, fails, [s], s, s, s1);
    run := Extend(w, fails, run, s, s1, s2);
    if k >= fails[j] {
      run := UnlockLoop(w, fails, run, s, s2, j, Children(w, j));
      assert UnlockSome(w, s2.st, Children(w, j)) == UnlockAll(w, s2.st, j);
    } else {
      run := SkipLoop(w, fails, run, s, s2, j, k, k + 1 >= w.jobs[j].retries, Children(w, j));
      assert SkipSome(w, s2.st, Children(w, j)) == SkipAll(w, s2.st, j);
    }
  }

  /**
   * ExecuteFlow refines the machine: from a state where job j is handed over with k attempts made, a run
   * of steps reaches exactly the rows that the processor's contract promises.
   */
  lemma ExecuteIsRun(w: Workflow, fails: seq<nat>, s: State, j: nat, job: BullJob, cap: Cap, flow: nat, tenant: nat,
                     upNext: bool, upDrain: bool) returns (run: seq<State>, s': State)
    requires WellFormed(w) && Outcomes(w, fails) && |s.st| == |w.jobs| && w.IsJob(j)
    requires s.threads == [Handed(j, job.attemptsMade)] && job.attempts == Some(w.jobs[j].retries)
    requires HasTenant(cap, tenant) && HasTenant(cap, job.payload.tenant)
    ensures Path(w, fails, run, s, s')
    ensures s'.st == ExecuteFlow(w, s.st, cap, job, flow, j, tenant, job.attemptsMade >= fails[j], upNext, upDrain).0
    ensures s'.threads == HandedOn(Scheduled(w, DeliveredRows(w, fails, s.st, j, job.attemptsMade)),
                                   DeliveredResume(w, fails, j, job.attemptsMade))
  {
    hide Search, Release, Submit, GetQueueName, ResolveQueueName, Path, Step;
    var k := job.attemptsMade;
    var rows := DeliveredRows(w, fails, s.st, j, k);
    var r := DeliveredResume(w, fails, j, k);
    run := DeliveryIsRun(w, fails, s, j, k);
    run := ScheduleLoop(w, fails, run, s, State(rows, [Counting(r)], s.queued), r);
    s' := State(ScheduledRows(w, rows), HandedOn(Scheduled(w, rows), r), s.queued + Scheduled(w, rows));
    var counted := cap.(totals := AddFailed(cap.totals, job.payload.queueName));
    ScheduleRows(w, rows, cap, flow, tenant, upNext);
    ScheduleRows(w, rows, counted, flow, tenant, upNext);
  }
}
