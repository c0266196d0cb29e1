/**
 * One tenant's admission cap with every Redis or queue command a step of its own. Calls of submitJob
 * and release are in progress between their commands and interleave freely; calls that have reached the
 * same command are kept together, by payload where they hold one.
 */
module CapInterleaving {
  import opened Common
  import opened Queues
  import opened TenantCap

  type Bag = multiset<Payload>

  datatype State = State(
    counter: int,          // tenant:inflight
    staging: seq<Payload>, // tenant:staging
    queue: Bag,            // admitted: accepted by the queue, slot not released
    // submitJob calls in progress
    claimed: Bag,          // INCR gave a free slot, before enqueue
    over: Bag,             // INCR exceeded the cap, before DECR
    undone: Bag,           // after DECR, before RPUSH
    // release calls in progress
    popping: nat,          // after DECR, before LPOP
    holding: Bag,          // after LPOP, before enqueue
    settling: nat,         // after enqueue, before INCR
    // history
    submitted: Bag, finished: Bag,
    lost: Bag,             // claimed, but the enqueue threw
    drift: nat,            // what resets of a negative counter have added to it
    peak: nat              // most release calls in progress at once
  )

  /** One command of one call. */
  datatype Event =
    | SubmitIncr(p: Payload) | SubmitEnqueue(p: Payload) | SubmitThrows(p: Payload)
    | SubmitDecr(p: Payload) | SubmitPush(p: Payload)
    | ReleaseDecr(p: Payload)  // job p ends; the decrement and the reset are one step
    | ReleasePop | DrainEnqueue(p: Payload) | DrainIncr | DrainReturn(p: Payload)

  const EMPTY := State(0, [], multiset{}, multiset{}, multiset{}, multiset{}, 0, multiset{}, 0,
                       multiset{}, multiset{}, multiset{}, 0, 0)

  function Releases(s: State): nat {
    s.popping + |s.holding| + s.settling
  }

  predicate Enabled(s: State, e: Event) {
    match e
    case SubmitIncr(_) => true
    case SubmitEnqueue(p) => p in s.claimed
    case SubmitThrows(p) => p in s.claimed
    case SubmitDecr(p) => p in s.over
    case SubmitPush(p) => p in s.undone
    case ReleaseDecr(p) => p in s.queue
    case ReleasePop => s.popping > 0
    case DrainEnqueue(p) => p in s.holding
    case DrainIncr => s.settling > 0
    case DrainReturn(p) => p in s.holding
  }

  function Peaked(s: State): State {
    s.(peak := Max(s.peak, Releases(s)))
  }

  function Next(s: State, e: Event): State
    requires Enabled(s, e)
  {
    match e
    case SubmitIncr(p) =>
      var s1 := s.(counter := s.counter + 1, submitted := s.submitted + multiset{p});
      if s1.counter <= MAX_CONCURRENT_PER_TENANT then s1.(claimed := s.claimed + multiset{p})
      else s1.(over := s.over + multiset{p})
    case SubmitEnqueue(p) => s.(claimed := s.claimed - multiset{p}, queue := s.queue + multiset{p})
    case SubmitThrows(p) => s.(claimed := s.claimed - multiset{p}, lost := s.lost + multiset{p})
    case SubmitDecr(p) => s.(counter := s.counter - 1, over := s.over - multiset{p}, undone := s.undone + multiset{p})
    case SubmitPush(p) => s.(undone := s.undone - multiset{p}, staging := s.staging + [p])
    case ReleaseDecr(p) =>
      var s1 := s.(queue := s.queue - multiset{p}, finished := s.finished + multiset{p});
      if s.counter - 1 < 0 then s1.(counter := 0, drift := s.drift + 1 - s.counter)
      else Peaked(s1.(counter := s.counter - 1, popping := s.popping + 1))
    case ReleasePop =>
      if s.staging == [] then s.(popping := s.popping - 1)
      else s.(popping := s.popping - 1, holding := s.holding + multiset{s.staging[0]}, staging := s.staging[1..])
    case DrainEnqueue(p) =>
      s.(holding := s.holding - multiset{p}, queue := s.queue + multiset{p}, settling := s.settling + 1)
    case DrainIncr => s.(settling := s.settling - 1, counter := s.counter + 1)
    case DrainReturn(p) => s.(holding := s.holding - multiset{p}, staging := [p] + s.staging)
  }

  /** No command waits for another call: it is possible exactly while some call has reached it. */
  lemma EnabledIff(s: State, p: Payload)
    ensures Enabled(s, SubmitIncr(p))
    ensures Enabled(s, SubmitEnqueue(p)) <==> s.claimed[p] > 0
    ensures Enabled(s, SubmitThrows(p)) <==> s.claimed[p] > 0
    ensures Enabled(s, SubmitDecr(p)) <==> s.over[p] > 0
    ensures Enabled(s, SubmitPush(p)) <==> s.undone[p] > 0
    ensures Enabled(s, ReleaseDecr(p)) <==> s.queue[p] > 0
    ensures Enabled(s, ReleasePop) <==> s.popping > 0
    ensures Enabled(s, DrainEnqueue(p)) <==> s.holding[p] > 0
    ensures Enabled(s, DrainReturn(p)) <==> s.holding[p] > 0
    ensures Enabled(s, DrainIncr) <==> s.settling > 0
  {
  }

  predicate Possible(s: State, es: seq<Event>)
    decreases |es|
  {
    es == [] || (Enabled(s, es[0]) && Possible(Next(s, es[0]), es[1..]))
  }

  function Exec(s: State, es: seq<Event>): State
    requires Possible(s, es)
    decreases |es|
  {
    if es == [] then s else Exec(Next(s, es[0]), es[1..])
  }

  lemma {:induction false} ExecConcat(s: State, a: seq<Event>, b: seq<Event>)
    requires Possible(s, a) && Possible(Exec(s, a), b)
    ensures Possible(s, a + b) && Exec(s, a + b) == Exec(Exec(s, a), b)
    decreases |a|
  {
    if a == [] {
      assert a + b == b;
    } else {
      assert (a + b)[1..] == a[1..] + b;
      ExecConcat(Next(s, a[0]), a[1..], b);
    }
  }

  // ---------- what every command keeps ----------

  /** Where the counter stands: slots held, less drains that have not counted their job yet, plus what resets added. */
  predicate CounterIdentity(s: State) {
    s.counter == |s.queue| + |s.claimed| + |s.over| + |s.lost| - s.settling + s.drift
  }

  /** Admitted jobs plus everything in progress that may still admit one. */
  function Committed(s: State): nat {
    |s.queue| + |s.claimed| + s.popping + |s.holding|
  }

  /** Every submitted payload is in exactly one place. */
  ghost predicate Conserved(s: State) {
    forall p: Payload :: s.submitted[p] == Places(s, p)
  }

  // How often payload p occurs over all the places a payload can be.
  function Places(s: State, p: Payload): nat {
    s.claimed[p] + s.over[p] + s.undone[p] + multiset(s.staging)[p] + s.holding[p] + s.queue[p] + s.finished[p] + s.lost[p]
  }

  ghost predicate Bounded(s: State) {
    && CounterIdentity(s)
    && Releases(s) <= s.peak
    && Committed(s) <= MAX_CONCURRENT_PER_TENANT + s.peak
  }

  ghost predicate Inv(s: State) {
    && Bounded(s)
    && Conserved(s)
  }

  lemma PushConserves(s: State, p: Payload, x: Payload)
    requires p in s.undone
    ensures Places(Next(s, SubmitPush(p)), x) == Places(s, x)
  {
    assert multiset(s.staging + [p])[x] == multiset(s.staging)[x] + multiset{p}[x];
  }

  lemma PopConserves(s: State, x: Payload)
    requires s.popping > 0
    ensures Places(Next(s, ReleasePop), x) == Places(s, x)
  {
    if s.staging != [] {
      assert s.staging == [s.staging[0]] + s.staging[1..];
    }
  }

  lemma ReturnConserves(s: State, p: Payload, x: Payload)
    requires p in s.holding
    ensures Places(Next(s, DrainReturn(p)), x) == Places(s, x)
  {
    assert multiset([p] + s.staging)[x] == multiset(s.staging)[x] + multiset{p}[x];
  }

  lemma ArrivalConserves(s: State, p: Payload, x: Payload)
    ensures var s' := Next(s, SubmitIncr(p));
      s'.submitted[x] - s.submitted[x] == Places(s', x) - Places(s, x)
  {
  }

  lemma SubmitsConserve(s: State, e: Event, x: Payload)
    requires Enabled(s, e) && (e.SubmitEnqueue? || e.SubmitThrows? || e.SubmitDecr?)
    ensures Places(Next(s, e), x) == Places(s, x)
  {
  }

  lemma EndConserves(s: State, p: Payload, x: Payload)
    requires p in s.queue
    ensures Places(Next(s, ReleaseDecr(p)), x) == Places(s, x)
  {
  }

  lemma DrainsConserve(s: State, e: Event, x: Payload)
    requires Enabled(s, e) && (e.DrainEnqueue? || e.DrainIncr?)
    ensures Places(Next(s, e), x) == Places(s, x)
  {
  }

  lemma {:induction false} NextKeepsInv(s: State, e: Event)
    requires Inv(s) && Enabled(s, e)
    ensures Inv(Next(s, e)) && s.peak <= Next(s, e).peak
  {
    NextKeepsBound(s, e);
    forall x: Payload ensures Next(s, e).submitted[x] == Places(Next(s, e), x) {
      match e {
        case SubmitIncr(p) => ArrivalConserves(s, p, x);
        case SubmitPush(p) => PushConserves(s, p, x);
        case ReleasePop => PopConserves(s, x);
        case DrainReturn(p) => ReturnConserves(s, p, x);
        case ReleaseDecr(p) => EndConserves(s, p, x);
        case DrainEnqueue(_) => DrainsConserve(s, e, x);
        case DrainIncr => DrainsConserve(s, e, x);
        case _ => SubmitsConserve(s, e, x);
      }
    }
  }

  lemma NextKeepsBound(s: State, e: Event)
    requires Bounded(s) && Enabled(s, e)
    ensures Bounded(Next(s, e)) && s.peak <= Next(s, e).peak
  {
    hide Next, Bounded, Enabled;
    match e
    case SubmitIncr(p) => ArrivalKeepsBound(s, p);
    case ReleaseDecr(p) => EndKeepsBound(s, p);
    case SubmitEnqueue(_) => SubmitKeepsBound(s, e);
    case SubmitThrows(_) => SubmitKeepsBound(s, e);
    case SubmitDecr(_) => SubmitKeepsBound(s, e);
    case SubmitPush(_) => SubmitKeepsBound(s, e);
    case _ => DrainKeepsBound(s, e);
  }

  lemma ArrivalKeepsBound(s: State, p: Payload)
    requires Bounded(s)
    ensures Bounded(Next(s, SubmitIncr(p))) && s.peak <= Next(s, SubmitIncr(p)).peak
  {
  }

  lemma SubmitKeepsBound(s: State, e: Event)
    requires Bounded(s) && Enabled(s, e) && (e.SubmitEnqueue? || e.SubmitThrows? || e.SubmitDecr? || e.SubmitPush?)
    ensures Bounded(Next(s, e)) && s.peak <= Next(s, e).peak
  {
  }

  lemma EndKeepsBound(s: State, p: Payload)
    requires Bounded(s) && Enabled(s, ReleaseDecr(p))
    ensures Bounded(Next(s, ReleaseDecr(p))) && s.peak <= Next(s, ReleaseDecr(p)).peak
  {
  }

  lemma DrainKeepsBound(s: State, e: Event)
    requires Bounded(s) && Enabled(s, e) && (e.ReleasePop? || e.DrainEnqueue? || e.DrainIncr? || e.DrainReturn?)
    ensures Bounded(Next(s, e)) && s.peak <= Next(s, e).peak
  {
  }

  lemma {:induction false} ExecKeepsInv(s: State, es: seq<Event>)
    requires Inv(s) && Possible(s, es)
    ensures Inv(Exec(s, es)) && s.peak <= Exec(s, es).peak
    decreases |es|
  {
    if es != [] {
      NextKeepsInv(s, es[0]);
      ExecKeepsInv(Next(s, es[0]), es[1..]);
    }
  }

  /** The peak is exactly the largest number of release calls in progress after any prefix of the run. */
  lemma {:induction false} PeakIsLargest(s: State, es: seq<Event>)
    requires Possible(s, es) && Releases(s) <= s.peak
    ensures forall n {:trigger es[..n]} :: 0 <= n <= |es| ==>
      Possible(s, es[..n]) && Releases(Exec(s, es[..n])) <= Exec(s, es).peak
    ensures Exec(s, es).peak == s.peak ||
      exists n {:trigger es[..n]} :: 0 <= n <= |es| && Possible(s, es[..n]) && Releases(Exec(s, es[..n])) == Exec(s, es).peak
    decreases |es|
  {
    hide Next, Releases;
    assert es[..0] == [];
    if es == [] {
      assert forall n :: 0 <= n <= |es| ==> es[..n] == [];
    } else {
      var s', rest := Next(s, es[0]), es[1..];
      PeakMoves(s, es[0]);
      PeakIsLargest(s', rest);
      PeakGrows(s', rest);
      forall n {:trigger es[..n]} | 0 < n <= |es|
        ensures Possible(s, es[..n]) <==> Possible(s', rest[..n - 1])
        ensures Possible(s, es[..n]) ==> Exec(s, es[..n]) == Exec(s', rest[..n - 1])
      {
        assert es[..n][0] == es[0] && es[..n][1..] == rest[..n - 1];
      }
      assert es[..1] == [es[0]];
      assert forall m :: 0 <= m <= |rest| ==> es[..m + 1][1..] == rest[..m];
    }
  }

  lemma PeakMoves(s: State, e: Event)
    requires Enabled(s, e) && Releases(s) <= s.peak
    ensures var s' := Next(s, e); Releases(s') <= s'.peak && s.peak <= s'.peak && (s'.peak == s.peak || s'.peak == Releases(s'))
  {
  }

  lemma {:induction false} PeakGrows(s: State, es: seq<Event>)
    requires Possible(s, es) && Releases(s) <= s.peak
    ensures s.peak <= Exec(s, es).peak
    decreases |es|
  {
    hide Next, Releases;
    if es != [] {
      PeakMoves(s, es[0]);
      PeakGrows(Next(s, es[0]), es[1..]);
    }
  }

  /** Under any interleaving, admitted jobs never exceed the cap plus the most releases ever in progress at once. */
  lemma AdmittedBound(es: seq<Event>)
    requires Possible(EMPTY, es)
    ensures |Exec(EMPTY, es).queue| <= MAX_CONCURRENT_PER_TENANT + Exec(EMPTY, es).peak
  {
    ExecKeepsInv(EMPTY, es);
  }

  /** The same without the recorded peak: n is a moment with as many release calls in progress as the excess. */
  lemma {:induction false} AdmittedBoundAt(es: seq<Event>) returns (n: nat)
    requires Possible(EMPTY, es)
    ensures n <= |es| && Possible(EMPTY, es[..n])
    ensures var s := Exec(EMPTY, es[..n]); |Exec(EMPTY, es).queue| <= 5 + s.popping + |s.holding| + s.settling
  {
    AdmittedBound(es);
    PeakIsLargest(EMPTY, es);
    if Exec(EMPTY, es).peak == 0 {
      n := 0;
    } else {
      n :| 0 <= n <= |es| && Possible(EMPTY, es[..n]) && Releases(Exec(EMPTY, es[..n])) == Exec(EMPTY, es).peak;
    }
  }

  /** Under any interleaving, no payload is lost track of or duplicated, whatever drains fail. */
  lemma PayloadsConserved(es: seq<Event>)
    requires Possible(EMPTY, es)
    ensures Conserved(Exec(EMPTY, es))
    ensures forall p :: var s := Exec(EMPTY, es);
      s.submitted[p] == s.claimed[p] + s.over[p] + s.undone[p] + multiset(s.staging)[p]
                      + s.holding[p] + s.queue[p] + s.finished[p] + s.lost[p]
  {
    ExecKeepsInv(EMPTY, es);
  }
}
