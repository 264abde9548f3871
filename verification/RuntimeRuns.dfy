/** What every run of the async runtime satisfies: wakeups, cancellation and quiescence. */
module RuntimeRuns {
  import opened Options
  import opened Runtime

  lemma {:induction false} DistinctCount(q: seq<nat>, c: nat)
    requires Distinct(q)
    ensures multiset(q)[c] == if c in q then 1 else 0
  {
    if q != [] {
      QueueTail(q);
      DistinctCount(q[1..], c);
      assert q == [q[0]] + q[1..];
    }
  }

  /** No lost and no double wakeup: a parked coroutine waits in the ready queue exactly once, or in the reactor. */
  lemma WokenExactlyOnce(steps: seq<Step>, c: Coro)
    requires Inv(INITIAL) && Exec(INITIAL, steps).Some? && c in Exec(INITIAL, steps).value.parked
    ensures var s := Exec(INITIAL, steps).value;
      var a := s.parked[c];
      && a in s.awaiters
      && multiset(s.ready)[c] == (if s.awaiters[a].queued then 1 else 0)
      && (!s.awaiters[a].queued ==> s.awaiters[a].registered && Watched(s.interest, a))
  {
    var s := Exec(INITIAL, steps).value;
    DistinctCount(s.ready, c);
  }

  // ---- Every suspension is resumed at most once ---------------------------------------------

  /** The step suspends `c` on an awaiter. */
  ghost predicate Suspends(s: State, step: Step, c: Coro) {
    && CanStep(s, step) && step.User? && step.act.Await? && step.act.coro == c
    && !StopRequested(s, s.awaiters[step.act.addr].token)
  }

  /** The step resumes `c` from the awaiter it was suspended on. */
  ghost predicate Resumes(s: State, step: Step, c: Coro) {
    step.Pop? && s.ready != [] && s.ready[0] == c && c in s.parked
  }

  ghost function Suspensions(s: State, steps: seq<Step>, c: Coro): nat
    requires Inv(s) && Exec(s, steps).Some?
  {
    if steps == [] then 0
    else
      var init := steps[..|steps| - 1];
      Suspensions(s, init, c) + if Suspends(Exec(s, init).value, steps[|steps| - 1], c) then 1 else 0
  }

  ghost function Resumptions(s: State, steps: seq<Step>, c: Coro): nat
    requires Inv(s) && Exec(s, steps).Some?
  {
    if steps == [] then 0
    else
      var init := steps[..|steps| - 1];
      Resumptions(s, init, c) + if Resumes(Exec(s, init).value, steps[|steps| - 1], c) then 1 else 0
  }

  lemma StepParks(s: State, step: Step, c: Coro)
    requires Inv(s) && CanStep(s, step)
    ensures c in DoStep(s, step).parked <==> Suspends(s, step, c) || (c in s.parked && !Resumes(s, step, c))
    ensures Suspends(s, step, c) ==> c !in s.parked
  {
    hide Core, Armed, Quiet;
    match step
    case User(act) =>
    case Pop =>
    case Wait(ts) => TokensLive(s, ts);
  }

  /** Over a whole run, resumptions of `c` never outrun its suspensions, and lag by one exactly while it is parked. */
  lemma {:induction false} ResumedOncePerSuspension(steps: seq<Step>, c: Coro)
    requires Inv(INITIAL) && Exec(INITIAL, steps).Some?
    ensures Suspensions(INITIAL, steps, c) ==
      Resumptions(INITIAL, steps, c) + if c in Exec(INITIAL, steps).value.parked then 1 else 0
  {
    hide Inv;
    if steps != [] {
      var init := steps[..|steps| - 1];
      ResumedOncePerSuspension(init, c);
      StepParks(Exec(INITIAL, init).value, steps[|steps| - 1], c);
    }
  }

  // ---- The exit condition of the loop ----------------------------------------------------------

  /** `m_pending_io` is the size of the interest set; when it is zero and nothing is ready, nothing is parked. */
  lemma NothingPendingMeansNothingParked(s: State)
    requires Inv(s)
    ensures s.pendingIo == |s.interest|
    ensures s.pendingIo == 0 && s.ready == [] ==> s.parked == map[]
  {
    forall c | c in s.parked ensures c in s.ready || s.awaiters[s.parked[c]].handle in s.interest {
      assert s.parked[c] in s.awaiters;
    }
    hide Core;
    assert s.pendingIo == 0 ==> s.interest == map[];
  }

  // ---- Cancellation ----------------------------------------------------------------------------

  /** What no callback changes in an awaiter. */
  predicate SameAwait(v: Awaiter, w: Awaiter) {
    v.handle == w.handle && v.token == w.token && v.continuation == w.continuation && v.addError == w.addError
  }

  /** A coroutine that a stop of `src` may wake: parked on an armed awaiter and not queued. */
  ghost predicate Wakeable(s: State, src: Source, c: Coro) {
    && c in s.parked && s.parked[c] in s.awaiters
    && !s.awaiters[s.parked[c]].queued && s.awaiters[s.parked[c]].token == Some(src)
  }

  lemma FireHeadEffect(s: State, src: Source)
    requires Core(s) && src in s.sources && s.sources[src].list != []
    requires s.sources[src].list[0] in s.awaiters
    ensures var r := FireHead(s, src);
      && (forall a :: a in s.awaiters ==> SameAwait(s.awaiters[a], r.awaiters[a]))
      && (forall a :: a in s.awaiters && s.awaiters[a].queued ==> r.awaiters[a].queued)
      && s.ready <= r.ready
      && forall c :: c in r.ready && c !in s.ready ==> Wakeable(s, src, c)
  {
    var a := s.sources[src].list[0];
    HeadOk(s, src);
    hide Core;
  }

  lemma {:induction false} FireAllEffect(s: State, src: Source)
    requires Core(s) && Armed(s.awaiters) && src in s.sources && s.sources[src].stopped
    requires forall a :: a in s.sources[src].list ==> a in s.awaiters
    ensures var r := FireAll(s, src);
      && r.awaiters.Keys == s.awaiters.Keys
      && (forall a :: a in s.awaiters ==> SameAwait(s.awaiters[a], r.awaiters[a]))
      && s.ready <= r.ready
      && forall c :: c in r.ready && c !in s.ready ==> Wakeable(s, src, c)
    decreases |s.sources[src].list|
  {
    hide Core, Armed;
    if s.sources[src].list != [] {
      var m := FireHead(s, src);
      FireHeadEffect(s, src);
      FireHeadKeeps(s, src);
      FireAllEffect(m, src);
      var r := FireAll(m, src);
      forall c | c in r.ready && c !in s.ready ensures Wakeable(s, src, c) {
        if c !in m.ready { assert Wakeable(m, src, c); }
      }
    }
  }

  /**
    A stop flips the source for good and wakes only coroutines still parked, unqueued, on the source's awaiters;
    an awaiter that was already resumed is never queued again.
  */
  lemma RequestStopEffect(s: State, src: Source)
    requires Inv(s) && src in s.sources
    ensures var r := RequestStop(s, src);
      && r.sources == s.sources[src := StopState(true, [])]
      && r.awaiters.Keys == s.awaiters.Keys
      && (forall a :: a in s.awaiters ==> SameAwait(s.awaiters[a], r.awaiters[a]))
      && s.ready <= r.ready
      && forall c :: c in r.ready && c !in s.ready ==> Wakeable(s, src, c)
  {
    hide Core, Armed;
    if s.sources[src].stopped {
      assert s.sources[src] == StopState(true, []);
    } else {
      hide Quiet;
      var s1 := s.(sources := s.sources[src := s.sources[src].(stopped := true)]);
      StopFlagKeeps(s, src);
      FireAllKeeps(s1, src);
      FireAllEffect(s1, src);
      forall c | c in RequestStop(s, src).ready && c !in s.ready ensures Wakeable(s, src, c) {
        assert Wakeable(s1, src, c);
      }
    }
  }

  /** After `request_stop`, no awaiter of the source is registered, and each still parked one will resume with an error. */
  lemma StoppedAwaitersAreQueued(s: State, src: Source, a: Addr)
    requires Inv(s) && src in s.sources && a in s.awaiters && s.awaiters[a].token == Some(src)
    ensures var r := RequestStop(s, src);
      && a in r.awaiters && r.awaiters[a].token == Some(src)
      && !r.awaiters[a].registered && !Watched(r.interest, a)
      && ResumeOutcome(r, a) != Success
      && forall c :: ParkedOn(r.parked, c, a) ==> multiset(r.ready)[c] == 1
  {
    var r := RequestStop(s, src);
    RequestStopKeeps(s, src);
    RequestStopEffect(s, src);
    forall c | ParkedOn(r.parked, c, a) ensures multiset(r.ready)[c] == 1 {
      DistinctCount(r.ready, c);
    }
  }

  /** A stop is never forgotten: whatever runs later, awaiters of the source cannot report success. */
  lemma {:induction false} StopIsForever(s: State, steps: seq<Step>, src: Source)
    requires Inv(s) && Exec(s, steps).Some? && src in s.sources && s.sources[src].stopped
    ensures var r := Exec(s, steps).value;
      && src in r.sources && r.sources[src].stopped
      && forall a :: a in r.awaiters && r.awaiters[a].token == Some(src) ==> ResumeOutcome(r, a) != Success
  {
    if steps != [] {
      var init := steps[..|steps| - 1];
      hide Inv;
      StopIsForever(s, init, src);
      StepKeepsStopped(Exec(s, init).value, steps[|steps| - 1], src);
    }
  }

  lemma StepKeepsStopped(s: State, step: Step, src: Source)
    requires Inv(s) && CanStep(s, step) && src in s.sources && s.sources[src].stopped
    ensures src in DoStep(s, step).sources && DoStep(s, step).sources[src].stopped
  {
    hide Inv;
    match step
    case User(act) =>
      if act.Stop? { RequestStopEffect(s, act.src); }
    case Pop =>
    case Wait(ts) =>
      TokensLive(s, ts);
      BatchKeepsSources(s, ts);
  }

  lemma {:induction false} BatchKeepsSources(s: State, ts: seq<Trigger>)
    requires forall t :: t in ts ==> t.token in s.awaiters
    ensures FireBatch(s, ts).sources == s.sources
  {
    if ts != [] { BatchKeepsSources(s, ts[..|ts| - 1]); }
  }

  // ---- What the assumptions on callers are for --------------------------------------------------

  /** No one is parked on the awaiter. */
  ghost predicate Vacant(s: State, a: Addr) {
    forall d :: !ParkedOn(s.parked, d, a)
  }

  /** `m_queued` is never reset: in any reachable state, a trigger wakes a coroutine if and only if its awaiter is awaited for the first time. */
  lemma TriggerWakesOnlyFirstAwait(s: State, a: Addr, c: Coro, events: Events)
    requires Inv(s) && a in s.awaiters && Vacant(s, a) && c !in s.ready && !StopRequested(s, s.awaiters[a].token)
    ensures var r := Fire(AwaitSuspend(s, a, c, Added), Trigger(events, a));
      c in r.ready <==> s.awaiters[a].continuation.None?
  {
    AwaitedWasQueued(s, a);
    hide Inv;
  }

  lemma AwaitedWasQueued(s: State, a: Addr)
    requires Inv(s) && a in s.awaiters && Vacant(s, a)
    ensures s.awaiters[a].queued <==> s.awaiters[a].continuation.Some?
  {
  }

  /** Nothing that could still wake `c` is left: it is not queued, and every awaiter that remembers it thinks it was. */
  ghost predicate Forgotten(s: State, c: Coro) {
    c !in s.ready && forall b :: b in s.awaiters && s.awaiters[b].continuation == Some(c) ==> s.awaiters[b].queued
  }

  lemma CancelForgets(s: State, a: Addr, c: Coro)
    requires a in s.awaiters && Forgotten(s, c)
    ensures Forgotten(OnCancel(s, a), c)
  {
  }

  lemma {:induction false} BatchForgets(s: State, ts: seq<Trigger>, c: Coro)
    requires (forall t :: t in ts ==> t.token in s.awaiters) && Forgotten(s, c)
    ensures Forgotten(FireBatch(s, ts), c)
  {
    if ts != [] { BatchForgets(s, ts[..|ts| - 1], c); }
  }

  lemma {:induction false} FireAllForgets(s: State, src: Source, c: Coro)
    requires src in s.sources && (forall a :: a in s.sources[src].list ==> a in s.awaiters) && Forgotten(s, c)
    ensures Forgotten(FireAll(s, src), c)
    decreases |s.sources[src].list|
  {
    if s.sources[src].list != [] {
      var h := HeadUnlinked(s, src);
      assert Forgotten(h, c);
      CancelForgets(h, s.sources[src].list[0], c);
      hide OnCancel, Forgotten;
      FireAllForgets(FireHead(s, src), src, c);
    }
  }

  /**
    Awaiting a used awaiter again loses the coroutine: it is parked, and no batch of triggers, no stop of any source and no
    resumption of another coroutine ever queues it.
  */
  lemma SecondAwaitIsLost(s: State, a: Addr, c: Coro)
    requires Inv(s) && a in s.awaiters && s.awaiters[a].continuation.Some? && Vacant(s, a) && Runnable(s, c)
    requires !StopRequested(s, s.awaiters[a].token)
    ensures var r := AwaitSuspend(s, a, c, Added);
      c in r.parked && Forgotten(r, c)
  {
    AwaitedWasQueued(s, a);
    forall b | b in s.awaiters && s.awaiters[b].continuation == Some(c) ensures s.awaiters[b].queued {
      assert !ParkedOn(s.parked, c, b);
    }
    hide Inv;
  }

  lemma StopForgets(s: State, src: Source, c: Coro)
    requires src in s.sources && (forall a :: a in s.sources[src].list ==> a in s.awaiters) && Forgotten(s, c)
    ensures Forgotten(RequestStop(s, src), c)
  {
    var s1 := s.(sources := s.sources[src := s.sources[src].(stopped := true)]);
    assert Forgotten(s1, c);
    hide Forgotten;
    FireAllForgets(s1, src, c);
  }

  lemma PopForgets(s: State, c: Coro)
    requires s.ready != [] && (s.ready[0] in s.parked ==> s.parked[s.ready[0]] in s.awaiters) && Forgotten(s, c)
    ensures Forgotten(PopFront(s), c) && (c in s.parked ==> c in PopFront(s).parked)
  {
    assert s.ready[0] in s.ready;
  }

  /** Awaiter 0 after one full await by coroutine 1. */
  const USED := State(
    map[0 := Awaiter(3, None, 1, Some(1), None, "", false, true, false)], map[], map[], [], 0, map[], {})

  const WAITING := State(
    map[0 := Awaiter(3, None, 0, Some(1), None, "", false, false, true)], map[], map[3 := 0], [], 1, map[1 := 0], {})

  const WOKEN := State(
    map[0 := Awaiter(3, None, 1, Some(1), None, "", false, true, true)], map[], map[3 := 0], [1], 1, map[1 := 0], {})

  lemma OneAwait()
    requires Inv(INITIAL)
    ensures Exec(INITIAL, [User(Construct(0, 3, None)), User(Await(1, 0, Added))]) == Some(WAITING)
  {
    var s1 := Put(INITIAL, 0, NewAwaiter(3, None));
    ExecNone(INITIAL);
    assert CanStep(INITIAL, User(Construct(0, 3, None))) && DoStep(INITIAL, User(Construct(0, 3, None))) == s1;
    ExecStep(INITIAL, [], User(Construct(0, 3, None)));
    assert [] + [User(Construct(0, 3, None))] == [User(Construct(0, 3, None))];
    assert Inv(s1) && CanStep(s1, User(Await(1, 0, Added)));
    assert DoStep(s1, User(Await(1, 0, Added))) == WAITING;
    ExecStep(INITIAL, [User(Construct(0, 3, None))], User(Await(1, 0, Added)));
    assert [User(Construct(0, 3, None))] + [User(Await(1, 0, Added))] == [User(Construct(0, 3, None)), User(Await(1, 0, Added))];
  }

  lemma OneWakeup()
    requires Inv(INITIAL)
    ensures Exec(INITIAL, [User(Construct(0, 3, None)), User(Await(1, 0, Added)), Wait([Trigger(1, 0)])]) == Some(WOKEN)
  {
    var first := [User(Construct(0, 3, None)), User(Await(1, 0, Added))];
    OneAwait();
    hide Inv;
    assert CanStep(WAITING, Wait([Trigger(1, 0)])) by { assert WAITING.interest[3] == 0; }
    OneTrigger();
    hide FireBatch, Exec, CanStep;
    ExecStep(INITIAL, first, Wait([Trigger(1, 0)]));
    assert first + [Wait([Trigger(1, 0)])] == [User(Construct(0, 3, None)), User(Await(1, 0, Added)), Wait([Trigger(1, 0)])];
  }

  lemma OneTrigger()
    ensures FireBatch(WAITING, [Trigger(1, 0)]) == WOKEN
  {
    assert [Trigger(1, 0)][..0] == [];
    assert FireBatch(WAITING, []) == WAITING;
  }

  /** A run that gets there: one full await of coroutine 1, after which awaiting the same awaiter loses it. */
  lemma UsedAwaiterIsReachable()
    ensures Inv(INITIAL)
    ensures var steps := [User(Construct(0, 3, None)), User(Await(1, 0, Added)), Wait([Trigger(1, 0)]), Pop];
      && Exec(INITIAL, steps) == Some(USED) && Vacant(USED, 0) && Runnable(USED, 1)
      && Forgotten(AwaitSuspend(USED, 0, 1, Added), 1)
  {
    InitialOk();
    OneWakeup();
    hide Inv;
    var first := [User(Construct(0, 3, None)), User(Await(1, 0, Added)), Wait([Trigger(1, 0)])];
    ExecStep(INITIAL, first, Pop);
    OnePop();
    assert first + [Pop] == [User(Construct(0, 3, None)), User(Await(1, 0, Added)), Wait([Trigger(1, 0)]), Pop];
    assert Exec(INITIAL, first + [Pop]) == Some(USED);
    hide Exec;
    SecondAwaitIsLost(USED, 0, 1);
  }

  lemma OnePop()
    ensures PopFront(WOKEN) == USED
  {
  }

  /** A refused registration is reported as an error exactly when the reactor gave a nonempty message. */
  lemma RefusalReported(s: State, a: Addr, c: Coro, message: string)
    requires a in s.awaiters && !s.awaiters[a].cancelled && !StopRequested(s, s.awaiters[a].token)
    ensures var r := AwaitSuspend(s, a, c, Refused(message));
      && r.ready == s.ready + [c]
      && (ResumeOutcome(r, a).ReactorError? <==> message != "")
      && (ResumeOutcome(r, a) == Success <==> message == "")
  {
  }
}
