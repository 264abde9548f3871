/**
  The executor and its awaiters as mutable state, updated in place the way the C++ does it, and proved to
  take exactly the steps of module `Runtime`.
*/
module Executors {
  import opened Options
  import opened Lists
  import opened Runtime
  import RuntimeRuns

  /** Everything outside the executor that decides how one resume or one wait goes. */
  datatype Env = Env(
    acts: seq<Act>,                   // what the resumed coroutine does before it suspends or ends
    batch: Option<seq<Trigger>>,      // what `Reactor::wait` reports, or its failure
    stopCalled: bool)                 // whether another thread calls `Executor::stop` meanwhile

  datatype Exit = TargetDone | Idle | Stopped | WaitFailed | OutOfEvents

  /** The triggers of `batch` whose token is registered. */
  function Reported(s: State, batch: seq<Trigger>): (r: seq<Trigger>)
    ensures forall t :: t in r ==> t in batch && t.token in s.awaiters && s.awaiters[t.token].registered
  {
    if batch == [] then []
    else
      var t := batch[0];
      (if t.token in s.awaiters && s.awaiters[t.token].registered then [t] else []) + Reported(s, batch[1..])
  }

  /** Resumes and waits in a trace, that is, how many outside events it answered. */
  function Turns(trace: seq<Step>): nat {
    if trace == [] then 0
    else Turns(trace[..|trace| - 1]) + if trace[|trace| - 1].User? then 0 else 1
  }

  lemma NoTurns()
    ensures Turns([]) == 0
  {
  }

  lemma OneTurn(step: Step)
    ensures Turns([step]) == if step.User? then 0 else 1
  {
  }

  lemma {:induction false} TurnsConcat(a: seq<Step>, b: seq<Step>)
    ensures Turns(a + b) == Turns(a) + Turns(b)
  {
    if b == [] {
      assert a + b == a;
    } else {
      TurnsConcat(a, b[..|b| - 1]);
      assert (a + b)[..|a + b| - 1] == a + b[..|b| - 1];
    }
  }

  lemma ReportedWatched(s: State, batch: seq<Trigger>)
    requires Inv(s)
    ensures forall t :: t in Reported(s, batch) ==> Watched(s.interest, t.token)
  {
  }

  /** What a list of actions comes to, impossible ones left out. */
  ghost function AfterActs(s: State, acts: seq<Act>): (r: State)
    requires Inv(s)
    ensures Inv(r)
  {
    if acts == [] then s
    else
      var m, act := AfterActs(s, acts[..|acts| - 1]), acts[|acts| - 1];
      if CanAct(m, act) then ActKeeps(m, act); DoAct(m, act) else m
  }

  /** Nobody called `stop` during the first `n` events. */
  predicate NoStop(env: seq<Env>, n: nat)
    requires n <= |env|
  {
    forall j :: 0 <= j < n ==> !env[j].stopCalled
  }

  lemma NoStopStep(env: seq<Env>, n: nat)
    ensures NoStop(env, 0)
    ensures n < |env| ==> (NoStop(env, n + 1) <==> NoStop(env, n) && !env[n].stopCalled)
  {
  }

  lemma NoWaits(s: State)
    requires Inv(s)
    ensures WaitsForSomething(s, [])
  {
  }

  lemma NoStopLater(env: seq<Env>, k: nat, n: nat)
    requires k <= |env| && n <= |env| - k && NoStop(env, k)
    ensures NoStop(env[k..], n) <==> NoStop(env, k + n)
  {
    if NoStop(env[k..], n) {
      assert forall j :: k <= j < k + n ==> env[j] == env[k..][j - k];
    }
  }

  /** The target is done, if there is one. */
  predicate TargetIsDone(target: Option<Coro>, done: set<Coro>) {
    target.Some? && target.value in done
  }

  /** Step `last` of the trace resumed the coroutine that finished the target; nothing was resumed after it. */
  ghost predicate EndsWithTarget(s: State, trace: seq<Step>, last: nat, target: Option<Coro>)
    requires Inv(s)
  {
    && last < |trace| && trace[last] == Pop && (forall k :: last < k < |trace| ==> trace[k].User?)
    && Exec(s, trace[..last]).Some? && !TargetIsDone(target, Exec(s, trace[..last]).value.done)
  }

  /** The reactor is waited on only while something is registered with it, so no wait is for nothing. */
  ghost predicate WaitsForSomething(s: State, trace: seq<Step>)
    requires Inv(s)
  {
    forall k :: 0 <= k < |trace| && trace[k].Wait? ==> Exec(s, trace[..k]).Some? && Exec(s, trace[..k]).value.interest != map[]
  }

  lemma WaitsConcat(s: State, a: seq<Step>, mid: State, b: seq<Step>)
    requires Inv(s) && Exec(s, a) == Some(mid) && WaitsForSomething(s, a)
    requires forall k :: 0 <= k < |b| && b[k].Wait? ==> k == 0 && mid.interest != map[]
    ensures WaitsForSomething(s, a + b)
  {
    hide Inv, Exec;
    forall k | 0 <= k < |a + b| && (a + b)[k].Wait?
      ensures Exec(s, (a + b)[..k]).Some? && Exec(s, (a + b)[..k]).value.interest != map[]
    {
      if k < |a| {
        assert (a + b)[..k] == a[..k];
      } else {
        assert (a + b)[..k] == a;
      }
    }
  }

  lemma EndsLater(s: State, early: seq<Step>, mid: State, more: seq<Step>, at: nat, target: Option<Coro>)
    requires Inv(s) && Exec(s, early) == Some(mid) && EndsWithTarget(mid, more, at, target)
    ensures EndsWithTarget(s, early + more, |early| + at, target)
  {
    hide Inv, Exec;
    ExecConcat(s, early, more[..at]);
    assert (early + more)[..|early| + at] == early + more[..at];
  }

  class Executor {
    var awaiters: map<Addr, Awaiter>
    var sources: map<Source, StopState>
    var interest: map<Handle, Addr>
    var ready: seq<Coro>
    var pendingIo: int
    var parked: map<Coro, Addr>
    var done: set<Coro>
    var running: bool

    function Abs(): State
      reads this
    {
      State(awaiters, sources, interest, ready, pendingIo, parked, done)
    }

    constructor ()
      ensures Abs() == INITIAL && Inv(Abs()) && !running
    {
      awaiters, sources, interest, ready, pendingIo, parked, done := map[], map[], map[], [], 0, map[], {};
      running := false;
    }

    method Leave(a: Addr)
      requires a in awaiters
      modifies this
      ensures Abs() == Deregister(old(Abs()), a) && running == old(running)
    {
      var w := awaiters[a];
      if w.registered {
        interest := interest - {w.handle};
        awaiters := awaiters[a := w.(registered := false)];
        pendingIo := pendingIo - 1;
      }
    }

    method OnCancel(a: Addr)
      requires a in awaiters
      modifies this
      ensures Abs() == Runtime.OnCancel(old(Abs()), a) && running == old(running)
    {
      if awaiters[a].cancelled {
        return;
      }
      awaiters := awaiters[a := awaiters[a].(cancelled := true)];
      Leave(a);
      if !awaiters[a].queued && awaiters[a].continuation.Some? {
        awaiters := awaiters[a := awaiters[a].(queued := true)];
        ready := ready + [awaiters[a].continuation.value];
      }
    }

    /** `StopToken::_arm` with the awaiter's own node. */
    method Arm(a: Addr)
      requires a in awaiters
      modifies this
      ensures Abs() == Runtime.Arm(old(Abs()), a) && running == old(running)
    {
      var token := awaiters[a].token;
      if token.Some? && token.value in sources {
        var src := token.value;
        if sources[src].stopped {
          OnCancel(a);
        } else {
          sources := sources[src := sources[src].(list := [a] + sources[src].list)];
          awaiters := awaiters[a := awaiters[a].(linked := Some(src))];
        }
      }
    }

    method AwaitSuspend(a: Addr, c: Coro, add: AddResult)
      requires a in awaiters
      modifies this
      ensures Abs() == Runtime.AwaitSuspend(old(Abs()), a, c, add) && running == old(running)
    {
      hide Runtime.Arm;
      parked := parked[c := a];
      var w := awaiters[a].(continuation := Some(c));
      if add.Refused? {
        var len := if |add.message| > MAX_ERROR_LENGTH then MAX_ERROR_LENGTH else |add.message|;
        assert len == |add.message| ==> add.message[..len] == add.message;
        awaiters := awaiters[a := w.(addError := add.message[..len], queued := true)];
        ready := ready + [c];
        return;
      }
      interest := interest[w.handle := a];
      awaiters := awaiters[a := w.(registered := true)];
      pendingIo := pendingIo + 1;
      Arm(a);
    }

    method AwaitResume(c: Coro, a: Addr) returns (outcome: Outcome)
      requires a in awaiters
      modifies this
      ensures Abs() == Runtime.AwaitResume(old(Abs()), c, a) && running == old(running)
      ensures outcome == ResumeOutcome(old(Abs()), a)
    {
      var w := awaiters[a];
      var cancelled := w.cancelled || StopRequested(Abs(), w.token);
      Leave(a);
      parked := parked - {c};
      outcome := if w.addError != "" then ReactorError(w.addError) else if cancelled then Cancelled else Success;
    }

    /** The body of `request_stop`'s loop: the head leaves the list, then its callback runs. */
    method FireFirst(src: Source)
      requires src in sources && sources[src].list != [] && sources[src].list[0] in awaiters
      modifies this
      ensures Abs() == FireHead(old(Abs()), src) && running == old(running)
    {
      var a := sources[src].list[0];
      awaiters := awaiters[a := awaiters[a].(linked := None)];
      sources := sources[src := sources[src].(list := sources[src].list[1..])];
      OnCancel(a);
    }

    /** Fires every callback linked to `src`, or does nothing if the stop already happened. */
    method RequestStop(src: Source) returns (flipped: bool)
      requires src in sources
      requires forall a :: a in sources[src].list ==> a in awaiters
      modifies this
      ensures Abs() == Runtime.RequestStop(old(Abs()), src) && running == old(running)
      ensures flipped <==> !old(sources)[src].stopped
    {
      if sources[src].stopped {
        return false;
      }
      hide FireHead;
      sources := sources[src := sources[src].(stopped := true)];
      while sources[src].list != []
        invariant src in sources && running == old(running)
        invariant forall a :: a in sources[src].list ==> a in awaiters
        invariant FireAll(Abs(), src) == Runtime.RequestStop(old(Abs()), src)
        decreases |sources[src].list|
      {
        FireFirst(src);
      }
      flipped := true;
    }

    /** The trigger loop of `run_until`; every token in the batch is looked up as an awaiter. */
    method Dispatch(triggers: seq<Trigger>)
      requires forall t :: t in triggers ==> t.token in awaiters && awaiters[t.token].continuation.Some?
      modifies this
      ensures Abs() == FireBatch(old(Abs()), triggers) && running == old(running)
    {
      ghost var before := Abs();
      for i := 0 to |triggers|
        invariant running == old(running)
        invariant forall t :: t in triggers ==> t.token in awaiters && awaiters[t.token].continuation.Some?
        invariant Abs() == FireBatch(before, triggers[..i])
      {
        assert triggers[i] in triggers;
        assert triggers[..i + 1][..i] == triggers[..i];
        var a := triggers[i].token;
        awaiters := awaiters[a := awaiters[a].(fired := triggers[i].events)];
        if !awaiters[a].queued {
          awaiters := awaiters[a := awaiters[a].(queued := true)];
          ready := ready + [awaiters[a].continuation.value];
        }
      }
      assert triggers[..|triggers|] == triggers;
    }

    /** `~IoAwaiter`: its stop node leaves the list it is on. */
    method DestroyAwaiter(a: Addr)
      requires a in awaiters
      modifies this
      ensures Abs() == (var s := Unlink(old(Abs()), a); s.(awaiters := s.awaiters - {a})) && running == old(running)
    {
      var link := awaiters[a].linked;
      if link.Some? && link.value in sources {
        sources := sources[link.value := sources[link.value].(list := Minus(sources[link.value].list, [a]))];
      }
      awaiters := awaiters - {a};
    }

    /** One action of user code; an action that is not possible is not taken. */
    method Perform(act: Act) returns (taken: bool)
      requires Inv(Abs())
      modifies this
      ensures taken == CanAct(old(Abs()), act) && running == old(running)
      ensures taken ==> Abs() == DoAct(old(Abs()), act)
      ensures !taken ==> Abs() == old(Abs())
    {
      taken := CanAct(Abs(), act);
      if taken {
        hide Inv, Unlink, Runtime.AwaitSuspend, Runtime.RequestStop;
        match act {
          case NewSource(src) => sources := sources[src := StopState(false, [])];
          case Construct(a, handle, token) => awaiters := awaiters[a := NewAwaiter(handle, token)];
          case Await(c, a, add) =>
            if !StopRequested(Abs(), awaiters[a].token) { AwaitSuspend(a, c, add); }
          case Destroy(a) => DestroyAwaiter(a);
          case Stop(src) => StopListLive(Abs(), src); var _ := RequestStop(src);
          case Schedule(c) => ready := ready + [c];
          case Finish(c) => done := done + {c};
        }
      }
    }

    /** What the resumed coroutine and its callees do before control returns to the loop. */
    method PerformAll(acts: seq<Act>) returns (trace: seq<Step>)
      requires Inv(Abs())
      modifies this
      ensures Inv(Abs()) && running == old(running)
      ensures Exec(old(Abs()), trace) == Some(Abs()) && Turns(trace) == 0
      ensures Abs() == AfterActs(old(Abs()), acts) && forall k :: 0 <= k < |trace| ==> trace[k].User?
    {
      hide Inv, CanAct, DoAct;
      trace := [];
      for i := 0 to |acts|
        invariant Inv(Abs()) && running == old(running) && Turns(trace) == 0
        invariant Exec(old(Abs()), trace) == Some(Abs())
        invariant Abs() == AfterActs(old(Abs()), acts[..i]) && forall k :: 0 <= k < |trace| ==> trace[k].User?
      {
        assert acts[..i + 1][..i] == acts[..i];
        var taken := Perform(acts[i]);
        if taken {
          ExecStep(old(Abs()), trace, User(acts[i]));
          TurnsConcat(trace, [User(acts[i])]);
          trace := trace + [User(acts[i])];
        }
      }
      assert acts[..|acts|] == acts;
    }

    /** Pops the front of the ready queue and resumes it. */
    method ResumeFront(acts: seq<Act>) returns (trace: seq<Step>)
      requires Inv(Abs()) && ready != []
      modifies this
      ensures Inv(Abs()) && running == old(running)
      ensures Exec(old(Abs()), trace) == Some(Abs())
      ensures Turns(trace) == 1 && trace[0] == Pop && forall k :: 0 < k < |trace| ==> trace[k].User?
      ensures (old(ready[0]) in old(parked) ==> old(parked[ready[0]]) in old(awaiters)) && Inv(PopFront(old(Abs())))
      ensures Abs() == AfterActs(PopFront(old(Abs())), acts)
    {
      ghost var s := Abs();
      FrontLive(s);
      PopKeeps(s);
      hide Inv;
      var c := ready[0];
      ready := ready[1..];
      if c in parked {
        var _ := AwaitResume(c, parked[c]);
      }
      ExecStep(s, [], Pop);
      var more := PerformAll(acts);
      ExecConcat(s, [Pop], more);
      TurnsConcat([Pop], more);
      trace := [Pop] + more;
    }

    /** The inner loop of `run_until`: resume ready coroutines until none is left, the target is done, or a stop. */
    method DrainReady(target: Option<Coro>, env: seq<Env>)
      returns (exit: Option<Exit>, used: nat, trace: seq<Step>, ghost last: nat)
      requires Inv(Abs()) && !TargetIsDone(target, done) && running
      modifies this
      ensures Inv(Abs()) && Exec(old(Abs()), trace) == Some(Abs()) && used <= |env| && Turns(trace) == used
      ensures (running <==> NoStop(env, used)) && (used > 0 ==> NoStop(env, used - 1))
      ensures exit.None? ==> ready == [] || !running
      ensures exit == Some(TargetDone) <==> TargetIsDone(target, done)
      ensures exit == Some(TargetDone) ==> EndsWithTarget(old(Abs()), trace, last, target)
      ensures forall k :: 0 <= k < |trace| ==> !trace[k].Wait?
      ensures exit.Some? ==> exit.value in {TargetDone, OutOfEvents}
      ensures exit == Some(OutOfEvents) ==> used == |env|
    {
      hide Inv, Exec, Turns;
      trace, used, exit, last := [], 0, None, 0;
      ExecNone(Abs());
      NoTurns();
      while ready != [] && running
        invariant Inv(Abs()) && Exec(old(Abs()), trace) == Some(Abs()) && used <= |env| && Turns(trace) == used
        invariant (running <==> NoStop(env, used)) && (used > 0 ==> NoStop(env, used - 1))
        invariant !TargetIsDone(target, done) && forall k :: 0 <= k < |trace| ==> !trace[k].Wait?
        decreases |env| - used
      {
        if used == |env| {
          exit := Some(OutOfEvents);
          return;
        }
        last := |trace|;
        ghost var early := trace;
        var more := ResumeFront(env[used].acts);
        ExecConcat(old(Abs()), trace, more);
        TurnsConcat(trace, more);
        trace := trace + more;
        assert trace[..last] == early;
        if env[used].stopCalled { running := false; }
        used := used + 1;
        if target.Some? && target.value in done {
          exit := Some(TargetDone);
          return;
        }
      }
    }

    /** One `Reactor::wait` and the dispatch of its batch. The reactor reports only what is registered. */
    method WaitOnce(batch: seq<Trigger>) returns (trace: seq<Step>)
      requires Inv(Abs()) && ready == []
      modifies this
      ensures Inv(Abs()) && Exec(old(Abs()), trace) == Some(Abs()) && running == old(running)
      ensures trace == [Wait(Reported(old(Abs()), batch))] && done == old(done)
    {
      var triggers := Reported(Abs(), batch);
      ghost var s := Abs();
      ReportedWatched(s, batch);
      hide Inv;
      TokensLive(s, triggers);
      ExecStep(s, [], Wait(triggers));
      Dispatch(triggers);
      trace := [Wait(triggers)];
    }

    /**
      `run_until`. It takes only steps of the runtime, so everything proved of runs holds of it. It answers each outside
      event by one resume or one wait, and gives up waiting only when no coroutine is left parked.
    */
    method RunUntil(target: Option<Coro>, env: seq<Env>)
      returns (exit: Exit, used: nat, trace: seq<Step>, ghost last: nat)
      requires Inv(Abs())
      modifies this
      ensures Inv(Abs())
      ensures Exec(old(Abs()), trace) == Some(Abs())
      ensures used <= |env| && Turns(trace) == (if exit == WaitFailed then used - 1 else used)
      ensures exit == TargetDone <==> TargetIsDone(target, done)
      ensures exit == TargetDone ==> trace == [] || EndsWithTarget(old(Abs()), trace, last, target)
      ensures TargetIsDone(target, old(done)) ==> trace == []
      ensures WaitsForSomething(old(Abs()), trace)
      ensures exit == Idle ==> parked == map[] && ready == [] && interest == map[]
      ensures (running <==> NoStop(env, used) && exit != WaitFailed) && (used > 0 ==> NoStop(env, used - 1))
      ensures exit == Stopped ==> !NoStop(env, used)
      ensures exit == WaitFailed ==> !running && used > 0 && env[used - 1].batch.None?
      ensures exit == OutOfEvents ==> used == |env|
    {
      hide Inv, Exec, Turns, NoStop, WaitsForSomething, EndsWithTarget;
      running := true;
      trace, used, last := [], 0, 0;
      ExecNone(Abs());
      NoTurns();
      NoWaits(Abs());
      NoStopStep(env, 0);
      while running
        invariant Inv(Abs()) && Exec(old(Abs()), trace) == Some(Abs())
        invariant used <= |env| && Turns(trace) == used
        invariant (running <==> NoStop(env, used)) && (used > 0 ==> NoStop(env, used - 1))
        invariant WaitsForSomething(old(Abs()), trace)
        invariant TargetIsDone(target, done) ==> running && trace == []
        invariant TargetIsDone(target, old(done)) ==> trace == [] && done == old(done)
        decreases |env| - used
      {
        if target.Some? && target.value in done {
          exit := TargetDone;
          return;
        }
        ghost var mid, early := Abs(), trace;
        var left, resumed, more, at := DrainReady(target, env[used..]);
        NoStopLater(env, used, resumed);
        if resumed > 0 { NoStopLater(env, used, resumed - 1); }
        ExecConcat(old(Abs()), trace, more);
        TurnsConcat(trace, more);
        WaitsConcat(old(Abs()), trace, mid, more);
        trace, used, last := trace + more, used + resumed, |trace| + at;
        if left.Some? {
          if left.value == TargetDone { EndsLater(old(Abs()), early, mid, more, at, target); }
          exit := left.value;
          return;
        }
        if !running {
          break;
        }
        RuntimeRuns.NothingPendingMeansNothingParked(Abs());
        if pendingIo == 0 && ready == [] {
          exit := Idle;
          return;
        }
        if used == |env| {
          exit := OutOfEvents;
          return;
        }
        var event := env[used];
        NoStopStep(env, used);
        used := used + 1;
        if event.batch.None? {
          running := false;
          exit := WaitFailed;
          return;
        }
        mid := Abs();
        more := WaitOnce(event.batch.value);
        ExecConcat(old(Abs()), trace, more);
        WaitsConcat(old(Abs()), trace, mid, more);
        TurnsConcat(trace, more);
        OneTurn(more[0]);
        trace := trace + more;
        if event.stopCalled { running := false; }
      }
      exit := Stopped;
    }
  }
}
