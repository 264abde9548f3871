/** What each operation of the async runtime does to the queue, the awaiters and the reactor, in terms of its inputs. */
module RuntimeEffects {
  import opened Options
  import opened Runtime
  import opened RuntimeRuns

  // ---- A batch of triggers ---------------------------------------------------------------------

  ghost predicate Live(s: State, ts: seq<Trigger>) {
    forall t :: t in ts ==> t.token in s.awaiters && s.awaiters[t.token].continuation.Some?
  }

  /** `t` is for the awaiter `c` is parked on, and nothing has queued `c` yet. */
  predicate Wakes(s: State, t: Trigger, c: Coro) {
    c in s.parked && s.parked[c] == t.token && t.token in s.awaiters && !s.awaiters[t.token].queued
  }

  /** `c`'s first trigger comes before every trigger of `d`. */
  ghost predicate TriggeredBefore(s: State, ts: seq<Trigger>, c: Coro, d: Coro) {
    exists i :: 0 <= i < |ts| && Wakes(s, ts[i], c) && forall j :: 0 <= j < |ts| && Wakes(s, ts[j], d) ==> i < j
  }

  ghost predicate Triggered(s: State, ts: seq<Trigger>, c: Coro) {
    exists i :: 0 <= i < |ts| && Wakes(s, ts[i], c)
  }

  /** Nothing but `m_fired`, `m_queued` and the queue changes, and only for awaiters with a trigger. */
  ghost predicate OnlyFires(s: State, ts: seq<Trigger>, r: State) {
    && r.sources == s.sources && r.interest == s.interest && r.pendingIo == s.pendingIo && r.parked == s.parked && r.done == s.done
    && r.awaiters.Keys == s.awaiters.Keys
    && (forall a :: a in s.awaiters ==>
          r.awaiters[a] == s.awaiters[a].(fired := r.awaiters[a].fired, queued := r.awaiters[a].queued))
    && (forall a :: a in s.awaiters && (forall t :: t in ts ==> t.token != a) ==> r.awaiters[a] == s.awaiters[a])
  }

  lemma {:induction false} BatchOnlyFires(s: State, ts: seq<Trigger>)
    requires forall t :: t in ts ==> t.token in s.awaiters
    ensures OnlyFires(s, ts, FireBatch(s, ts))
  {
    if ts != [] {
      var init, t := ts[..|ts| - 1], ts[|ts| - 1];
      assert ts == init + [t];
      BatchOnlyFires(s, init);
      hide OnlyFires;
      FireOnlyFires(FireBatch(s, init), t);
      FiresChain(s, init, FireBatch(s, init), t, FireBatch(s, ts));
    } else {
      assert FireBatch(s, ts) == s;
    }
  }

  lemma FireOnlyFires(s: State, t: Trigger)
    requires t.token in s.awaiters
    ensures OnlyFires(s, [t], Fire(s, t))
  {
    assert t in [t];
    var r := Fire(s, t);
    assert r.awaiters == s.awaiters[t.token := s.awaiters[t.token].(fired := t.events, queued := r.awaiters[t.token].queued)];
    hide Fire;
  }

  lemma FiresChain(s: State, ts: seq<Trigger>, m: State, t: Trigger, r: State)
    requires OnlyFires(s, ts, m) && OnlyFires(m, [t], r)
    ensures OnlyFires(s, ts + [t], r)
  {
    forall a | a in s.awaiters && (forall u :: u in ts + [t] ==> u.token != a) ensures r.awaiters[a] == s.awaiters[a] {
      assert t in ts + [t] && forall u :: u in ts ==> u in ts + [t];
      assert forall u :: u in [t] ==> u == t;
      assert m.awaiters[a] == s.awaiters[a];
    }
  }

  /** Every trigger counts: its awaiter is queued afterwards and the coroutine parked on it is in the queue. */
  lemma {:induction false} BatchQueuesAll(s: State, ts: seq<Trigger>)
    requires Inv(s) && Live(s, ts)
    ensures forall t :: t in ts ==>
      && FireBatch(s, ts).awaiters[t.token].queued
      && forall c :: ParkedOn(s.parked, c, t.token) ==> c in FireBatch(s, ts).ready
  {
    var r := FireBatch(s, ts);
    FireBatchKeeps(s, ts);
    BatchOnlyFires(s, ts);
    BatchMarksQueued(s, ts);
    forall t, c | t in ts && ParkedOn(s.parked, c, t.token) ensures c in r.ready {
      assert r.parked[c] == t.token && r.awaiters[t.token].queued;
    }
  }

  lemma {:induction false} BatchMarksQueued(s: State, ts: seq<Trigger>)
    requires Live(s, ts)
    ensures forall t :: t in ts ==> FireBatch(s, ts).awaiters[t.token].queued
  {
    if ts != [] {
      var init := ts[..|ts| - 1];
      assert ts == init + [ts[|ts| - 1]];
      BatchMarksQueued(s, init);
      BatchOnlyFires(s, init);
      FireMarksQueued(FireBatch(s, init), ts[|ts| - 1]);
      hide Fire;
    }
  }

  lemma FireMarksQueued(s: State, t: Trigger)
    requires t.token in s.awaiters && s.awaiters[t.token].continuation.Some?
    ensures Fire(s, t).awaiters.Keys == s.awaiters.Keys && Fire(s, t).awaiters[t.token].queued
    ensures forall a :: a in s.awaiters && s.awaiters[a].queued ==> Fire(s, t).awaiters[a].queued
  {
  }

  /** The events kept are those of the awaiter's last trigger. */
  lemma {:induction false} BatchKeepsLastEvents(s: State, ts: seq<Trigger>, i: nat)
    requires (forall t :: t in ts ==> t.token in s.awaiters) && i < |ts| && forall j :: i < j < |ts| ==> ts[j].token != ts[i].token
    ensures FireBatch(s, ts).awaiters[ts[i].token].fired == ts[i].events
  {
    var n := |ts| - 1;
    assert ts == ts[..n] + [ts[n]];
    if i < n {
      BatchKeepsLastEvents(s, ts[..n], i);
    }
  }

  lemma UnqueuedIsParked(s: State, a: Addr)
    requires Inv(s) && a in s.awaiters && s.awaiters[a].continuation.Some? && !s.awaiters[a].queued
    ensures ParkedOn(s.parked, s.awaiters[a].continuation.value, a)
  {
  }

  lemma TriggeredLonger(s: State, ts: seq<Trigger>, t: Trigger, c: Coro)
    requires Triggered(s, ts, c)
    ensures Triggered(s, ts + [t], c)
  {
    var i :| 0 <= i < |ts| && Wakes(s, ts[i], c);
    assert Wakes(s, (ts + [t])[i], c);
  }

  /** What joins the queue behind what was there: exactly coroutines with a trigger, in the order of their first triggers. */
  ghost predicate QueuesInOrder(s: State, ts: seq<Trigger>, ready: seq<Coro>) {
    && s.ready <= ready
    && (forall x :: |s.ready| <= x < |ready| ==> Triggered(s, ts, ready[x]))
    && (forall x, y :: |s.ready| <= x < y < |ready| ==> TriggeredBefore(s, ts, ready[x], ready[y]))
  }

  /** One more trigger that queues nobody. */
  lemma OrderKept(s: State, ts: seq<Trigger>, t: Trigger, ready: seq<Coro>)
    requires QueuesInOrder(s, ts, ready)
    ensures QueuesInOrder(s, ts + [t], ready)
  {
    var ts1 := ts + [t];
    forall x | |s.ready| <= x < |ready| ensures Triggered(s, ts1, ready[x]) {
      TriggeredLonger(s, ts, t, ready[x]);
    }
    forall x, y | |s.ready| <= x < y < |ready| ensures TriggeredBefore(s, ts1, ready[x], ready[y]) {
      BeforeLonger(s, ts, t, ready[x], ready[y]);
    }
  }

  lemma BeforeLonger(s: State, ts: seq<Trigger>, t: Trigger, c: Coro, d: Coro)
    requires TriggeredBefore(s, ts, c, d)
    ensures TriggeredBefore(s, ts + [t], c, d)
  {
    var ts1 := ts + [t];
    var i :| 0 <= i < |ts| && Wakes(s, ts[i], c) && forall j :: 0 <= j < |ts| && Wakes(s, ts[j], d) ==> i < j;
    assert Wakes(s, ts1[i], c);
    forall j | 0 <= j < |ts1| && Wakes(s, ts1[j], d) ensures i < j {
      if j < |ts| { assert ts1[j] == ts[j]; }
    }
  }

  /** One more trigger, the first for `c`, that queues `c`. */
  lemma OrderGrows(s: State, ts: seq<Trigger>, t: Trigger, ready: seq<Coro>, c: Coro)
    requires QueuesInOrder(s, ts, ready) && Wakes(s, t, c) && !Triggered(s, ts, c)
    ensures QueuesInOrder(s, ts + [t], ready + [c])
  {
    OrderKept(s, ts, t, ready);
    var ts1, n := ts + [t], |ready|;
    assert Wakes(s, ts1[|ts|], c);
    forall x | |s.ready| <= x < n ensures TriggeredBefore(s, ts1, ready[x], c) {
      var i :| 0 <= i < |ts| && Wakes(s, ts[i], ready[x]);
      assert Wakes(s, ts1[i], ready[x]);
      assert forall j :: 0 <= j < |ts| ==> ts1[j] == ts[j] && !Wakes(s, ts[j], c);
    }
    forall x, y | |s.ready| <= x < y < n + 1 ensures TriggeredBefore(s, ts1, (ready + [c])[x], (ready + [c])[y]) {
      if y < n { assert TriggeredBefore(s, ts1, ready[x], ready[y]); }
    }
  }

  /** The loop queues coroutines in the order of their first triggers, each once, and no others. */
  lemma {:induction false} BatchQueuesInOrder(s: State, ts: seq<Trigger>)
    requires Inv(s) && Live(s, ts)
    ensures QueuesInOrder(s, ts, FireBatch(s, ts).ready)
  {
    if ts != [] {
      var init, t := ts[..|ts| - 1], ts[|ts| - 1];
      assert ts == init + [t];
      BatchQueuesInOrder(s, init);
      BatchOnlyFires(s, init);
      BatchMarksQueued(s, init);
      var m := FireBatch(s, init);
      if m.awaiters[t.token].queued {
        OrderKept(s, init, t, m.ready);
      } else {
        FirstTrigger(s, init, t, m);
        hide Inv, QueuesInOrder, OnlyFires;
        OrderGrows(s, init, t, m.ready, s.awaiters[t.token].continuation.value);
      }
    }
  }

  lemma FirstTrigger(s: State, ts: seq<Trigger>, t: Trigger, m: State)
    requires Inv(s) && Live(s, ts) && Live(s, [t]) && OnlyFires(s, ts, m)
    requires (forall u :: u in ts ==> m.awaiters[u.token].queued) && !m.awaiters[t.token].queued
    ensures !s.awaiters[t.token].queued
    ensures Wakes(s, t, s.awaiters[t.token].continuation.value) && !Triggered(s, ts, s.awaiters[t.token].continuation.value)
  {
    assert t in [t];
    assert forall u :: u in ts ==> u.token != t.token;
    UnqueuedIsParked(s, t.token);
  }

  // ---- Suspending and resuming -----------------------------------------------------------------

  /** A granted suspension: parked, registered under its handle, in front of its source's list, and not queued. */
  lemma AddedIsWatched(s: State, a: Addr, c: Coro)
    requires Inv(s) && CanAct(s, Await(c, a, Added)) && !StopRequested(s, s.awaiters[a].token)
    ensures var r, w := AwaitSuspend(s, a, c, Added), s.awaiters[a];
      && r.parked == s.parked[c := a] && r.ready == s.ready && r.done == s.done
      && r.interest == s.interest[w.handle := a] && r.pendingIo == s.pendingIo + 1
      && r.awaiters == s.awaiters[a := w.(continuation := Some(c), registered := true, linked := w.token)]
      && r.sources == if w.token.None? then s.sources
         else s.sources[w.token.value := s.sources[w.token.value].(list := [a] + s.sources[w.token.value].list)]
  {
    var w := s.awaiters[a];
    assert StopOk(a, w, s.sources) && w.linked.None?;
    hide Inv;
    var w1 := w.(continuation := Some(c), registered := true);
    var s1 := s.(awaiters := s.awaiters[a := w1], parked := s.parked[c := a], interest := s.interest[w.handle := a], pendingIo := s.pendingIo + 1);
    assert AwaitSuspend(s, a, c, Added) == Arm(s1, a);
    hide AwaitSuspend;
    if w.token.Some? {
      assert s1.awaiters[a := w1.(linked := w.token)] == s.awaiters[a := w1.(linked := w.token)];
    } else {
      assert w1 == w1.(linked := w.token);
    }
  }

  /** A granted suspension that finds its source stopped meanwhile is undone at once: out of the reactor, queued, on no list. */
  lemma ArmedTooLate(s: State, a: Addr, c: Coro)
    requires Inv(s) && CanAct(s, Await(c, a, Added)) && StopRequested(s, s.awaiters[a].token)
    ensures var r := AwaitSuspend(s, a, c, Added);
      && r.parked == s.parked[c := a] && r.ready == s.ready + [c] && r.interest == s.interest && r.pendingIo == s.pendingIo
      && r.sources == s.sources && !r.awaiters[a].registered && r.awaiters[a].queued && r.awaiters[a].linked.None?
      && ResumeOutcome(r, a) == Cancelled
  {
    var w := s.awaiters[a];
    assert w.continuation.None? && !w.queued && !w.cancelled && w.linked.None? && w.addError == "";
    hide Inv;
    var w1 := w.(continuation := Some(c), registered := true);
    var s1 := s.(awaiters := s.awaiters[a := w1], parked := s.parked[c := a], interest := s.interest[w.handle := a], pendingIo := s.pendingIo + 1);
    assert AwaitSuspend(s, a, c, Added) == OnCancel(s1, a);
    CancelEffect(s1, a);
    hide OnCancel, AwaitSuspend;
    assert s1.interest - {w.handle} == s.interest;
  }

  /** The cancellation of a registered awaiter, in full. */
  lemma CancelEffect(s: State, a: Addr)
    requires a in s.awaiters && s.awaiters[a].registered && s.awaiters[a].continuation.Some? && !s.awaiters[a].cancelled && !s.awaiters[a].queued
    ensures var w := s.awaiters[a];
      OnCancel(s, a) == s.(awaiters := s.awaiters[a := w.(cancelled := true, registered := false, queued := true)],
        interest := s.interest - {w.handle}, pendingIo := s.pendingIo - 1, ready := s.ready + [w.continuation.value])
  {
  }

  /** A refused suspension: the coroutine is queued at once and nothing is registered or linked. */
  lemma RefusedIsQueued(s: State, a: Addr, c: Coro, message: string)
    requires a in s.awaiters
    ensures var r := AwaitSuspend(s, a, c, Refused(message));
      && r.parked == s.parked[c := a] && r.ready == s.ready + [c] && r.done == s.done
      && r.interest == s.interest && r.pendingIo == s.pendingIo && r.sources == s.sources
      && r.awaiters[a].queued && r.awaiters[a].registered == s.awaiters[a].registered && r.awaiters[a].linked == s.awaiters[a].linked
  {
  }

  /** The reactor's message, cut to the size of the buffer. */
  function Cut(message: string): (r: string)
    ensures |r| == (if |message| < 127 then |message| else 127) && r <= message
  {
    if |message| > 127 then message[..127] else message
  }

  /** A refusal is reported in the reactor's own words, and before any cancellation: also after stops of any sources. */
  lemma RefusalComesFirst(s: State, a: Addr, c: Coro, message: string, src: Source)
    requires Inv(s) && CanAct(s, Await(c, a, Refused(message))) && message != ""
    ensures var r := AwaitSuspend(s, a, c, Refused(message));
      && ResumeOutcome(r, a) == ReactorError(Cut(message))
      && Inv(r) && (src in r.sources ==>
           a in RequestStop(r, src).awaiters && ResumeOutcome(RequestStop(r, src), a) == ReactorError(Cut(message)))
  {
    var r := AwaitSuspend(s, a, c, Refused(message));
    SuspendKeeps(s, a, c, Refused(message));
    hide Inv;
    assert r.awaiters[a].addError == Cut(message);
    if src in r.sources {
      RequestStopEffect(r, src);
      hide RequestStop, AwaitSuspend;
    }
  }

  /** Resuming takes the front off the queue, and if it was parked, off its awaiter. */
  lemma PopEffect(s: State)
    requires Inv(s) && s.ready != []
    ensures var r, c := PopFront(s), s.ready[0];
      && r.ready == s.ready[1..] && r.sources == s.sources && r.done == s.done && r.parked == s.parked - {c}
  {
    var c := s.ready[0];
    FrontLive(s);
    hide Inv;
    if c in s.parked {
      LeaveEffect(s.(ready := s.ready[1..]), s.parked[c]);
      hide Deregister;
    } else {
      assert s.parked - {c} == s.parked;
    }
  }

  /** No awaiter but the resumed coroutine's own changes. */
  lemma PopSpares(s: State, a: Addr)
    requires Inv(s) && s.ready != [] && a in s.awaiters && !ParkedOn(s.parked, s.ready[0], a)
    ensures a in PopFront(s).awaiters && PopFront(s).awaiters[a] == s.awaiters[a]
  {
    var c := s.ready[0];
    FrontLive(s);
    hide Inv;
    if c in s.parked {
      LeaveEffect(s.(ready := s.ready[1..]), s.parked[c]);
      hide Deregister;
    }
  }

  lemma LeaveEffect(s: State, a: Addr)
    requires a in s.awaiters
    ensures var r := Deregister(s, a);
      && r.ready == s.ready && r.sources == s.sources && r.done == s.done && r.parked == s.parked
      && r.awaiters == s.awaiters[a := s.awaiters[a].(registered := false)]
  {
    if !s.awaiters[a].registered { assert s.awaiters[a := s.awaiters[a].(registered := false)] == s.awaiters; }
  }

  /** The awaiter of the resumed coroutine leaves the reactor, and no other does. */
  lemma PopLeavesReactor(s: State, a: Addr)
    requires Inv(s) && s.ready != [] && a in s.awaiters
    ensures Watched(PopFront(s).interest, a) <==> Watched(s.interest, a) && !ParkedOn(s.parked, s.ready[0], a)
  {
    var r, c := PopFront(s), s.ready[0];
    PopKeeps(s);
    FrontLive(s);
    WatchedIffRegistered(s, a);
    if ParkedOn(s.parked, c, a) {
      LeaveEffect(s.(ready := s.ready[1..]), a);
    } else {
      PopSpares(s, a);
    }
    hide Inv, Watched;
    WatchedIffRegistered(r, a);
  }

  lemma WatchedIffRegistered(s: State, a: Addr)
    requires Inv(s) && a in s.awaiters
    ensures Watched(s.interest, a) <==> s.awaiters[a].registered
  {
    if s.awaiters[a].registered { assert s.interest[s.awaiters[a].handle] == a; }
  }

  // ---- The order of a stop -----------------------------------------------------------------------

  /** `c` is parked on a node of the list before the one `d` is parked on. */
  ghost predicate LinkedBefore(s: State, list: seq<Addr>, c: Coro, d: Coro) {
    c in s.parked && d in s.parked && exists i, j :: 0 <= i < j < |list| && list[i] == s.parked[c] && list[j] == s.parked[d]
  }

  ghost predicate Linked(s: State, list: seq<Addr>, c: Coro) {
    c in s.parked && s.parked[c] in list
  }

  lemma FireHeadQueues(s: State, src: Source)
    requires Core(s) && src in s.sources && s.sources[src].list != [] && s.sources[src].list[0] in s.awaiters
    ensures var r, a := FireHead(s, src), s.sources[src].list[0];
      r.ready == s.ready || exists c :: ParkedOn(s.parked, c, a) && r.ready == s.ready + [c]
  {
    HeadOk(s, src);
    hide Core;
    var a, r := s.sources[src].list[0], FireHead(s, src);
    var c := s.awaiters[a].continuation.value;
    if r.ready != s.ready { assert ParkedOn(s.parked, c, a) && r.ready == s.ready + [c]; }
  }

  ghost predicate QueuesInListOrder(s: State, list: seq<Addr>, ready: seq<Coro>) {
    && s.ready <= ready
    && (forall x :: |s.ready| <= x < |ready| ==> Linked(s, list, ready[x]))
    && (forall x, y :: |s.ready| <= x < y < |ready| ==> LinkedBefore(s, list, ready[x], ready[y]))
  }

  /** The head's coroutine, if it is queued, goes before those of the rest of the list. */
  lemma HeadFirst(s: State, m: State, list: seq<Addr>, ready: seq<Coro>)
    requires list != [] && m.parked == s.parked && QueuesInListOrder(m, list[1..], ready)
    requires m.ready == s.ready || exists c :: ParkedOn(s.parked, c, list[0]) && m.ready == s.ready + [c]
    ensures QueuesInListOrder(s, list, ready)
  {
    var n := |m.ready|;
    forall x | n <= x < |ready| ensures Linked(s, list, ready[x]) {
      assert Linked(m, list[1..], ready[x]);
    }
    forall x, y | |s.ready| <= x < y < |ready| ensures LinkedBefore(s, list, ready[x], ready[y]) {
      assert Linked(m, list[1..], ready[y]);
      if x < n {
        var j :| 0 <= j < |list[1..]| && list[1..][j] == s.parked[ready[y]];
        assert list[0] == s.parked[ready[x]] && list[j + 1] == s.parked[ready[y]];
      } else {
        assert LinkedBefore(m, list[1..], ready[x], ready[y]);
        var i, j :| 0 <= i < j < |list[1..]| && list[1..][i] == m.parked[ready[x]] && list[1..][j] == m.parked[ready[y]];
        assert list[i + 1] == s.parked[ready[x]] && list[j + 1] == s.parked[ready[y]];
      }
    }
  }

  lemma {:induction false} FireAllInOrder(s: State, src: Source)
    requires Core(s) && Armed(s.awaiters) && src in s.sources && s.sources[src].stopped
    requires forall a :: a in s.sources[src].list ==> a in s.awaiters
    ensures QueuesInListOrder(s, s.sources[src].list, FireAll(s, src).ready)
    decreases |s.sources[src].list|
  {
    var list := s.sources[src].list;
    if list != [] {
      var m := FireHead(s, src);
      FireHeadKeeps(s, src);
      FireHeadQueues(s, src);
      hide Core, Armed, QueuesInListOrder;
      FireAllInOrder(m, src);
      HeadFirst(s, m, list, FireAll(m, src).ready);
    }
  }

  /** A stop wakes the coroutines of its source in the order of the list, that is, the latest armed first. */
  lemma StopWakesInListOrder(s: State, src: Source)
    requires Inv(s) && src in s.sources
    ensures QueuesInListOrder(s, s.sources[src].list, RequestStop(s, src).ready)
  {
    if !s.sources[src].stopped {
      var s1 := s.(sources := s.sources[src := s.sources[src].(stopped := true)]);
      StopFlagKeeps(s, src);
      hide Core, Armed, Quiet;
      FireAllInOrder(s1, src);
      SameOrder(s, s1, s.sources[src].list, FireAll(s1, src).ready);
    }
  }

  lemma SameOrder(s: State, s1: State, list: seq<Addr>, ready: seq<Coro>)
    requires QueuesInListOrder(s1, list, ready) && s1.parked == s.parked && s1.ready == s.ready
    ensures QueuesInListOrder(s, list, ready)
  {
    forall x, y | |s.ready| <= x < y < |ready| ensures LinkedBefore(s, list, ready[x], ready[y]) {
      assert LinkedBefore(s1, list, ready[x], ready[y]);
    }
    forall x | |s.ready| <= x < |ready| ensures Linked(s, list, ready[x]) {
      assert Linked(s1, list, ready[x]);
    }
  }

  // ---- The other actions of user code --------------------------------------------------------------

  /** A new source is not stopped and has no callbacks; a new awaiter is as constructed. */
  lemma ConstructEffect(s: State, act: Act)
    requires Inv(s) && CanAct(s, act) && (act.NewSource? || act.Construct?)
    ensures var r := DoAct(s, act);
      && r.interest == s.interest && r.pendingIo == s.pendingIo && r.parked == s.parked && r.ready == s.ready && r.done == s.done
      && (act.NewSource? ==> r.sources == s.sources[act.src := StopState(false, [])] && !StopRequested(r, Some(act.src)))
      && (act.Construct? ==> act.addr in r.awaiters && r.awaiters[act.addr].handle == act.handle && r.awaiters[act.addr].token == act.token)
  {
    hide Inv;
  }

  /** Scheduling queues behind what is there; finishing is remembered; neither does anything else. */
  lemma ScheduleEffect(s: State, act: Act)
    requires Inv(s) && CanAct(s, act) && (act.Schedule? || act.Finish?)
    ensures DoAct(s, act) == if act.Schedule? then s.(ready := s.ready + [act.coro]) else s.(done := s.done + {act.coro})
  {
    hide Inv;
  }

  lemma UnlinkEffect(s: State, a: Addr)
    requires a in s.awaiters
    ensures var r := Unlink(s, a);
      && r.awaiters - {a} == s.awaiters - {a} && r.ready == s.ready && r.parked == s.parked && r.interest == s.interest
      && r.done == s.done && r.pendingIo == s.pendingIo
  {
  }

  lemma UnlinkList(s: State, a: Addr, src: Source, b: Addr)
    requires Inv(s) && a in s.awaiters && src in s.sources
    ensures src in Unlink(s, a).sources
    ensures b in Unlink(s, a).sources[src].list <==> b in s.sources[src].list && b != a
  {
    var w := s.awaiters[a];
    assert StopOk(a, w, s.sources) && ListOk(s.awaiters, src, s.sources[src].list);
    hide Inv;
  }

  /** Destroying an awaiter takes it off its list and out of memory, and touches no other awaiter and no other list. */
  lemma DestroyEffect(s: State, a: Addr, src: Source, b: Addr)
    requires Inv(s) && CanAct(s, Destroy(a)) && src in s.sources
    ensures var r := DoAct(s, Destroy(a));
      && r.awaiters == s.awaiters - {a} && r.ready == s.ready && r.parked == s.parked && r.interest == s.interest && r.done == s.done
      && src in r.sources && (b in r.sources[src].list <==> b in s.sources[src].list && b != a)
  {
    UnlinkEffect(s, a);
    UnlinkList(s, a, src, b);
    hide Inv, Unlink;
  }
}
