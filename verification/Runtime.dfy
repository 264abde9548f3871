/**
  The single-threaded async runtime: `IoAwaiter`, `Executor` and the stop list they share.

  An awaiter's address is its reactor token, so awaiters live in a map from address to record
  and dereferencing a token is a lookup that must be shown to succeed. The reactor is the map
  of its interest set. `parked` records which coroutine is suspended on which awaiter.
*/
module Runtime {
  import opened Options
  import opened Lists

  type Addr = nat
  type Handle = int
  type Coro = nat
  type Source = nat
  type Events = nat

  const MAX_ERROR_LENGTH := 127

  datatype Awaiter = Awaiter(
    handle: Handle,
    token: Option<Source>,
    fired: Events,
    continuation: Option<Coro>,
    linked: Option<Source>,
    addError: string,
    cancelled: bool,
    queued: bool,
    registered: bool)

  datatype StopState = StopState(stopped: bool, list: seq<Addr>)

  datatype State = State(
    awaiters: map<Addr, Awaiter>,
    sources: map<Source, StopState>,
    interest: map<Handle, Addr>,
    ready: seq<Coro>,
    pendingIo: int,
    parked: map<Coro, Addr>,
    done: set<Coro>)

  const INITIAL := State(map[], map[], map[], [], 0, map[], {})

  /** What `Reactor::add` answered. */
  datatype AddResult = Added | Refused(message: string)

  datatype Outcome = Success | ReactorError(message: string) | Cancelled

  datatype Trigger = Trigger(events: Events, token: Addr)

  // ---- Awaiter operations -------------------------------------------------------------

  function NewAwaiter(handle: Handle, token: Option<Source>): Awaiter {
    Awaiter(handle, token, 0, None, None, "", false, false, false)
  }

  predicate StopRequested(s: State, token: Option<Source>) {
    token.Some? && token.value in s.sources && s.sources[token.value].stopped
  }

  function Put(s: State, a: Addr, w: Awaiter): State {
    s.(awaiters := s.awaiters[a := w])
  }

  /** Leave the reactor, if registered. */
  function Deregister(s: State, a: Addr): State
    requires a in s.awaiters
  {
    var w := s.awaiters[a];
    if w.registered then
      Put(s, a, w.(registered := false)).(interest := s.interest - {w.handle}, pendingIo := s.pendingIo - 1)
    else s
  }

  /** Push the continuation unless something already did. */
  function Enqueue(s: State, a: Addr): State
    requires a in s.awaiters
  {
    var w := s.awaiters[a];
    if !w.queued && w.continuation.Some? then
      Put(s, a, w.(queued := true)).(ready := s.ready + [w.continuation.value])
    else s
  }

  function OnCancel(s: State, a: Addr): State
    requires a in s.awaiters
  {
    if s.awaiters[a].cancelled then s
    else Enqueue(Deregister(Put(s, a, s.awaiters[a].(cancelled := true)), a), a)
  }

  function Link(s: State, a: Addr, src: Source): State
    requires a in s.awaiters && src in s.sources
  {
    var st := s.sources[src];
    Put(s, a, s.awaiters[a].(linked := Some(src))).(sources := s.sources[src := st.(list := [a] + st.list)])
  }

  function Unlink(s: State, a: Addr): State
    requires a in s.awaiters
  {
    var w := s.awaiters[a];
    if w.linked.Some? && w.linked.value in s.sources then
      var src := w.linked.value;
      var st := s.sources[src];
      Put(s, a, w.(linked := None)).(sources := s.sources[src := st.(list := Minus(st.list, [a]))])
    else s
  }

  function AwaitSuspend(s: State, a: Addr, c: Coro, add: AddResult): State
    requires a in s.awaiters
  {
    var w := s.awaiters[a].(continuation := Some(c));
    var s0 := s.(parked := s.parked[c := a]);
    match add
    case Refused(msg) =>
      var text := if |msg| > MAX_ERROR_LENGTH then msg[..MAX_ERROR_LENGTH] else msg;
      Put(s0, a, w.(addError := text, queued := true)).(ready := s.ready + [c])
    case Added =>
      var s1 := Put(s0, a, w.(registered := true)).(interest := s.interest[w.handle := a], pendingIo := s.pendingIo + 1);
      Arm(s1, a)
  }

  /** `StopToken::_arm`: fire at once if the stop already happened, else join the list. */
  function Arm(s: State, a: Addr): State
    requires a in s.awaiters
  {
    var token := s.awaiters[a].token;
    if token.None? || token.value !in s.sources then s
    else if s.sources[token.value].stopped then OnCancel(s, a)
    else Link(s, a, token.value)
  }

  /** The result `await_resume` computes on entry. */
  function ResumeOutcome(s: State, a: Addr): Outcome
    requires a in s.awaiters
  {
    var w := s.awaiters[a];
    if w.addError != "" then ReactorError(w.addError)
    else if w.cancelled || StopRequested(s, w.token) then Cancelled
    else Success
  }

  /** `await_resume` of the coroutine parked on `a`: it is parked no longer. */
  function AwaitResume(s: State, c: Coro, a: Addr): State
    requires a in s.awaiters
  {
    var s1 := Deregister(s, a);
    s1.(parked := s1.parked - {c})
  }

  // ---- Stop source ----------------------------------------------------------------------

  /** `request_stop`'s loop: pop the head, then run its callback. */
  function FireAll(s: State, src: Source): (r: State)
    requires src in s.sources
    requires forall a :: a in s.sources[src].list ==> a in s.awaiters
    ensures r.parked == s.parked && r.done == s.done
    decreases |s.sources[src].list|
  {
    if s.sources[src].list == [] then s else FireAll(FireHead(s, src), src)
  }

  function FireHead(s: State, src: Source): (r: State)
    requires src in s.sources && s.sources[src].list != []
    requires s.sources[src].list[0] in s.awaiters
    ensures r.sources == s.sources[src := s.sources[src].(list := s.sources[src].list[1..])]
    ensures r.awaiters.Keys == s.awaiters.Keys
    ensures r.parked == s.parked && r.done == s.done
  {
    OnCancel(HeadUnlinked(s, src), s.sources[src].list[0])
  }

  /** The head of the list unlinked, its callback still to run. */
  function HeadUnlinked(s: State, src: Source): State
    requires src in s.sources && s.sources[src].list != []
    requires s.sources[src].list[0] in s.awaiters
  {
    var st := s.sources[src];
    var a := st.list[0];
    Put(s, a, s.awaiters[a].(linked := None)).(sources := s.sources[src := st.(list := st.list[1..])])
  }

  function RequestStop(s: State, src: Source): State
    requires src in s.sources
    requires forall a :: a in s.sources[src].list ==> a in s.awaiters
  {
    if s.sources[src].stopped then s
    else FireAll(s.(sources := s.sources[src := s.sources[src].(stopped := true)]), src)
  }

  // ---- Executor ------------------------------------------------------------------------

  function Fire(s: State, t: Trigger): State
    requires t.token in s.awaiters
  {
    Enqueue(Put(s, t.token, s.awaiters[t.token].(fired := t.events)), t.token)
  }

  function FireBatch(s: State, ts: seq<Trigger>): (r: State)
    requires forall t :: t in ts ==> t.token in s.awaiters
    ensures r.awaiters.Keys == s.awaiters.Keys
    ensures r.parked == s.parked && r.done == s.done
  {
    if ts == [] then s
    else Fire(FireBatch(s, ts[..|ts| - 1]), ts[|ts| - 1])
  }

  /** Pop the front of the ready queue and resume it up to its return from `co_await`. */
  function PopFront(s: State): State
    requires s.ready != []
    requires s.ready[0] in s.parked ==> s.parked[s.ready[0]] in s.awaiters
  {
    var c := s.ready[0];
    var s1 := s.(ready := s.ready[1..]);
    if c in s.parked then AwaitResume(s1, c, s.parked[c]) else s1
  }

  // ---- The invariant -----------------------------------------------------------------------

  type Awaiters = map<Addr, Awaiter>

  predicate ParkedOn(parked: map<Coro, Addr>, c: Coro, a: Addr) {
    c in parked && parked[c] == a
  }

  /** A suspended coroutine is queued exactly when its awaiter says so; if not queued, it is registered. */
  ghost predicate ParkedOk(aw: Awaiters, parked: map<Coro, Addr>, ready: seq<Coro>) {
    forall c :: c in parked ==>
      && parked[c] in aw
      && aw[parked[c]].continuation == Some(c)
      && (aw[parked[c]].queued <==> c in ready)
      && (aw[parked[c]].queued || aw[parked[c]].registered)
  }

  /** Registered awaiters are parked on; awaiters that were resumed stay queued; fresh ones are clean. */
  ghost predicate UseOk(aw: Awaiters, parked: map<Coro, Addr>) {
    forall a :: a in aw ==>
      match aw[a].continuation
      case Some(c) => if ParkedOn(parked, c, a) then true else aw[a].queued && !aw[a].registered
      case None =>
        !aw[a].registered && !aw[a].queued && !aw[a].cancelled && aw[a].linked.None? && aw[a].addError == ""
  }

  /** The reactor's interest set is the set of registered awaiters, and `m_pending_io` counts it. */
  ghost predicate InterestOk(aw: Awaiters, interest: map<Handle, Addr>, pendingIo: int) {
    && (forall h :: h in interest ==> interest[h] in aw && aw[interest[h]].registered && aw[interest[h]].handle == h)
    && (forall a :: a in aw && aw[a].registered ==> aw[a].handle in interest && interest[aw[a].handle] == a)
    && pendingIo == |interest|
  }

  /** Stop lists hold exactly the linked awaiters, once each; a cancelled awaiter's source was stopped. */
  ghost predicate StopsOk(aw: Awaiters, sources: map<Source, StopState>) {
    && (forall a :: a in aw ==> StopOk(a, aw[a], sources))
    && (forall src :: src in sources ==> ListOk(aw, src, sources[src].list))
  }

  ghost predicate StopOk(a: Addr, w: Awaiter, sources: map<Source, StopState>) {
    && (w.token.Some? ==> w.token.value in sources)
    && (w.linked.Some? ==> w.linked == w.token && a in sources[w.token.value].list)
    && (w.cancelled ==> !w.registered && w.token.Some? && sources[w.token.value].stopped)
  }

  ghost predicate ListOk(aw: Awaiters, src: Source, list: seq<Addr>) {
    Distinct(list) && forall a :: a in list ==> a in aw && aw[a].linked == Some(src)
  }

  ghost predicate QueueOk(ready: seq<Coro>, parked: map<Coro, Addr>, done: set<Coro>) {
    && Distinct(ready)
    && (forall c :: c in done ==> c !in parked && c !in ready)
  }

  /** Holds everywhere, also between a stop node leaving its list and its callback running. */
  ghost predicate Core(s: State) {
    && ParkedOk(s.awaiters, s.parked, s.ready)
    && UseOk(s.awaiters, s.parked)
    && InterestOk(s.awaiters, s.interest, s.pendingIo)
    && StopsOk(s.awaiters, s.sources)
    && QueueOk(s.ready, s.parked, s.done)
  }

  /** Every registered awaiter hears its stop source. */
  ghost predicate Armed(aw: Awaiters) {
    forall a :: a in aw && aw[a].registered ==> aw[a].linked == aw[a].token
  }

  /** Stopped sources hold no callbacks. */
  ghost predicate Quiet(sources: map<Source, StopState>) {
    forall src :: src in sources && sources[src].stopped ==> sources[src].list == []
  }

  ghost predicate Inv(s: State) {
    Core(s) && Armed(s.awaiters) && Quiet(s.sources)
  }

  // ---- What user code may do between two executor steps ----------------------------------

  datatype Act =
    | NewSource(src: Source)
    | Construct(addr: Addr, handle: Handle, token: Option<Source>)
    | Await(coro: Coro, addr: Addr, add: AddResult)
    | Destroy(addr: Addr)
    | Stop(src: Source)
    | Schedule(coro: Coro)
    | Finish(coro: Coro)

  datatype Step = User(act: Act) | Pop | Wait(triggers: seq<Trigger>)

  /** Neither parked, nor waiting in the ready queue, nor finished. */
  predicate Runnable(s: State, c: Coro) {
    c !in s.parked && c !in s.ready && c !in s.done
  }

  predicate CanAct(s: State, act: Act) {
    match act
    case NewSource(src) => src !in s.sources
    case Construct(a, _, token) => a !in s.awaiters && (token.Some? ==> token.value in s.sources)
    case Await(c, a, add) =>
      && Runnable(s, c)
      && a in s.awaiters
      && s.awaiters[a].continuation.None?
      && (add.Added? ==> s.awaiters[a].handle !in s.interest)
    case Destroy(a) => a in s.awaiters && a !in s.parked.Values
    case Stop(src) => src in s.sources
    case Schedule(c) => Runnable(s, c)
    case Finish(c) => Runnable(s, c)
  }

  ghost function DoAct(s: State, act: Act): State
    requires Inv(s) && CanAct(s, act)
  {
    match act
    case NewSource(src) => s.(sources := s.sources[src := StopState(false, [])])
    case Construct(a, handle, token) => Put(s, a, NewAwaiter(handle, token))
    case Await(c, a, add) =>
      if StopRequested(s, s.awaiters[a].token) then s else AwaitSuspend(s, a, c, add)
    case Destroy(a) => var s1 := Unlink(s, a); s1.(awaiters := s1.awaiters - {a})
    case Stop(src) => RequestStop(s, src)
    case Schedule(c) => s.(ready := s.ready + [c])
    case Finish(c) => s.(done := s.done + {c})
  }

  /** The reactor holds a registration under this token. */
  ghost predicate Watched(interest: map<Handle, Addr>, token: Addr) {
    exists h :: h in interest && interest[h] == token
  }

  ghost predicate CanStep(s: State, step: Step) {
    match step
    case User(act) => CanAct(s, act)
    case Pop => s.ready != []
    case Wait(ts) => s.ready == [] && forall t :: t in ts ==> Watched(s.interest, t.token)
  }

  ghost function DoStep(s: State, step: Step): State
    requires Inv(s) && CanStep(s, step)
  {
    match step
    case User(act) => DoAct(s, act)
    case Pop => PopFront(s)
    case Wait(ts) => TokensLive(s, ts); FireBatch(s, ts)
  }

  /** Every token the reactor can report is the address of a live awaiter on which a coroutine is still parked. */
  lemma TokensLive(s: State, ts: seq<Trigger>)
    requires Inv(s)
    requires forall t :: t in ts ==> Watched(s.interest, t.token)
    ensures forall t :: t in ts ==>
      && t.token in s.awaiters
      && var c := s.awaiters[t.token].continuation;
      && c.Some? && ParkedOn(s.parked, c.value, t.token)
  {
    forall t | t in ts
      ensures t.token in s.awaiters
      ensures var c := s.awaiters[t.token].continuation; c.Some? && ParkedOn(s.parked, c.value, t.token)
    {
      assert Watched(s.interest, t.token);
    }
  }

  // ---- Preservation, one field group at a time --------------------------------------------------

  lemma ParkedUpdate(aw: Awaiters, parked: map<Coro, Addr>, ready: seq<Coro>, a: Addr, w: Awaiter)
    requires ParkedOk(aw, parked, ready) && a in aw
    requires w.continuation == aw[a].continuation && w.queued == aw[a].queued
    requires w.registered == aw[a].registered || w.queued
    ensures ParkedOk(aw[a := w], parked, ready)
  {
  }

  lemma UseUpdate(aw: Awaiters, parked: map<Coro, Addr>, a: Addr, w: Awaiter)
    requires UseOk(aw, parked) && a in aw
    requires w.continuation.Some? && w.continuation == aw[a].continuation
    requires (aw[a].queued ==> w.queued) && (w.registered ==> aw[a].registered)
    ensures UseOk(aw[a := w], parked)
  {
  }

  lemma InterestUpdate(aw: Awaiters, interest: map<Handle, Addr>, n: int, a: Addr, w: Awaiter)
    requires InterestOk(aw, interest, n) && a in aw
    requires w.handle == aw[a].handle && w.registered == aw[a].registered
    ensures InterestOk(aw[a := w], interest, n)
  {
  }

  lemma StopsUpdate(aw: Awaiters, sources: map<Source, StopState>, a: Addr, w: Awaiter)
    requires StopsOk(aw, sources) && a in aw
    requires w.linked == aw[a].linked && w.token == aw[a].token
    requires StopOk(a, w, sources)
    ensures StopsOk(aw[a := w], sources)
  {
  }

  // ---- Preservation, one operation at a time -----------------------------------------------------

  lemma DeregisterInterest(aw: Awaiters, interest: map<Handle, Addr>, n: int, a: Addr)
    requires InterestOk(aw, interest, n) && a in aw && aw[a].registered
    ensures InterestOk(aw[a := aw[a].(registered := false)], interest - {aw[a].handle}, n - 1)
  {
    MapRemoveSize(interest, aw[a].handle);
  }

  lemma DeregisterKeeps(s: State, a: Addr)
    requires Core(s) && a in s.awaiters && s.awaiters[a].queued
    ensures Core(Deregister(s, a))
  {
    var w := s.awaiters[a].(registered := false);
    assert s.awaiters[a].continuation.Some? && StopOk(a, w, s.sources);
    hide ParkedOk, UseOk, InterestOk, StopsOk, QueueOk;
    if s.awaiters[a].registered {
      ParkedUpdate(s.awaiters, s.parked, s.ready, a, w);
      UseUpdate(s.awaiters, s.parked, a, w);
      DeregisterInterest(s.awaiters, s.interest, s.pendingIo, a);
      StopsUpdate(s.awaiters, s.sources, a, w);
    }
  }

  /** Pushing a parked coroutine that is not queued yet. */
  lemma EnqueueQueue(s: State, a: Addr, c: Coro)
    requires ParkedOk(s.awaiters, s.parked, s.ready) && QueueOk(s.ready, s.parked, s.done)
    requires a in s.awaiters && ParkedOn(s.parked, c, a) && !s.awaiters[a].queued
    ensures ParkedOk(s.awaiters[a := s.awaiters[a].(queued := true)], s.parked, s.ready + [c])
    ensures QueueOk(s.ready + [c], s.parked, s.done)
  {
  }

  lemma EnqueueKeeps(s: State, a: Addr)
    requires Core(s) && a in s.awaiters
    ensures Core(Enqueue(s, a))
  {
    var w := s.awaiters[a].(queued := true);
    assert StopOk(a, s.awaiters[a], s.sources);
    if !s.awaiters[a].queued && s.awaiters[a].continuation.Some? {
      assert ParkedOn(s.parked, s.awaiters[a].continuation.value, a);
      hide ParkedOk, UseOk, InterestOk, StopsOk, QueueOk;
      EnqueueQueue(s, a, s.awaiters[a].continuation.value);
      UseUpdate(s.awaiters, s.parked, a, w);
      InterestUpdate(s.awaiters, s.interest, s.pendingIo, a, w);
      StopsUpdate(s.awaiters, s.sources, a, w);
    }
  }

  lemma MarkCancelledKeeps(s: State, a: Addr)
    requires Core(s) && a in s.awaiters
    requires StopRequested(s, s.awaiters[a].token)
    requires s.awaiters[a].continuation.Some? && !s.awaiters[a].registered
    ensures Core(Put(s, a, s.awaiters[a].(cancelled := true)))
  {
    var w := s.awaiters[a].(cancelled := true);
    assert StopOk(a, s.awaiters[a], s.sources);
    hide ParkedOk, UseOk, InterestOk, StopsOk, QueueOk;
    ParkedUpdate(s.awaiters, s.parked, s.ready, a, w);
    UseUpdate(s.awaiters, s.parked, a, w);
    InterestUpdate(s.awaiters, s.interest, s.pendingIo, a, w);
    StopsUpdate(s.awaiters, s.sources, a, w);
  }

  /** `on_cancel` amounts to: be queued if not yet queued, leave the reactor, be marked. */
  lemma OnCancelAs(s: State, a: Addr)
    requires a in s.awaiters && s.awaiters[a].continuation.Some? && !s.awaiters[a].cancelled
    ensures var s2 := Deregister(Enqueue(s, a), a);
            OnCancel(s, a) == Put(s2, a, s2.awaiters[a].(cancelled := true))
  {
    var w := s.awaiters[a];
    var r := w.(cancelled := true, registered := false, queued := true);
    assert OnCancel(s, a).awaiters == s.awaiters[a := r];
  }

  lemma OnCancelKeeps(s: State, a: Addr)
    requires a in s.awaiters && StopRequested(s, s.awaiters[a].token)
    requires s.awaiters[a].continuation.Some?
    requires Core(s)
    ensures Core(OnCancel(s, a))
  {
    hide Core;
    if !s.awaiters[a].cancelled {
      EnqueueKeeps(s, a);
      DeregisterKeeps(Enqueue(s, a), a);
      MarkCancelledKeeps(Deregister(Enqueue(s, a), a), a);
      OnCancelAs(s, a);
    }
  }

  /** Changing only `a`'s link and the lists. */
  lemma RelinkKeeps(s: State, a: Addr, link: Option<Source>, sources: map<Source, StopState>)
    requires Core(s) && a in s.awaiters && s.awaiters[a].continuation.Some?
    requires StopsOk(s.awaiters[a := s.awaiters[a].(linked := link)], sources)
    ensures Core(Put(s, a, s.awaiters[a].(linked := link)).(sources := sources))
  {
    var w := s.awaiters[a].(linked := link);
    hide ParkedOk, UseOk, InterestOk, StopsOk, QueueOk;
    ParkedUpdate(s.awaiters, s.parked, s.ready, a, w);
    UseUpdate(s.awaiters, s.parked, a, w);
    InterestUpdate(s.awaiters, s.interest, s.pendingIo, a, w);
  }

  /** Taking `a` out of its list, wherever in the list it is. */
  lemma UnlinkStops(aw: Awaiters, sources: map<Source, StopState>, a: Addr, src: Source, list: seq<Addr>)
    requires StopsOk(aw, sources) && a in aw && src in sources && aw[a].linked == Some(src)
    requires Distinct(list) && a !in list
    requires forall b :: b in list ==> b in sources[src].list
    requires forall b :: b in sources[src].list && b != a ==> b in list
    ensures StopsOk(aw[a := aw[a].(linked := None)], sources[src := sources[src].(list := list)])
  {
    var aw1 := aw[a := aw[a].(linked := None)];
    var sources1 := sources[src := sources[src].(list := list)];
    forall b | b in aw1 ensures StopOk(b, aw1[b], sources1) {
      assert StopOk(b, aw[b], sources);
    }
    forall x | x in sources1 ensures ListOk(aw1, x, sources1[x].list) {
      assert ListOk(aw, x, sources[x].list);
    }
  }

  lemma UnlinkKeeps(s: State, a: Addr)
    requires Core(s) && a in s.awaiters
    ensures Core(Unlink(s, a))
  {
    var link := s.awaiters[a].linked;
    assert StopOk(a, s.awaiters[a], s.sources);
    if link.Some? {
      assert s.awaiters[a].continuation.Some?;
      assert ListOk(s.awaiters, link.value, s.sources[link.value].list);
      var list := Minus(s.sources[link.value].list, [a]);
      MinusDistinct(s.sources[link.value].list, [a]);
      UnlinkStops(s.awaiters, s.sources, a, link.value, list);
      hide ParkedOk, UseOk, InterestOk, StopsOk, QueueOk;
      RelinkKeeps(s, a, None, s.sources[link.value := s.sources[link.value].(list := list)]);
    }
  }

  lemma UnlinkHead(s: State, src: Source)
    requires Core(s) && src in s.sources && s.sources[src].list != []
    requires s.sources[src].list[0] in s.awaiters
    ensures Core(HeadUnlinked(s, src))
  {
    var st := s.sources[src];
    var a := st.list[0];
    assert ListOk(s.awaiters, src, st.list);
    QueueTail(st.list);
    assert s.awaiters[a].continuation.Some?;
    hide ParkedOk, UseOk, InterestOk, StopsOk, QueueOk, Distinct;
    UnlinkStops(s.awaiters, s.sources, a, src, st.list[1..]);
    RelinkKeeps(s, a, None, s.sources[src := st.(list := st.list[1..])]);
  }

  lemma LinkStops(aw: Awaiters, sources: map<Source, StopState>, a: Addr, src: Source)
    requires StopsOk(aw, sources) && a in aw && src in sources
    requires aw[a].token == Some(src) && aw[a].linked.None?
    ensures StopsOk(aw[a := aw[a].(linked := Some(src))], sources[src := sources[src].(list := [a] + sources[src].list)])
  {
    var aw1 := aw[a := aw[a].(linked := Some(src))];
    var sources1 := sources[src := sources[src].(list := [a] + sources[src].list)];
    forall b | b in aw1 ensures StopOk(b, aw1[b], sources1) {
      assert StopOk(b, aw[b], sources);
    }
    forall x | x in sources1 ensures ListOk(aw1, x, sources1[x].list) {
      assert ListOk(aw, x, sources[x].list);
    }
  }

  lemma LinkKeeps(s: State, a: Addr, src: Source)
    requires Core(s) && a in s.awaiters && src in s.sources
    requires s.awaiters[a].token == Some(src) && s.awaiters[a].linked.None? && s.awaiters[a].continuation.Some?
    ensures Core(Link(s, a, src))
  {
    LinkStops(s.awaiters, s.sources, a, src);
    hide ParkedOk, UseOk, InterestOk, StopsOk, QueueOk;
    RelinkKeeps(s, a, Some(src), s.sources[src := s.sources[src].(list := [a] + s.sources[src].list)]);
  }

  /** Registered, but not yet armed. */
  function Registered(s: State, a: Addr, c: Coro): State
    requires a in s.awaiters
  {
    var w := s.awaiters[a];
    Put(s, a, w.(continuation := Some(c), registered := true))
      .(parked := s.parked[c := a], interest := s.interest[w.handle := a], pendingIo := s.pendingIo + 1)
  }

  /** Parking a coroutine on a fresh awaiter. */
  lemma ParkUse(aw: Awaiters, parked: map<Coro, Addr>, a: Addr, c: Coro, w: Awaiter)
    requires UseOk(aw, parked) && a in aw && c !in parked && w.continuation == Some(c)
    ensures UseOk(aw[a := w], parked[c := a])
  {
  }

  lemma RegisterInterest(aw: Awaiters, interest: map<Handle, Addr>, n: int, a: Addr, w: Awaiter)
    requires InterestOk(aw, interest, n) && a in aw && !aw[a].registered && w.registered
    requires w.handle == aw[a].handle && w.handle !in interest
    ensures InterestOk(aw[a := w], interest[w.handle := a], n + 1)
  {
    MapInsertSize(interest, w.handle, a);
  }

  lemma RegisterKeeps(s: State, a: Addr, c: Coro)
    requires Core(s) && CanAct(s, Await(c, a, Added))
    ensures Core(Registered(s, a, c))
  {
    var w := s.awaiters[a].(continuation := Some(c), registered := true);
    assert StopOk(a, s.awaiters[a], s.sources);
    ParkRegistered(s, a, c, w);
    hide ParkedOk, InterestOk, StopsOk, QueueOk;
    RegisterInterest(s.awaiters, s.interest, s.pendingIo, a, w);
    StopsUpdate(s.awaiters, s.sources, a, w);
    ParkUse(s.awaiters, s.parked, a, c, w);
  }

  lemma ParkRegistered(s: State, a: Addr, c: Coro, w: Awaiter)
    requires Core(s) && CanAct(s, Await(c, a, Added))
    requires w == s.awaiters[a].(continuation := Some(c), registered := true)
    ensures ParkedOk(s.awaiters[a := w], s.parked[c := a], s.ready)
    ensures QueueOk(s.ready, s.parked[c := a], s.done)
  {
    hide InterestOk, StopsOk;
  }

  lemma ParkRefused(s: State, a: Addr, c: Coro, w: Awaiter)
    requires Core(s) && Runnable(s, c) && a in s.awaiters && s.awaiters[a].continuation.None?
    requires w.continuation == Some(c) && w.queued
    ensures ParkedOk(s.awaiters[a := w], s.parked[c := a], s.ready + [c])
    ensures QueueOk(s.ready + [c], s.parked[c := a], s.done)
  {
    hide InterestOk, StopsOk;
  }

  lemma RefusedKeeps(s: State, a: Addr, c: Coro, msg: string)
    requires Inv(s) && CanAct(s, Await(c, a, Refused(msg)))
    ensures Inv(AwaitSuspend(s, a, c, Refused(msg)))
  {
    var w := AwaitSuspend(s, a, c, Refused(msg)).awaiters[a];
    assert StopOk(a, s.awaiters[a], s.sources);
    ParkRefused(s, a, c, w);
    hide ParkedOk, InterestOk, StopsOk, QueueOk;
    InterestUpdate(s.awaiters, s.interest, s.pendingIo, a, w);
    StopsUpdate(s.awaiters, s.sources, a, w);
    ParkUse(s.awaiters, s.parked, a, c, w);
  }

  lemma FreshAwaiter(s: State, a: Addr)
    requires Core(s) && a in s.awaiters && s.awaiters[a].continuation.None?
    ensures s.awaiters[a].linked.None? && !s.awaiters[a].cancelled
    ensures s.awaiters[a].token.Some? ==> s.awaiters[a].token.value in s.sources
  {
    assert StopOk(a, s.awaiters[a], s.sources);
  }

  lemma ArmKeeps(s: State, a: Addr, c: Coro)
    requires Inv(s) && a in s.awaiters && s.awaiters[a].continuation.None?
    requires Core(Registered(s, a, c))
    ensures Inv(AwaitSuspend(s, a, c, Added))
  {
    hide Core;
    var s1 := Registered(s, a, c);
    var token := s.awaiters[a].token;
    FreshAwaiter(s, a);
    if token.Some? {
      if s.sources[token.value].stopped {
        OnCancelKeeps(s1, a);
      } else {
        LinkKeeps(s1, a, token.value);
      }
    }
  }

  lemma SuspendKeeps(s: State, a: Addr, c: Coro, add: AddResult)
    requires Inv(s) && CanAct(s, Await(c, a, add))
    ensures Inv(AwaitSuspend(s, a, c, add))
  {
    if add.Refused? {
      RefusedKeeps(s, a, c, add.message);
    } else {
      RegisterKeeps(s, a, c);
      ArmKeeps(s, a, c);
    }
    hide Core, Armed, Quiet;
  }

  lemma HeadOk(s: State, src: Source)
    requires Core(s) && src in s.sources && s.sources[src].list != []
    ensures var a := s.sources[src].list[0];
      && a in s.awaiters && s.awaiters[a].linked == Some(src) && s.awaiters[a].token == Some(src)
      && s.awaiters[a].continuation.Some?
      && (s.awaiters[a].cancelled ==> !s.awaiters[a].registered)
      && (!s.awaiters[a].queued ==> ParkedOn(s.parked, s.awaiters[a].continuation.value, a))
  {
    var a := s.sources[src].list[0];
    assert ListOk(s.awaiters, src, s.sources[src].list);
    assert StopOk(a, s.awaiters[a], s.sources);
  }

  lemma FireHeadKeeps(s: State, src: Source)
    requires Core(s) && Armed(s.awaiters)
    requires src in s.sources && s.sources[src].stopped && s.sources[src].list != []
    ensures s.sources[src].list[0] in s.awaiters
    ensures Core(FireHead(s, src)) && Armed(FireHead(s, src).awaiters)
  {
    hide Core;
    var a := s.sources[src].list[0];
    HeadOk(s, src);
    UnlinkHead(s, src);
    OnCancelKeeps(HeadUnlinked(s, src), a);
  }

  lemma {:induction false} FireAllKeeps(s: State, src: Source)
    requires Core(s) && Armed(s.awaiters)
    requires src in s.sources && s.sources[src].stopped
    requires forall a :: a in s.sources[src].list ==> a in s.awaiters
    ensures var r := FireAll(s, src);
      && Core(r) && Armed(r.awaiters)
      && r.sources == s.sources[src := StopState(true, [])]
    decreases |s.sources[src].list|
  {
    hide Core, Armed;
    if s.sources[src].list != [] {
      FireHeadKeeps(s, src);
      FireAllKeeps(FireHead(s, src), src);
    }
  }

  lemma StopFlagKeeps(s: State, src: Source)
    requires Core(s) && src in s.sources
    ensures Core(s.(sources := s.sources[src := s.sources[src].(stopped := true)]))
    ensures forall a :: a in s.sources[src].list ==> a in s.awaiters
  {
    var sources := s.sources[src := s.sources[src].(stopped := true)];
    assert ListOk(s.awaiters, src, s.sources[src].list);
    forall a | a in s.awaiters ensures StopOk(a, s.awaiters[a], sources) {
      assert StopOk(a, s.awaiters[a], s.sources);
    }
    forall x | x in sources ensures ListOk(s.awaiters, x, sources[x].list) {
      assert ListOk(s.awaiters, x, s.sources[x].list);
    }
    hide ParkedOk, UseOk, InterestOk, QueueOk;
  }

  lemma RequestStopKeeps(s: State, src: Source)
    requires Inv(s) && src in s.sources
    ensures Inv(RequestStop(s, src))
  {
    if !s.sources[src].stopped {
      StopFlagKeeps(s, src);
      hide Core, Armed;
      FireAllKeeps(s.(sources := s.sources[src := s.sources[src].(stopped := true)]), src);
    }
  }

  lemma DropUse(aw: Awaiters, parked: map<Coro, Addr>, ready: seq<Coro>, a: Addr)
    requires ParkedOk(aw, parked, ready) && UseOk(aw, parked) && a in aw && a !in parked.Values
    ensures ParkedOk(aw - {a}, parked, ready) && UseOk(aw - {a}, parked)
    ensures !aw[a].registered
  {
  }

  lemma DropInterest(aw: Awaiters, interest: map<Handle, Addr>, n: int, a: Addr)
    requires InterestOk(aw, interest, n) && a in aw && !aw[a].registered
    ensures InterestOk(aw - {a}, interest, n)
  {
  }

  lemma DropStops(aw: Awaiters, sources: map<Source, StopState>, a: Addr)
    requires StopsOk(aw, sources) && a in aw && aw[a].linked.None?
    ensures StopsOk(aw - {a}, sources)
  {
    forall src | src in sources ensures ListOk(aw - {a}, src, sources[src].list) {
      assert ListOk(aw, src, sources[src].list);
    }
  }

  lemma DestroyKeeps(s: State, a: Addr)
    requires Inv(s) && CanAct(s, Destroy(a))
    ensures Inv(DoAct(s, Destroy(a)))
  {
    var s1 := Unlink(s, a);
    UnlinkKeeps(s, a);
    assert StopOk(a, s.awaiters[a], s.sources);
    hide ParkedOk, UseOk, InterestOk, StopsOk, QueueOk;
    DropUse(s1.awaiters, s1.parked, s1.ready, a);
    DropInterest(s1.awaiters, s1.interest, s1.pendingIo, a);
    DropStops(s1.awaiters, s1.sources, a);
  }

  lemma NewSourceKeeps(s: State, src: Source)
    requires Inv(s) && src !in s.sources
    ensures Inv(s.(sources := s.sources[src := StopState(false, [])]))
  {
    var sources := s.sources[src := StopState(false, [])];
    assert StopsOk(s.awaiters, sources) by {
      forall a | a in s.awaiters ensures StopOk(a, s.awaiters[a], sources) {
        assert StopOk(a, s.awaiters[a], s.sources);
      }
      forall x | x in sources ensures ListOk(s.awaiters, x, sources[x].list) {
        assert x != src ==> ListOk(s.awaiters, x, s.sources[x].list);
      }
    }
    hide ParkedOk, UseOk, InterestOk, StopsOk, QueueOk;
  }

  lemma ConstructKeeps(s: State, a: Addr, w: Awaiter)
    requires Inv(s) && a !in s.awaiters && w == NewAwaiter(w.handle, w.token)
    requires w.token.Some? ==> w.token.value in s.sources
    ensures Inv(Put(s, a, w))
  {
    ConstructUse(s.awaiters, s.parked, s.ready, a, w);
    ConstructStops(s.awaiters, s.sources, a, w);
    ConstructInterest(s.awaiters, s.interest, s.pendingIo, a, w);
    hide ParkedOk, UseOk, InterestOk, StopsOk, QueueOk;
  }

  lemma ConstructUse(aw: Awaiters, parked: map<Coro, Addr>, ready: seq<Coro>, a: Addr, w: Awaiter)
    requires ParkedOk(aw, parked, ready) && UseOk(aw, parked) && a !in aw && w == NewAwaiter(w.handle, w.token)
    ensures ParkedOk(aw[a := w], parked, ready) && UseOk(aw[a := w], parked)
  {
  }

  lemma ConstructInterest(aw: Awaiters, interest: map<Handle, Addr>, n: int, a: Addr, w: Awaiter)
    requires InterestOk(aw, interest, n) && a !in aw && !w.registered
    ensures InterestOk(aw[a := w], interest, n)
  {
  }

  lemma ConstructStops(aw: Awaiters, sources: map<Source, StopState>, a: Addr, w: Awaiter)
    requires StopsOk(aw, sources) && a !in aw && w == NewAwaiter(w.handle, w.token)
    requires w.token.Some? ==> w.token.value in sources
    ensures StopsOk(aw[a := w], sources)
  {
    forall src | src in sources ensures ListOk(aw[a := w], src, sources[src].list) {
      assert ListOk(aw, src, sources[src].list);
    }
  }

  lemma ScheduleKeeps(s: State, c: Coro)
    requires Inv(s) && Runnable(s, c)
    ensures Inv(s.(ready := s.ready + [c]))
  {
    assert QueueOk(s.ready + [c], s.parked, s.done);
    hide UseOk, InterestOk, StopsOk, QueueOk;
  }

  lemma FinishKeeps(s: State, c: Coro)
    requires Inv(s) && Runnable(s, c)
    ensures Inv(s.(done := s.done + {c}))
  {
    hide ParkedOk, UseOk, InterestOk, StopsOk;
  }

  lemma ActKeeps(s: State, act: Act)
    requires Inv(s) && CanAct(s, act)
    ensures Inv(DoAct(s, act))
  {
    hide Inv;
    match act
    case Await(c, a, add) =>
      if !StopRequested(s, s.awaiters[a].token) { SuspendKeeps(s, a, c, add); }
    case Destroy(a) => DestroyKeeps(s, a);
    case Stop(src) => RequestStopKeeps(s, src);
    case NewSource(src) => NewSourceKeeps(s, src);
    case Construct(a, handle, token) => ConstructKeeps(s, a, NewAwaiter(handle, token));
    case Schedule(c) => ScheduleKeeps(s, c);
    case Finish(c) => FinishKeeps(s, c);
  }

  lemma QueueTail(q: seq<nat>)
    requires q != [] && Distinct(q)
    ensures Distinct(q[1..]) && q[0] !in q[1..]
    ensures forall c :: c in q && c != q[0] ==> c in q[1..]
  {
    assert q == [q[0]] + q[1..];
  }

  /** Taking the front coroutine out of the queue and out of `parked`. */
  lemma LeaveKeeps(s: State, c: Coro)
    requires Core(s) && s.ready != [] && c == s.ready[0]
    requires c in s.parked ==> !s.awaiters[s.parked[c]].registered
    ensures Core(s.(ready := s.ready[1..], parked := s.parked - {c}))
  {
    LeaveQueue(s, c);
    LeaveUse(s, c);
    hide ParkedOk, UseOk, InterestOk, StopsOk, QueueOk;
  }

  lemma LeaveQueue(s: State, c: Coro)
    requires ParkedOk(s.awaiters, s.parked, s.ready) && QueueOk(s.ready, s.parked, s.done)
    requires s.ready != [] && c == s.ready[0]
    ensures ParkedOk(s.awaiters, s.parked - {c}, s.ready[1..])
    ensures QueueOk(s.ready[1..], s.parked - {c}, s.done)
  {
    QueueTail(s.ready);
    hide Distinct;
  }

  lemma LeaveUse(s: State, c: Coro)
    requires ParkedOk(s.awaiters, s.parked, s.ready) && UseOk(s.awaiters, s.parked)
    requires c in s.parked ==> c in s.ready && !s.awaiters[s.parked[c]].registered
    ensures UseOk(s.awaiters, s.parked - {c})
  {
  }

  lemma PopKeeps(s: State)
    requires Inv(s) && s.ready != []
    ensures Inv(PopFront(s))
  {
    var c := s.ready[0];
    if c in s.parked {
      PopParked(s, c, s.parked[c]);
    } else {
      hide Core;
      LeaveKeeps(s, c);
      assert s.parked - {c} == s.parked;
    }
  }

  lemma PopParked(s: State, c: Coro, a: Addr)
    requires Inv(s) && s.ready != [] && c == s.ready[0] && c in s.parked && a == s.parked[c]
    ensures Inv(PopFront(s))
  {
    assert s.awaiters[a].queued;
    hide Core;
    DeregisterKeeps(s, a);
    LeaveKeeps(Deregister(s, a), c);
    assert PopFront(s) == Deregister(s, a).(ready := s.ready[1..], parked := s.parked - {c});
  }

  lemma FireKeeps(s: State, t: Trigger)
    requires Inv(s) && t.token in s.awaiters && s.awaiters[t.token].continuation.Some?
    ensures Inv(Fire(s, t))
  {
    var a := t.token;
    var w := s.awaiters[a].(fired := t.events);
    assert StopOk(a, s.awaiters[a], s.sources);
    hide ParkedOk, UseOk, InterestOk, StopsOk, QueueOk;
    ParkedUpdate(s.awaiters, s.parked, s.ready, a, w);
    UseUpdate(s.awaiters, s.parked, a, w);
    InterestUpdate(s.awaiters, s.interest, s.pendingIo, a, w);
    StopsUpdate(s.awaiters, s.sources, a, w);
    EnqueueKeeps(Put(s, a, w), a);
  }

  lemma {:induction false} FireBatchKeeps(s: State, ts: seq<Trigger>)
    requires Inv(s)
    requires forall t :: t in ts ==> t.token in s.awaiters && s.awaiters[t.token].continuation.Some?
    ensures Inv(FireBatch(s, ts))
    ensures forall a :: a in s.awaiters ==> FireBatch(s, ts).awaiters[a].continuation == s.awaiters[a].continuation
  {
    hide Inv;
    if ts != [] {
      FireBatchKeeps(s, ts[..|ts| - 1]);
      FireKeeps(FireBatch(s, ts[..|ts| - 1]), ts[|ts| - 1]);
    }
  }

  lemma StepKeeps(s: State, step: Step)
    requires Inv(s) && CanStep(s, step)
    ensures Inv(DoStep(s, step))
  {
    hide Inv;
    match step
    case User(act) => ActKeeps(s, act);
    case Pop => PopKeeps(s);
    case Wait(ts) => TokensLive(s, ts); FireBatchKeeps(s, ts);
  }

  // ---- Whole runs ------------------------------------------------------------------------------

  /** The state after a run, or `None` if some step was not possible. Every state of a run satisfies the invariant. */
  ghost function Exec(s: State, steps: seq<Step>): (r: Option<State>)
    requires Inv(s)
    ensures r.Some? ==> Inv(r.value)
  {
    if steps == [] then Some(s)
    else
      var step := steps[|steps| - 1];
      match Exec(s, steps[..|steps| - 1])
      case None => None
      case Some(m) => if CanStep(m, step) then StepKeeps(m, step); Some(DoStep(m, step)) else None
  }

  lemma InitialOk()
    ensures Inv(INITIAL)
  {
  }

  lemma ExecNone(s: State)
    requires Inv(s)
    ensures Exec(s, []) == Some(s)
  {
  }

  lemma ExecStep(s: State, steps: seq<Step>, step: Step)
    requires Inv(s) && Exec(s, steps).Some? && CanStep(Exec(s, steps).value, step)
    ensures Exec(s, steps + [step]) == Some(DoStep(Exec(s, steps).value, step))
  {
    hide Inv, CanStep, DoStep;
    assert (steps + [step])[..|steps|] == steps;
  }

  lemma {:induction false} ExecConcat(s: State, first: seq<Step>, second: seq<Step>)
    requires Inv(s) && Exec(s, first).Some?
    ensures Exec(s, first + second) == Exec(Exec(s, first).value, second)
  {
    hide Inv, CanStep, DoStep;
    if second == [] {
      assert first + second == first;
    } else {
      var init := second[..|second| - 1];
      ExecConcat(s, first, init);
      assert (first + second)[..|first + second| - 1] == first + init;
    }
  }

  lemma StopListLive(s: State, src: Source)
    requires Inv(s) && src in s.sources
    ensures forall a :: a in s.sources[src].list ==> a in s.awaiters
  {
    assert ListOk(s.awaiters, src, s.sources[src].list);
  }

  lemma FrontLive(s: State)
    requires Inv(s) && s.ready != []
    ensures s.ready[0] in s.parked ==> s.parked[s.ready[0]] in s.awaiters
  {
  }
}
