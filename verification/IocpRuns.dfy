/** What every run of the IOCP reactor satisfies: one outstanding poll per pending context, no lost completion, safe teardown. */
module IocpRuns {
  import opened Iocp

  datatype Step =
    | Kernel(move: Move)
    | AddCall(handle: Handle, interest: Events, token: Token, answers: Answers)
    | RemoveCall(handle: Handle)
    | ModifyCall(handle: Handle, interest: Events, token: Token, answers: Answers)
    | WaitCall(round: Round)

  /** Calls of `add` whose drain does not time out. */
  predicate CanStep(s: State, step: Step) {
    match step
    case AddCall(h, _, _, ans) => Drained(s, h, ans)
    case ModifyCall(h, _, _, ans) => h in s.contexts ==> Drained(Remove(s, h), h, ans)
    case _ => true
  }

  function Modify(s: State, h: Handle, interest: Events, token: Token, ans: Answers): State {
    if h !in s.contexts then s else Add(Remove(s, h), h, interest, token, ans)
  }

  function DoStep(s: State, step: Step): State {
    match step
    case Kernel(mv) => DoMove(s, mv)
    case AddCall(h, interest, token, ans) => Add(s, h, interest, token, ans)
    case RemoveCall(h) => Remove(s, h)
    case ModifyCall(h, interest, token, ans) => Modify(s, h, interest, token, ans)
    case WaitCall(round) => Wait(s, round).0
  }

  lemma StepKeeps(s: State, step: Step)
    requires Inv(s) && CanStep(s, step)
    ensures Inv(DoStep(s, step))
  {
    hide Inv;
    match step
    case Kernel(mv) => KernelKeeps(s, mv);
    case AddCall(h, interest, token, ans) => AddKeeps(s, h, interest, token, ans);
    case RemoveCall(h) => RemoveKeeps(s, h);
    case ModifyCall(h, interest, token, ans) =>
      RemoveKeeps(s, h);
      if h in s.contexts { AddKeeps(Remove(s, h), h, interest, token, ans); }
    case WaitCall(round) => WaitReports(s, round);
  }

  lemma KernelKeeps(s: State, mv: Move)
    requires Inv(s)
    ensures Inv(DoMove(s, mv))
  {
    hide InvHolding;
    MoveKeeps(s, [], mv);
  }

  ghost predicate IsRun(s: State, steps: seq<Step>)
    decreases |steps|
  {
    steps == [] || (CanStep(s, steps[0]) && IsRun(DoStep(s, steps[0]), steps[1..]))
  }

  function Exec(s: State, steps: seq<Step>): State
    decreases |steps|
  {
    if steps == [] then s else Exec(DoStep(s, steps[0]), steps[1..])
  }

  lemma InitialOk()
    ensures Inv(INITIAL)
  {
  }

  lemma {:induction false} RunsKeep(s: State, steps: seq<Step>)
    requires Inv(s) && IsRun(s, steps)
    ensures Inv(Exec(s, steps))
    decreases |steps|
  {
    hide Inv, CanStep, DoStep;
    if steps != [] {
      StepKeeps(s, steps[0]);
      RunsKeep(DoStep(s, steps[0]), steps[1..]);
    }
  }

  // ---- One outstanding poll --------------------------------------------------------------------------------

  /** Polls of `c` the kernel still has. */
  function InFlightOf(s: State, c: Ctx): set<Poll> {
    set p | p in s.inflight && p.ctx == c
  }

  /** Completions of `c` in the queue. */
  function QueuedOf(queue: seq<Entry>, c: Ctx): nat {
    if queue == [] then 0
    else (if queue[0].Done? && queue[0].poll.ctx == c then 1 else 0) + QueuedOf(queue[1..], c)
  }

  lemma {:induction false} QueuedNone(queue: seq<Entry>, c: Ctx)
    requires forall e :: e in queue && e.Done? ==> e.poll.ctx != c
    ensures QueuedOf(queue, c) == 0
  {
    if queue != [] { QueuedNone(queue[1..], c); }
  }

  lemma {:induction false} QueuedCount(queue: seq<Entry>, c: Ctx, e: Entry)
    requires e.Done? && e.poll.ctx == c
    requires forall d :: d in queue && d.Done? && d.poll.ctx == c ==> d == e
    ensures QueuedOf(queue, c) == multiset(queue)[e]
  {
    if queue != [] {
      assert queue == [queue[0]] + queue[1..];
      QueuedCount(queue[1..], c, e);
    }
  }

  /** In every run, a context has exactly one poll in flight or queued if `pending` is set, and none otherwise. */
  lemma PendingMeansOneOutstanding(steps: seq<Step>, c: Ctx)
    requires IsRun(INITIAL, steps) && c in Exec(INITIAL, steps).mem
    ensures var s := Exec(INITIAL, steps);
      |InFlightOf(s, c)| + QueuedOf(s.queue, c) == if s.mem[c].pending then 1 else 0
  {
    InitialOk();
    RunsKeep(INITIAL, steps);
    OutstandingCount(Exec(INITIAL, steps), c);
  }

  lemma OutstandingCount(s: State, c: Ctx)
    requires Inv(s) && c in s.mem
    ensures |InFlightOf(s, c)| + QueuedOf(s.queue, c) == if s.mem[c].pending then 1 else 0
  {
    var p := s.mem[c].last;
    var e := Done(p, s.mem[c].iosb);
    assert forall d :: d in s.queue ==> d in multiset([]) + multiset(s.queue);
    assert FreshContext(s.mem, s.cancels, s.nextPoll, c);
    assert InFlightOf(s, c) == if p in s.inflight then {p} else {};
    if e in s.queue {
      assert e in multiset([]) + multiset(s.queue);
      QueuedCount(s.queue, c, e);
    } else {
      QueuedNone(s.queue, c);
    }
  }

  // ---- No completion is lost --------------------------------------------------------------------------------

  /** A completion of another context that is registered. */
  predicate Other(s: State, c: Ctx, e: Entry) {
    e.Done? && e.poll.ctx != c && e.poll.ctx in s.mem && s.mem[e.poll.ctx].active
  }

  lemma {:induction false} BatchConserves(s: State, c: Ctx, batch: seq<Entry>, e: Entry)
    requires Other(s, c, e)
    ensures Other(DrainBatch(s, c, batch), c, e)
    ensures multiset(DrainBatch(s, c, batch).queue)[e] == (multiset(batch) + multiset(s.queue))[e]
    decreases |batch|
  {
    if batch != [] {
      assert batch == [batch[0]] + batch[1..];
      BatchConserves(DrainEntry(s, c, batch[0]), c, batch[1..], e);
    }
  }

  lemma {:induction false} MovesConserve(s: State, c: Ctx, moves: seq<Move>, e: Entry)
    requires Other(s, c, e)
    ensures Other(DoMoves(s, moves), c, e)
    ensures multiset(DoMoves(s, moves).queue)[e] >= multiset(s.queue)[e]
  {
    if moves != [] { MovesConserve(s, c, moves[..|moves| - 1], e); }
  }

  lemma RoundConserves(s: State, c: Ctx, round: Round, e: Entry)
    requires Other(s, c, e)
    ensures Other(DrainRound(s, c, round), c, e)
    ensures multiset(DrainRound(s, c, round).queue)[e] >= multiset(s.queue)[e]
  {
    var s1 := DoMoves(s, round.moves);
    var n := Taken(s1, round.take);
    MovesConserve(s, c, round.moves, e);
    BatchConserves(s1.(queue := s1.queue[n..]), c, s1.queue[..n], e);
    assert s1.queue == s1.queue[..n] + s1.queue[n..];
  }

  /** However long the drain in `add` runs, every queued completion of every other registration is still queued after it. */
  lemma {:induction false} DrainConserves(s: State, c: Ctx, rounds: seq<Round>, e: Entry)
    requires c in s.mem && Other(s, c, e)
    ensures Other(Drain(s, c, rounds), c, e)
    ensures multiset(Drain(s, c, rounds).queue)[e] >= multiset(s.queue)[e]
    decreases |rounds|
  {
    if s.mem[c].pending && rounds != [] {
      RoundConserves(s, c, rounds[0], e);
      hide DrainRound;
      DrainConserves(DrainRound(s, c, rounds[0]), c, rounds[1..], e);
    }
  }

  // ---- Teardown -----------------------------------------------------------------------------------------------

  /** The kernel holds none of the contexts, neither in flight nor through the queue. */
  ghost predicate KernelIsDone(s: State) {
    s.inflight == {} && forall e :: e in s.queue ==> e == Wake
  }

  /** Freeing the contexts is safe exactly when no `pending` flag is left, which is what the destructor waits for. */
  lemma SafeToFreeIffNothingPending(s: State)
    requires Inv(s)
    ensures KernelIsDone(s) <==> forall c :: c in s.mem ==> !s.mem[c].pending
  {
    var es := multiset([]) + multiset(s.queue);
    assert forall e :: e in s.queue <==> e in es;
    if KernelIsDone(s) {
      forall c | c in s.mem ensures !s.mem[c].pending {
        assert Done(s.mem[c].last, s.mem[c].iosb) !in s.queue;
      }
    } else if s.inflight == {} {
      var e :| e in s.queue && e != Wake;
      assert e in es && Owned(s.mem, e.poll);
    } else {
      var p :| p in s.inflight;
      assert Owned(s.mem, p);
    }
  }

  // ---- A refused poll -------------------------------------------------------------------------------------------

  /**
    When the kernel refuses the poll, `add` reports failure, and the handle is left registered exactly when its context
    already existed; it then refuses every later `add`, although no poll is outstanding.
  */
  lemma RefusedPollLeavesHandle(s: State, h: Handle, interest: Events, token: Token, ans: Answers, again: Answers)
    requires Inv(s) && Drained(s, h, ans) && ans.resolved && ans.associated && !ans.submitted
    requires h in s.contexts ==> !s.mem[s.contexts[h]].active
    ensures var r := Add(s, h, interest, token, ans);
      && !AddOk(s, h, ans)
      && h in r.contexts && r.contexts[h] in r.mem && !r.mem[r.contexts[h]].pending
      && (r.mem[r.contexts[h]].active <==> h in s.contexts)
      && (h in s.contexts ==> Add(r, h, interest, token, again) == r && !AddOk(r, h, again))
  {
    if h in s.contexts {
      var c := s.contexts[h];
      assert c in s.mem;
      hide InvHolding;
      DrainKeepsContexts(s, c, ans.rounds);
    }
  }

  lemma {:induction false} DrainKeepsContexts(s: State, c: Ctx, rounds: seq<Round>)
    requires c in s.mem
    ensures Drain(s, c, rounds).contexts == s.contexts
    decreases |rounds|
  {
    if s.mem[c].pending && rounds != [] {
      var s1 := DoMoves(s, rounds[0].moves);
      MovesKeepContexts(s, rounds[0].moves);
      var n := Taken(s1, rounds[0].take);
      BatchKeepsContexts(s1.(queue := s1.queue[n..]), c, s1.queue[..n]);
      DrainKeepsContexts(DrainRound(s, c, rounds[0]), c, rounds[1..]);
    }
  }

  lemma {:induction false} MovesKeepContexts(s: State, moves: seq<Move>)
    ensures DoMoves(s, moves).contexts == s.contexts
  {
    if moves != [] { MovesKeepContexts(s, moves[..|moves| - 1]); }
  }

  lemma {:induction false} BatchKeepsContexts(s: State, c: Ctx, batch: seq<Entry>)
    ensures DrainBatch(s, c, batch).contexts == s.contexts
    decreases |batch|
  {
    if batch != [] { BatchKeepsContexts(DrainEntry(s, c, batch[0]), c, batch[1..]); }
  }

  lemma TwoSteps(a: Step, b: Step)
    ensures Exec(INITIAL, [a, b]) == DoStep(DoStep(INITIAL, a), b)
    ensures IsRun(INITIAL, [a, b]) <==> CanStep(INITIAL, a) && CanStep(DoStep(INITIAL, a), b)
  {
    hide DoStep, CanStep;
    assert [a, b][1..] == [b] && [b][1..] == [];
    assert Exec(DoStep(INITIAL, a), [b]) == Exec(DoStep(DoStep(INITIAL, a), b), []);
    assert IsRun(DoStep(INITIAL, a), [b]) <==> CanStep(DoStep(INITIAL, a), b) && IsRun(DoStep(DoStep(INITIAL, a), b), []);
  }

  /** A run that gets there: a handle whose poll is refused twice is stuck, and the third, proper `add` fails. */
  lemma RefusedTwiceIsStuck()
    ensures var refused, fine := Answers([], true, true, false), Answers([], true, true, true);
      var steps := [AddCall(5, 1, 7, refused), AddCall(5, 1, 8, refused)];
      var s := Exec(INITIAL, steps);
      IsRun(INITIAL, steps) && s.mem[0].active && !s.mem[0].pending && s.inflight == {} && !AddOk(s, 5, fine)
  {
    var refused := Answers([], true, true, false);
    TwoSteps(AddCall(5, 1, 7, refused), AddCall(5, 1, 8, refused));
  }

  /** A run that breaks the protocol: re-`add` right after `remove`, the drain timing out, has two polls in flight on one OVERLAPPED. */
  lemma TimedOutReAddBreaks()
    ensures var fine := Answers([], true, true, true);
      var steps := [AddCall(5, 1, 7, fine), RemoveCall(5)];
      var s := Exec(INITIAL, steps);
      var r := Add(s, 5, 1, 8, fine);
      && IsRun(INITIAL, steps) && Inv(s) && AddOk(s, 5, fine) && !Drained(s, 5, fine)
      && !Inv(r) && |InFlightOf(r, 0)| == 2
  {
    var fine := Answers([], true, true, true);
    var steps := [AddCall(5, 1, 7, fine), RemoveCall(5)];
    TwoSteps(AddCall(5, 1, 7, fine), RemoveCall(5));
    var s := Exec(INITIAL, steps);
    InitialOk();
    RunsKeep(INITIAL, steps);
    ReAddSafeIffDrained(s, 5, 1, 8, fine);
    assert InFlightOf(Add(s, 5, 1, 8, fine), 0) == {Poll(1, 0, 1), Poll(2, 0, 2)};
  }

  // ---- What wait reports, by the trace alone ------------------------------------------------------------------------

  /** A successful registration: the caller's token, and the number of the poll the call submits. */
  datatype Registration = Registration(token: Token, poll: nat)

  type Book = map<Handle, Registration>

  /** The last successful `add` or `modify` of each handle. */
  function BookStep(s: State, step: Step, book: Book): Book {
    match step
    case AddCall(h, _, token, ans) =>
      if AddOk(s, h, ans) then book[h := Registration(token, s.nextPoll)] else book
    case ModifyCall(h, _, token, ans) =>
      if h in s.contexts && AddOk(Remove(s, h), h, ans) then book[h := Registration(token, s.nextPoll)] else book
    case _ => book
  }

  function Booked(s: State, steps: seq<Step>, book: Book): Book
    decreases |steps|
  {
    if steps == [] then book else Booked(DoStep(s, steps[0]), steps[1..], BookStep(s, steps[0], book))
  }

  /** The outstanding poll of an active context is the one its handle's last successful registration submitted. */
  ghost predicate BookOk(mem: Memory, book: Book) {
    forall c :: c in mem && mem[c].active && mem[c].pending ==>
      mem[c].handle in book && book[mem[c].handle] == Registration(mem[c].token, mem[c].last.id)
  }

  /** Completions and dequeues: nothing becomes active or pending, and no context changes hands. */
  ghost predicate Settles(mem: Memory, mem1: Memory) {
    mem1.Keys == mem.Keys && forall c :: c in mem ==>
      && mem1[c].handle == mem[c].handle && mem1[c].token == mem[c].token && mem1[c].last == mem[c].last
      && (mem1[c].active ==> mem[c].active) && (mem1[c].pending ==> mem[c].pending)
  }

  lemma {:induction false} MovesSettle(s: State, moves: seq<Move>)
    ensures Settles(s.mem, DoMoves(s, moves).mem) && DoMoves(s, moves).nextPoll == s.nextPoll
  {
    if moves != [] { MovesSettle(s, moves[..|moves| - 1]); }
  }

  lemma {:induction false} BatchSettles(s: State, c: Ctx, batch: seq<Entry>)
    ensures Settles(s.mem, DrainBatch(s, c, batch).mem) && DrainBatch(s, c, batch).nextPoll == s.nextPoll
    decreases |batch|
  {
    if batch != [] { BatchSettles(DrainEntry(s, c, batch[0]), c, batch[1..]); }
  }

  lemma {:induction false} DrainSettles(s: State, c: Ctx, rounds: seq<Round>)
    requires c in s.mem
    ensures Settles(s.mem, Drain(s, c, rounds).mem) && Drain(s, c, rounds).nextPoll == s.nextPoll
    decreases |rounds|
  {
    if s.mem[c].pending && rounds != [] {
      var s1 := DoMoves(s, rounds[0].moves);
      MovesSettle(s, rounds[0].moves);
      var n := Taken(s1, rounds[0].take);
      BatchSettles(s1.(queue := s1.queue[n..]), c, s1.queue[..n]);
      DrainSettles(DrainRound(s, c, rounds[0]), c, rounds[1..]);
    }
  }

  lemma {:induction false} WaitSettles(mem: Memory, batch: seq<Entry>)
    ensures Settles(mem, WaitBatch(mem, batch).0)
  {
    if batch != [] { WaitSettles(WaitEntry(mem, batch[0]).0, batch[1..]); }
  }

  lemma SettledBook(mem: Memory, mem1: Memory, book: Book)
    requires BookOk(mem, book) && Settles(mem, mem1)
    ensures BookOk(mem1, book)
  {
  }

  lemma ReAddBooks(s: State, c: Ctx, interest: Events, token: Token, ans: Answers, book: Book)
    requires Registry(s.contexts, s.mem, s.nextCtx) && c in s.mem && !s.mem[c].pending && BookOk(s.mem, book)
    ensures BookOk(Submit(Activate(s, c, interest, token), c, ans.submitted).mem,
                   if ans.submitted then book[s.mem[c].handle := Registration(token, s.nextPoll)] else book)
  {
  }

  lemma AddNewBooks(s: State, h: Handle, interest: Events, token: Token, ans: Answers, book: Book)
    requires Registry(s.contexts, s.mem, s.nextCtx) && h !in s.contexts && BookOk(s.mem, book)
    ensures BookOk(AddNew(s, h, interest, token, ans).mem,
                   if ans.resolved && ans.associated && ans.submitted then book[h := Registration(token, s.nextPoll)] else book)
  {
  }

  lemma AddBooks(s: State, h: Handle, interest: Events, token: Token, ans: Answers, book: Book)
    requires Inv(s) && Drained(s, h, ans) && BookOk(s.mem, book)
    ensures BookOk(Add(s, h, interest, token, ans).mem, if AddOk(s, h, ans) then book[h := Registration(token, s.nextPoll)] else book)
  {
    assert Registry(s.contexts, s.mem, s.nextCtx);
    if h !in s.contexts {
      AddNewBooks(s, h, interest, token, ans, book);
    } else if !s.mem[s.contexts[h]].active {
      var c := s.contexts[h];
      assert s.mem[c].handle == h;
      var s1 := Drain(s, c, ans.rounds);
      DrainKeeps(s, c, ans.rounds);
      assert Registry(s1.contexts, s1.mem, s1.nextCtx);
      DrainSettles(s, c, ans.rounds);
      SettledBook(s.mem, s1.mem, book);
      hide BookOk, PollsOk, Registry;
      if ans.resolved && ans.associated {
        ReAddBooks(s1, c, interest, token, ans, book);
      }
    }
  }

  lemma RemoveSettles(s: State, h: Handle)
    ensures Settles(s.mem, Remove(s, h).mem) && Remove(s, h).nextPoll == s.nextPoll
  {
  }

  lemma StepBooks(s: State, step: Step, book: Book)
    requires Inv(s) && CanStep(s, step) && BookOk(s.mem, book)
    ensures BookOk(DoStep(s, step).mem, BookStep(s, step, book))
  {
    match step
    case Kernel(mv) => assert Settles(s.mem, DoMove(s, mv).mem);
    case AddCall(h, interest, token, ans) => AddBooks(s, h, interest, token, ans, book);
    case RemoveCall(h) => RemoveSettles(s, h);
    case ModifyCall(h, interest, token, ans) =>
      if h in s.contexts {
        RemoveSettles(s, h);
        RemoveKeeps(s, h);
        SettledBook(s.mem, Remove(s, h).mem, book);
        AddBooks(Remove(s, h), h, interest, token, ans, book);
      }
    case WaitCall(round) =>
      var s1 := DoMoves(s, round.moves);
      MovesSettle(s, round.moves);
      WaitSettles(s1.mem, s1.queue[..Taken(s1, round.take)]);
  }

  lemma {:induction false} RunBooks(s: State, steps: seq<Step>, book: Book)
    requires Inv(s) && IsRun(s, steps) && BookOk(s.mem, book)
    ensures BookOk(Exec(s, steps).mem, Booked(s, steps, book))
    decreases |steps|
  {
    hide Inv, CanStep, DoStep, BookOk, BookStep;
    if steps != [] {
      StepKeeps(s, steps[0]);
      StepBooks(s, steps[0], book);
      RunBooks(DoStep(s, steps[0]), steps[1..], BookStep(s, steps[0], book));
    }
  }

  /** `t` reports a dequeued completion of the poll that the last successful registration of its handle submitted, under that call's token. */
  ghost predicate ReportsLast(mem: Memory, book: Book, batch: seq<Entry>, t: Trigger) {
    exists e :: e in batch && e.Done? && e.status != Cancelled && e.poll.ctx in mem && mem[e.poll.ctx].handle in book
      && t.token == book[mem[e.poll.ctx].handle].token && e.poll.id == book[mem[e.poll.ctx].handle].poll
      && t.events == if e.status.Fired? then e.status.events else 4
  }

  lemma {:induction false} ReportedFromBook(s: State, held: seq<Entry>, book: Book, batch: seq<Entry>, t: Trigger)
    requires InvHolding(s, held) && BookOk(s.mem, book) && (forall e :: e in batch ==> e in held) && t in Reported(s.mem, batch)
    ensures ReportsLast(s.mem, book, batch, t)
  {
    var e := batch[0];
    if e.Done? && e.poll.ctx in s.mem && s.mem[e.poll.ctx].active && t == Trigger(EventsOf(e.status), s.mem[e.poll.ctx].token) {
      CompletionIsFresh(s, held, e);
    } else {
      ReportedFromBook(s, held, book, batch[1..], t);
      assert forall d :: d in batch[1..] ==> d in batch;
    }
  }

  /** In every run, whatever `wait` returns belongs to the last successful registration of its handle, never to an earlier one. */
  lemma WaitReportsLastRegistration(steps: seq<Step>, round: Round, t: Trigger)
    requires IsRun(INITIAL, steps) && t in Wait(Exec(INITIAL, steps), round).1
    ensures var s1 := DoMoves(Exec(INITIAL, steps), round.moves);
      ReportsLast(s1.mem, Booked(INITIAL, steps, map[]), s1.queue[..Taken(s1, round.take)], t)
  {
    var s := Exec(INITIAL, steps);
    var book := Booked(INITIAL, steps, map[]);
    InitialOk();
    RunsKeep(INITIAL, steps);
    RunBooks(INITIAL, steps, map[]);
    var s1 := DoMoves(s, round.moves);
    var n := Taken(s1, round.take);
    MovesKeep(s, round.moves);
    MovesSettle(s, round.moves);
    SettledBook(s.mem, s1.mem, book);
    WaitReports(s, round);
    Dequeue(s1, n);
    hide Inv, InvHolding, BookOk, Booked, Exec, ReportsLast, Reported;
    ReportedFromBook(s1.(queue := s1.queue[n..]), s1.queue[..n], book, s1.queue[..n], t);
  }
}
