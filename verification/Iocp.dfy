/**
  The poll protocol of the Windows reactor: contexts with `active` and `pending` flags against a kernel that holds
  in-flight polls and a completion queue, and may finish polls at any time and in any order.
*/
module Iocp {

  type Handle = int
  type Ctx = nat
  type Token = nat
  type Events = nat

  const ERROR_EVENT: Events := 4
  const MAX_EVENTS_PER_WAIT := 64

  /** One submission of a context's OVERLAPPED. `reg` numbers the registration it was submitted for. */
  datatype Poll = Poll(id: nat, ctx: Ctx, reg: nat)

  /** What the kernel leaves in the OVERLAPPED. */
  datatype Status = Zeroed | Fired(events: Events) | Failed | Cancelled

  datatype Entry = Wake | Done(poll: Poll, status: Status)

  /** `iosb` is the OVERLAPPED's memory; `last` is the latest poll submitted with it. */
  datatype Context = Context(
    handle: Handle,
    token: Token,
    interest: Events,
    active: bool,
    pending: bool,
    iosb: Status,
    last: Poll,
    reg: nat)

  type Memory = map<Ctx, Context>

  datatype State = State(
    contexts: map<Handle, Ctx>,
    mem: Memory,
    inflight: set<Poll>,
    cancels: set<Poll>,
    queue: seq<Entry>,
    nextPoll: nat,
    nextCtx: nat)

  const INITIAL := State(map[], map[], {}, {}, [], 1, 0)

  datatype Trigger = Trigger(events: Events, token: Token)

  // ---- Kernel --------------------------------------------------------------------------------------

  datatype Move = Complete(poll: Poll, status: Status) | PostWake

  /** The kernel cancels only what it was asked to cancel. */
  predicate CanMove(s: State, mv: Move) {
    mv.Complete? ==>
      && mv.poll in s.inflight && mv.poll.ctx in s.mem
      && mv.status != Zeroed
      && (mv.status == Cancelled ==> mv.poll in s.cancels)
  }

  /** A completion writes the OVERLAPPED and queues an entry. Impossible moves do not happen. */
  function DoMove(s: State, mv: Move): State {
    if !CanMove(s, mv) then s
    else
      match mv
      case PostWake => s.(queue := s.queue + [Wake])
      case Complete(p, st) =>
        s.(inflight := s.inflight - {p},
           mem := s.mem[p.ctx := s.mem[p.ctx].(iosb := st)],
           queue := s.queue + [Done(p, st)])
  }

  function DoMoves(s: State, moves: seq<Move>): State {
    if moves == [] then s else DoMove(DoMoves(s, moves[..|moves| - 1]), moves[|moves| - 1])
  }

  // ---- Polls -----------------------------------------------------------------------------------------

  /** `submit_poll`; `ok` is the kernel's answer. */
  function Submit(s: State, c: Ctx, ok: bool): State
    requires c in s.mem
  {
    var ctx := s.mem[c].(iosb := Zeroed);
    if !ok then s.(mem := s.mem[c := ctx])
    else
      var p := Poll(s.nextPoll, c, ctx.reg);
      s.(mem := s.mem[c := ctx.(pending := true, last := p)],
         inflight := s.inflight + {p},
         nextPoll := s.nextPoll + 1)
  }

  /** `cancel_poll`: a request; `pending` stays set until the completion is dequeued. */
  function CancelPoll(s: State, c: Ctx): State
    requires c in s.mem
  {
    if !s.mem[c].pending then s else s.(cancels := s.cancels + {s.mem[c].last})
  }

  function SetPending(mem: Memory, c: Ctx, pending: bool): Memory
    requires c in mem
  {
    mem[c := mem[c].(pending := pending)]
  }

  // ---- The drain in `add` ------------------------------------------------------------------------------

  /** One dequeued entry: wakes are dropped, entries of other active contexts are posted back. */
  function DrainEntry(s: State, c: Ctx, e: Entry): (r: State)
    ensures r.mem.Keys == s.mem.Keys
  {
    match e
    case Wake => s
    case Done(p, _) =>
      if p.ctx !in s.mem then s
      else if p.ctx == c || !s.mem[p.ctx].active then s.(mem := SetPending(s.mem, p.ctx, false))
      else s.(queue := s.queue + [e])
  }

  function DrainBatch(s: State, c: Ctx, batch: seq<Entry>): (r: State)
    ensures r.mem.Keys == s.mem.Keys
    decreases |batch|
  {
    if batch == [] then s else DrainBatch(DrainEntry(s, c, batch[0]), c, batch[1..])
  }

  /** What the kernel does before a dequeue, and how many entries the dequeue returns. */
  datatype Round = Round(moves: seq<Move>, take: nat)

  function Taken(s: State, take: nat): nat {
    var most := if take <= MAX_EVENTS_PER_WAIT then take else MAX_EVENTS_PER_WAIT;
    if most <= |s.queue| then most else |s.queue|
  }

  function DrainRound(s: State, c: Ctx, round: Round): (r: State)
    ensures r.mem.Keys == s.mem.Keys
  {
    var s1 := DoMoves(s, round.moves);
    var n := Taken(s1, round.take);
    MovesKeepKeys(s, round.moves);
    DrainBatch(s1.(queue := s1.queue[n..]), c, s1.queue[..n])
  }

  lemma {:induction false} MovesKeepKeys(s: State, moves: seq<Move>)
    ensures DoMoves(s, moves).mem.Keys == s.mem.Keys
  {
    if moves != [] { MovesKeepKeys(s, moves[..|moves| - 1]); }
  }

  /** The loop. Running out of rounds while still pending is the dequeue that times out. */
  function Drain(s: State, c: Ctx, rounds: seq<Round>): (r: State)
    requires c in s.mem
    ensures r.mem.Keys == s.mem.Keys
    decreases |rounds|
  {
    if !s.mem[c].pending || rounds == [] then s
    else Drain(DrainRound(s, c, rounds[0]), c, rounds[1..])
  }

  // ---- The reactor's operations ------------------------------------------------------------------------

  /** The answers `add` gets from the system. */
  datatype Answers = Answers(rounds: seq<Round>, resolved: bool, associated: bool, submitted: bool)

  function Activate(s: State, c: Ctx, interest: Events, token: Token): State
    requires c in s.mem
  {
    s.(mem := s.mem[c := s.mem[c].(interest := interest, token := token, active := true, reg := s.mem[c].reg + 1)])
  }

  /** Re-registering a handle whose context exists and is not active. */
  function AddAgain(s: State, c: Ctx, interest: Events, token: Token, ans: Answers): State
    requires c in s.mem
  {
    var s1 := Drain(s, c, ans.rounds);
    if !ans.resolved || !ans.associated then s1
    else Submit(Activate(s1, c, interest, token), c, ans.submitted)
  }

  function AddNew(s: State, h: Handle, interest: Events, token: Token, ans: Answers): State {
    if !ans.resolved || !ans.associated then s
    else
      var c := s.nextCtx;
      var ctx := Context(h, token, interest, true, false, Zeroed, Poll(0, c, 0), 1);
      var s1 := s.(contexts := s.contexts[h := c], mem := s.mem[c := ctx], nextCtx := c + 1);
      var s2 := Submit(s1, c, ans.submitted);
      if ans.submitted then s2 else s2.(mem := s2.mem[c := s2.mem[c].(active := false)])
  }

  function Add(s: State, h: Handle, interest: Events, token: Token, ans: Answers): State {
    if h in s.contexts && s.contexts[h] in s.mem then
      var c := s.contexts[h];
      if s.mem[c].active then s else AddAgain(s, c, interest, token, ans)
    else AddNew(s, h, interest, token, ans)
  }

  /** Whether `add` reports success. */
  predicate AddOk(s: State, h: Handle, ans: Answers) {
    !(h in s.contexts && s.contexts[h] in s.mem && s.mem[s.contexts[h]].active)
    && ans.resolved && ans.associated && ans.submitted
  }

  function Deactivate(s: State, c: Ctx): State
    requires c in s.mem
  {
    CancelPoll(s.(mem := s.mem[c := s.mem[c].(active := false)]), c)
  }

  function Remove(s: State, h: Handle): State {
    if h in s.contexts && s.contexts[h] in s.mem then Deactivate(s, s.contexts[h]) else s
  }

  // ---- wait ------------------------------------------------------------------------------------------------

  function EventsOf(st: Status): Events {
    match st
    case Fired(e) => e
    case _ => ERROR_EVENT
  }

  /** One dequeued entry, as `wait` handles it: the flags and the OVERLAPPED decide, not the entry. */
  function WaitEntry(mem: Memory, e: Entry): (Memory, seq<Trigger>) {
    match e
    case Wake => (mem, [])
    case Done(p, _) =>
      if p.ctx !in mem || !mem[p.ctx].pending then (mem, [])
      else
        var ctx := mem[p.ctx];
        var mem' := SetPending(mem, p.ctx, false);
        if !ctx.active || ctx.iosb == Cancelled then (mem', [])
        else (mem', [Trigger(EventsOf(ctx.iosb), ctx.token)])
  }

  function WaitBatch(mem: Memory, batch: seq<Entry>): (Memory, seq<Trigger>) {
    if batch == [] then (mem, [])
    else
      var (mem1, out1) := WaitEntry(mem, batch[0]);
      var (mem2, out2) := WaitBatch(mem1, batch[1..]);
      (mem2, out1 + out2)
  }

  function Wait(s: State, round: Round): (State, seq<Trigger>) {
    var s1 := DoMoves(s, round.moves);
    var n := Taken(s1, round.take);
    var (mem, out) := WaitBatch(s1.mem, s1.queue[..n]);
    (s1.(queue := s1.queue[n..], mem := mem), out)
  }

  // ---- The invariant ---------------------------------------------------------------------------------------

  /** `p` is the one poll its context has outstanding. */
  predicate Owned(mem: Memory, p: Poll) {
    p.ctx in mem && mem[p.ctx].pending && mem[p.ctx].last == p
  }

  ghost predicate FlightOk(mem: Memory, inflight: set<Poll>) {
    forall p :: p in inflight ==> Owned(mem, p)
  }

  /**
    A queued completion is its context's outstanding poll, queued once, and the OVERLAPPED still holds its status.
  */
  ghost predicate EntriesOk(mem: Memory, inflight: set<Poll>, cancels: set<Poll>, es: multiset<Entry>) {
    forall e :: e in es && e.Done? ==>
      && Owned(mem, e.poll) && e.poll !in inflight && es[e] == 1
      && mem[e.poll.ctx].iosb == e.status
      && (e.status == Cancelled ==> e.poll in cancels)
  }

  /** A pending context's poll is in flight or queued. */
  ghost predicate Backed(mem: Memory, inflight: set<Poll>, es: multiset<Entry>) {
    forall c :: c in mem && mem[c].pending ==>
      mem[c].last in inflight || Done(mem[c].last, mem[c].iosb) in es
  }

  /** The outstanding poll of an active context was submitted for its current registration, and nobody cancelled it. */
  predicate FreshContext(mem: Memory, cancels: set<Poll>, nextPoll: nat, c: Ctx)
    requires c in mem
  {
    && mem[c].last.ctx == c && mem[c].last.id < nextPoll
    && (mem[c].active && mem[c].pending ==> mem[c].last.reg == mem[c].reg && mem[c].last !in cancels)
  }

  ghost predicate Fresh(mem: Memory, cancels: set<Poll>, nextPoll: nat) {
    && (forall c :: c in mem ==> FreshContext(mem, cancels, nextPoll, c))
    && (forall p :: p in cancels ==> p.id < nextPoll)
    && nextPoll > 0
  }

  /** `entries` are the completions the kernel has handed over or still queues, and `inflight` the polls it still has. */
  ghost predicate PollsOk(s: State, entries: multiset<Entry>) {
    && FlightOk(s.mem, s.inflight)
    && EntriesOk(s.mem, s.inflight, s.cancels, entries)
    && Backed(s.mem, s.inflight, entries)
    && Fresh(s.mem, s.cancels, s.nextPoll)
  }

  ghost predicate Registry(contexts: map<Handle, Ctx>, mem: Memory, nextCtx: nat) {
    && (forall h :: h in contexts ==> contexts[h] in mem && mem[contexts[h]].handle == h)
    && (forall c :: c in mem ==> c < nextCtx && mem[c].handle in contexts && contexts[mem[c].handle] == c)
  }

  /** `held` are entries dequeued but not handled yet. */
  ghost predicate InvHolding(s: State, held: seq<Entry>) {
    PollsOk(s, multiset(held) + multiset(s.queue)) && Registry(s.contexts, s.mem, s.nextCtx)
  }

  ghost predicate Inv(s: State) {
    InvHolding(s, [])
  }

  // ---- Polls come and go ---------------------------------------------------------------------------------------

  /** An entry is consumed: its context has nothing outstanding any more. */
  lemma ConsumeKeeps(s: State, es: multiset<Entry>, e: Entry)
    requires PollsOk(s, es) && e in es && e.Done?
    ensures e.poll.ctx in s.mem && s.mem[e.poll.ctx].pending && s.mem[e.poll.ctx].iosb == e.status
    ensures PollsOk(s.(mem := SetPending(s.mem, e.poll.ctx, false)), es - multiset{e})
  {
    assert Owned(s.mem, e.poll);
  }

  lemma ForgetWake(s: State, es: multiset<Entry>)
    requires PollsOk(s, es)
    ensures PollsOk(s, es - multiset{Wake})
  {
  }

  lemma CompleteKeeps(s: State, es: multiset<Entry>, mv: Move)
    requires PollsOk(s, es) && CanMove(s, mv) && mv.Complete?
    ensures PollsOk(DoMove(s, mv), es + multiset{Done(mv.poll, mv.status)})
  {
  }

  lemma SubmitKeeps(s: State, es: multiset<Entry>, c: Ctx, ok: bool)
    requires PollsOk(s, es) && c in s.mem && !s.mem[c].pending
    ensures PollsOk(Submit(s, c, ok), es)
  {
  }

  lemma InactiveKeeps(s: State, es: multiset<Entry>, c: Ctx)
    requires PollsOk(s, es) && c in s.mem
    ensures PollsOk(s.(mem := s.mem[c := s.mem[c].(active := false)]), es)
  {
  }

  lemma CancelKeeps(s: State, es: multiset<Entry>, c: Ctx)
    requires PollsOk(s, es) && c in s.mem && !s.mem[c].active
    ensures PollsOk(CancelPoll(s, c), es)
  {
    assert FreshContext(s.mem, s.cancels, s.nextPoll, c);
    forall d | d in s.mem ensures FreshContext(s.mem, CancelPoll(s, c).cancels, s.nextPoll, d) {
      assert FreshContext(s.mem, s.cancels, s.nextPoll, d);
    }
    hide FlightOk, Backed;
  }

  lemma DeactivateKeeps(s: State, es: multiset<Entry>, c: Ctx)
    requires PollsOk(s, es) && c in s.mem
    ensures PollsOk(Deactivate(s, c), es)
  {
    hide PollsOk;
    InactiveKeeps(s, es, c);
    CancelKeeps(s.(mem := s.mem[c := s.mem[c].(active := false)]), es, c);
  }

  lemma ActivateKeeps(s: State, es: multiset<Entry>, c: Ctx, interest: Events, token: Token)
    requires PollsOk(s, es) && c in s.mem && !s.mem[c].pending
    ensures PollsOk(Activate(s, c, interest, token), es)
  {
  }

  // ---- Operations keep the invariant ---------------------------------------------------------------------------

  lemma MoveKeeps(s: State, held: seq<Entry>, mv: Move)
    requires InvHolding(s, held)
    ensures InvHolding(DoMove(s, mv), held)
  {
    var es := multiset(held) + multiset(s.queue);
    if CanMove(s, mv) {
      if mv.Complete? {
        CompleteKeeps(s, es, mv);
        hide PollsOk;
        var e := Done(mv.poll, mv.status);
        assert multiset(held) + multiset(s.queue + [e]) == es + multiset{e};
      } else {
        assert multiset(held) + multiset(s.queue + [Wake]) == es + multiset{Wake};
      }
    }
  }

  lemma {:induction false} MovesKeep(s: State, moves: seq<Move>)
    requires Inv(s)
    ensures Inv(DoMoves(s, moves))
  {
    hide InvHolding;
    if moves != [] {
      MovesKeep(s, moves[..|moves| - 1]);
      MoveKeeps(DoMoves(s, moves[..|moves| - 1]), [], moves[|moves| - 1]);
    }
  }

  lemma Dequeue(s: State, n: nat)
    requires Inv(s) && n <= |s.queue|
    ensures InvHolding(s.(queue := s.queue[n..]), s.queue[..n])
  {
    assert s.queue == s.queue[..n] + s.queue[n..];
    assert multiset(s.queue[..n]) + multiset(s.queue[n..]) == multiset([]) + multiset(s.queue);
  }

  lemma HeldFirst(held: seq<Entry>, queue: seq<Entry>)
    requires held != []
    ensures held[0] in multiset(held) + multiset(queue)
    ensures multiset(held) + multiset(queue) - multiset{held[0]} == multiset(held[1..]) + multiset(queue)
    ensures multiset(held[1..]) + multiset(queue + [held[0]]) == multiset(held) + multiset(queue)
  {
    assert held == [held[0]] + held[1..];
  }

  lemma DrainEntryKeeps(s: State, c: Ctx, held: seq<Entry>)
    requires InvHolding(s, held) && held != []
    ensures InvHolding(DrainEntry(s, c, held[0]), held[1..])
  {
    var e := held[0];
    var es := multiset(held) + multiset(s.queue);
    HeldFirst(held, s.queue);
    if e == Wake {
      ForgetWake(s, es);
    } else {
      ConsumeKeeps(s, es, e);
    }
    hide FlightOk, EntriesOk, Backed, Fresh;
  }

  lemma {:induction false} DrainBatchKeeps(s: State, c: Ctx, batch: seq<Entry>)
    requires InvHolding(s, batch)
    ensures Inv(DrainBatch(s, c, batch))
    decreases |batch|
  {
    hide InvHolding;
    if batch != [] {
      DrainEntryKeeps(s, c, batch);
      DrainBatchKeeps(DrainEntry(s, c, batch[0]), c, batch[1..]);
    }
  }

  lemma DrainRoundKeeps(s: State, c: Ctx, round: Round)
    requires Inv(s)
    ensures Inv(DrainRound(s, c, round))
  {
    hide InvHolding;
    var s1 := DoMoves(s, round.moves);
    var n := Taken(s1, round.take);
    MovesKeep(s, round.moves);
    Dequeue(s1, n);
    DrainBatchKeeps(s1.(queue := s1.queue[n..]), c, s1.queue[..n]);
  }

  lemma {:induction false} DrainKeeps(s: State, c: Ctx, rounds: seq<Round>)
    requires Inv(s) && c in s.mem
    ensures Inv(Drain(s, c, rounds))
    decreases |rounds|
  {
    hide Inv;
    if s.mem[c].pending && rounds != [] {
      DrainRoundKeeps(s, c, rounds[0]);
      DrainKeeps(DrainRound(s, c, rounds[0]), c, rounds[1..]);
    }
  }

  /** The drain ended because the old poll's completion arrived, not because a dequeue timed out. */
  predicate Drained(s: State, h: Handle, ans: Answers) {
    h in s.contexts && s.contexts[h] in s.mem && !s.mem[s.contexts[h]].active ==>
      !Drain(s, s.contexts[h], ans.rounds).mem[s.contexts[h]].pending
  }

  lemma NewContextKeeps(s: State, h: Handle, ctx: Context)
    requires Inv(s) && h !in s.contexts && ctx.handle == h && !ctx.pending && ctx.last == Poll(0, s.nextCtx, 0)
    ensures Inv(s.(contexts := s.contexts[h := s.nextCtx], mem := s.mem[s.nextCtx := ctx], nextCtx := s.nextCtx + 1))
  {
  }

  lemma RegistryUpdate(contexts: map<Handle, Ctx>, mem: Memory, nextCtx: nat, c: Ctx, ctx: Context)
    requires Registry(contexts, mem, nextCtx) && c in mem && ctx.handle == mem[c].handle
    ensures Registry(contexts, mem[c := ctx], nextCtx)
  {
  }

  lemma SubmitInv(s: State, c: Ctx, ok: bool)
    requires Inv(s) && c in s.mem && !s.mem[c].pending
    ensures Inv(Submit(s, c, ok))
  {
    hide PollsOk, Registry;
    SubmitKeeps(s, multiset([]) + multiset(s.queue), c, ok);
    RegistryUpdate(s.contexts, s.mem, s.nextCtx, c, Submit(s, c, ok).mem[c]);
  }

  lemma InactiveInv(s: State, c: Ctx)
    requires Inv(s) && c in s.mem
    ensures Inv(s.(mem := s.mem[c := s.mem[c].(active := false)]))
  {
    hide PollsOk, Registry;
    InactiveKeeps(s, multiset([]) + multiset(s.queue), c);
    RegistryUpdate(s.contexts, s.mem, s.nextCtx, c, s.mem[c].(active := false));
  }

  lemma AddNewKeeps(s: State, h: Handle, interest: Events, token: Token, ans: Answers)
    requires Inv(s) && h !in s.contexts
    ensures Inv(AddNew(s, h, interest, token, ans))
  {
    if ans.resolved && ans.associated {
      hide InvHolding;
      var c := s.nextCtx;
      var ctx := Context(h, token, interest, true, false, Zeroed, Poll(0, c, 0), 1);
      var s1 := s.(contexts := s.contexts[h := c], mem := s.mem[c := ctx], nextCtx := c + 1);
      NewContextKeeps(s, h, ctx);
      SubmitInv(s1, c, ans.submitted);
      if !ans.submitted { InactiveInv(Submit(s1, c, false), c); }
    }
  }

  lemma ActivateInv(s: State, c: Ctx, interest: Events, token: Token)
    requires Inv(s) && c in s.mem && !s.mem[c].pending
    ensures Inv(Activate(s, c, interest, token))
  {
    hide PollsOk, Registry;
    ActivateKeeps(s, multiset([]) + multiset(s.queue), c, interest, token);
    RegistryUpdate(s.contexts, s.mem, s.nextCtx, c, Activate(s, c, interest, token).mem[c]);
  }

  lemma AddAgainKeeps(s: State, c: Ctx, interest: Events, token: Token, ans: Answers)
    requires Inv(s) && c in s.mem && !Drain(s, c, ans.rounds).mem[c].pending
    ensures Inv(AddAgain(s, c, interest, token, ans))
  {
    hide InvHolding;
    var s1 := Drain(s, c, ans.rounds);
    DrainKeeps(s, c, ans.rounds);
    if ans.resolved && ans.associated {
      ActivateInv(s1, c, interest, token);
      SubmitInv(Activate(s1, c, interest, token), c, ans.submitted);
    }
  }

  lemma AddKeeps(s: State, h: Handle, interest: Events, token: Token, ans: Answers)
    requires Inv(s) && Drained(s, h, ans)
    ensures Inv(Add(s, h, interest, token, ans))
  {
    assert h in s.contexts ==> s.contexts[h] in s.mem;
    hide InvHolding;
    if h !in s.contexts {
      AddNewKeeps(s, h, interest, token, ans);
    } else if !s.mem[s.contexts[h]].active {
      AddAgainKeeps(s, s.contexts[h], interest, token, ans);
    }
  }

  /**
    A re-registration whose poll is accepted keeps the protocol exactly when the drain succeeded: after a timeout the
    OVERLAPPED would be submitted while its old poll is still outstanding.
  */
  lemma ReAddSafeIffDrained(s: State, h: Handle, interest: Events, token: Token, ans: Answers)
    requires Inv(s) && h in s.contexts && s.contexts[h] in s.mem && !s.mem[s.contexts[h]].active
    requires ans.resolved && ans.associated && ans.submitted
    ensures Inv(Add(s, h, interest, token, ans)) <==> Drained(s, h, ans)
  {
    if Drained(s, h, ans) {
      AddKeeps(s, h, interest, token, ans);
    } else {
      var c := s.contexts[h];
      DrainKeeps(s, c, ans.rounds);
      var s1 := Drain(s, c, ans.rounds);
      var r := Add(s, h, interest, token, ans);
      var p := s1.mem[c].last;
      assert FreshContext(s1.mem, s1.cancels, s1.nextPoll, c);
      assert !Owned(r.mem, p);
      if p in s1.inflight {
        assert p in r.inflight;
      } else {
        assert Done(p, s1.mem[c].iosb) in multiset(r.queue);
      }
    }
  }

  lemma RemoveKeeps(s: State, h: Handle)
    requires Inv(s)
    ensures Inv(Remove(s, h))
  {
    if h in s.contexts && s.contexts[h] in s.mem {
      var c := s.contexts[h];
      hide PollsOk, Registry;
      DeactivateKeeps(s, multiset([]) + multiset(s.queue), c);
      RegistryUpdate(s.contexts, s.mem, s.nextCtx, c, s.mem[c].(active := false));
    }
  }

  // ---- What wait reports -----------------------------------------------------------------------------------------

  /** One trigger per completion of an active registration, in order, with that completion's own events. */
  function Reported(mem: Memory, batch: seq<Entry>): seq<Trigger> {
    if batch == [] then []
    else
      var e := batch[0];
      (if e.Done? && e.poll.ctx in mem && mem[e.poll.ctx].active
       then [Trigger(EventsOf(e.status), mem[e.poll.ctx].token)] else [])
      + Reported(mem, batch[1..])
  }

  /** Changing `pending` flags does not change what a batch reports. */
  lemma {:induction false} ReportedIgnoresPending(mem: Memory, c: Ctx, batch: seq<Entry>)
    requires c in mem
    ensures Reported(SetPending(mem, c, false), batch) == Reported(mem, batch)
  {
    if batch != [] { ReportedIgnoresPending(mem, c, batch[1..]); }
  }

  /** An active registration's completion comes from that registration's poll and is never a cancellation. */
  lemma CompletionIsFresh(s: State, held: seq<Entry>, e: Entry)
    requires InvHolding(s, held) && (e in held || e in s.queue) && e.Done?
    ensures e.poll.ctx in s.mem
    ensures var ctx := s.mem[e.poll.ctx];
      && ctx.pending && ctx.last == e.poll && ctx.iosb == e.status
      && (ctx.active ==> e.poll.reg == ctx.reg && e.status != Cancelled)
  {
    assert e in multiset(held) + multiset(s.queue);
    assert Owned(s.mem, e.poll);
    assert FreshContext(s.mem, s.cancels, s.nextPoll, e.poll.ctx);
  }

  lemma {:induction false} WaitBatchReports(s: State, batch: seq<Entry>)
    requires InvHolding(s, batch)
    ensures WaitBatch(s.mem, batch).1 == Reported(s.mem, batch)
    ensures Inv(s.(mem := WaitBatch(s.mem, batch).0))
    decreases |batch|
  {
    if batch != [] {
      var e := batch[0];
      var es := multiset(batch) + multiset(s.queue);
      HeldFirst(batch, s.queue);
      if e == Wake {
        ForgetWake(s, es);
        hide PollsOk, Registry;
        WaitBatchReports(s, batch[1..]);
      } else {
        CompletionIsFresh(s, batch, e);
        ConsumeKeeps(s, es, e);
        hide PollsOk, Registry;
        var mem1 := SetPending(s.mem, e.poll.ctx, false);
        RegistryUpdate(s.contexts, s.mem, s.nextCtx, e.poll.ctx, mem1[e.poll.ctx]);
        ReportedIgnoresPending(s.mem, e.poll.ctx, batch[1..]);
        WaitBatchReports(s.(mem := mem1), batch[1..]);
      }
    }
  }

  /** `wait` reports exactly the dequeued completions of active registrations, each fresh, and keeps the protocol. */
  lemma WaitReports(s: State, round: Round)
    requires Inv(s)
    ensures var s1 := DoMoves(s, round.moves);
      var batch := s1.queue[..Taken(s1, round.take)];
      && Inv(Wait(s, round).0)
      && Wait(s, round).1 == Reported(s1.mem, batch)
  {
    hide InvHolding;
    var s1 := DoMoves(s, round.moves);
    var n := Taken(s1, round.take);
    MovesKeep(s, round.moves);
    Dequeue(s1, n);
    WaitBatchReports(s1.(queue := s1.queue[n..]), s1.queue[..n]);
  }
}
