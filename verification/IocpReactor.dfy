/** The Windows reactor as mutable state, with its drain, wait and teardown loops, proved against module `Iocp`. */
module IocpReactors {
  import opened Iocp
  import IocpRuns

  class Reactor {
    var contexts: map<Handle, Ctx>
    var mem: Memory
    var inflight: set<Poll>
    var cancels: set<Poll>
    var queue: seq<Entry>
    var nextPoll: nat
    var nextCtx: nat

    function Abs(): State
      reads this
    {
      State(contexts, mem, inflight, cancels, queue, nextPoll, nextCtx)
    }

    constructor ()
      ensures Abs() == INITIAL
    {
      contexts, mem, inflight, cancels, queue, nextPoll, nextCtx := map[], map[], {}, {}, [], 1, 0;
    }

    /** The kernel's own progress between two of our calls. */
    method KernelRuns(moves: seq<Move>)
      modifies this
      ensures Abs() == DoMoves(old(Abs()), moves)
    {
      for i := 0 to |moves|
        invariant Abs() == DoMoves(old(Abs()), moves[..i])
      {
        assert moves[..i + 1][..i] == moves[..i];
        if CanMove(Abs(), moves[i]) {
          match moves[i] {
            case PostWake => queue := queue + [Wake];
            case Complete(p, st) =>
              inflight := inflight - {p};
              mem := mem[p.ctx := mem[p.ctx].(iosb := st)];
              queue := queue + [Done(p, st)];
          }
        }
      }
      assert moves[..|moves|] == moves;
    }

    method SubmitPoll(c: Ctx, accepted: bool) returns (ok: bool)
      requires c in mem
      modifies this
      ensures Abs() == Submit(old(Abs()), c, accepted) && ok == accepted
    {
      mem := mem[c := mem[c].(iosb := Zeroed)];
      if !accepted {
        return false;
      }
      var p := Poll(nextPoll, c, mem[c].reg);
      inflight := inflight + {p};
      nextPoll := nextPoll + 1;
      mem := mem[c := mem[c].(last := p, pending := true)];
      return true;
    }

    method RequestCancel(c: Ctx)
      requires c in mem
      modifies this
      ensures Abs() == CancelPoll(old(Abs()), c)
    {
      if !mem[c].pending {
        return;
      }
      cancels := cancels + {mem[c].last};
    }

    method Dequeue(take: nat) returns (batch: seq<Entry>)
      modifies this
      ensures batch == old(queue)[..Taken(old(Abs()), take)]
      ensures Abs() == old(Abs()).(queue := old(queue)[Taken(old(Abs()), take)..])
    {
      var n := Taken(Abs(), take);
      batch := queue[..n];
      queue := queue[n..];
    }

    /** One pass of the drain loop: dequeue, then settle or post back each entry. */
    method DrainOnce(c: Ctx, round: Round)
      modifies this
      ensures Abs() == DrainRound(old(Abs()), c, round)
    {
      KernelRuns(round.moves);
      ghost var s1 := Abs();
      var batch := Dequeue(round.take);
      ghost var s2 := Abs();
      for i := 0 to |batch|
        invariant DrainBatch(s2, c, batch) == DrainBatch(Abs(), c, batch[i..])
      {
        assert batch[i..][1..] == batch[i + 1..];
        var e := batch[i];
        if e != Wake && e.poll.ctx in mem {
          if e.poll.ctx == c || !mem[e.poll.ctx].active {
            mem := mem[e.poll.ctx := mem[e.poll.ctx].(pending := false)];
          } else {
            queue := queue + [e];
          }
        }
      }
    }

    /** Drains until the old poll of `c` is settled or the dequeue gives up. */
    method DrainOld(c: Ctx, rounds: seq<Round>)
      requires c in mem
      modifies this
      ensures c in mem && Abs() == Drain(old(Abs()), c, rounds)
    {
      hide DrainRound;
      var rest := rounds;
      while mem[c].pending && rest != []
        invariant c in mem && Drain(Abs(), c, rest) == Drain(old(Abs()), c, rounds)
        decreases |rest|
      {
        DrainOnce(c, rest[0]);
        rest := rest[1..];
      }
    }

    method Add(h: Handle, interest: Events, token: Token, ans: Answers) returns (ok: bool)
      requires Inv(Abs())
      modifies this
      ensures Abs() == Iocp.Add(old(Abs()), h, interest, token, ans)
      ensures ok == AddOk(old(Abs()), h, ans)
      ensures Drained(old(Abs()), h, ans) ==> Inv(Abs())
    {
      if Drained(Abs(), h, ans) { AddKeeps(Abs(), h, interest, token, ans); }
      hide Inv, Drain, Drained;
      if h in contexts && contexts[h] in mem {
        var c := contexts[h];
        if mem[c].active {
          return false;
        }
        DrainOld(c, ans.rounds);
        if !ans.resolved || !ans.associated {
          return false;
        }
        mem := mem[c := mem[c].(interest := interest, token := token, active := true, reg := mem[c].reg + 1)];
        ok := SubmitPoll(c, ans.submitted);
        return ok;
      }
      if !ans.resolved || !ans.associated {
        return false;
      }
      var c := nextCtx;
      nextCtx := nextCtx + 1;
      mem := mem[c := Context(h, token, interest, true, false, Zeroed, Poll(0, c, 0), 1)];
      contexts := contexts[h := c];
      ok := SubmitPoll(c, ans.submitted);
      if !ok {
        mem := mem[c := mem[c].(active := false)];
      }
    }

    method Remove(h: Handle) returns (ok: bool)
      requires Inv(Abs())
      modifies this
      ensures Inv(Abs()) && Abs() == Iocp.Remove(old(Abs()), h)
      ensures ok == (h in old(contexts))
    {
      RemoveKeeps(Abs(), h);
      assert h in contexts ==> contexts[h] in mem;
      hide Inv;
      if h !in contexts {
        return false;
      }
      var c := contexts[h];
      mem := mem[c := mem[c].(active := false)];
      RequestCancel(c);
      return true;
    }

    method Modify(h: Handle, interest: Events, token: Token, ans: Answers) returns (ok: bool)
      requires Inv(Abs())
      modifies this
      ensures Abs() == IocpRuns.Modify(old(Abs()), h, interest, token, ans)
      ensures ok <==> h in old(contexts) && ans.resolved && ans.associated && ans.submitted
      ensures IocpRuns.CanStep(old(Abs()), IocpRuns.ModifyCall(h, interest, token, ans)) ==> Inv(Abs())
    {
      hide Inv, Drained;
      if h in contexts { RemovedIsInactive(Abs(), h); }
      var removed := Remove(h);
      if !removed {
        return false;
      }
      ok := Add(h, interest, token, ans);
    }

    /** Turns dequeued entries into triggers. */
    method Report(batch: seq<Entry>) returns (out: seq<Trigger>)
      modifies this
      ensures Abs() == old(Abs()).(mem := WaitBatch(old(mem), batch).0)
      ensures out == WaitBatch(old(mem), batch).1
    {
      out := [];
      assert batch[0..] == batch;
      for i := 0 to |batch|
        invariant Abs() == old(Abs()).(mem := mem)
        invariant WaitBatch(old(mem), batch).0 == WaitBatch(mem, batch[i..]).0
        invariant WaitBatch(old(mem), batch).1 == out + WaitBatch(mem, batch[i..]).1
      {
        ghost var was := mem;
        assert batch[i..][0] == batch[i] && batch[i..][1..] == batch[i + 1..];
        var e := batch[i];
        ghost var shown := out;
        if e != Wake && e.poll.ctx in mem && mem[e.poll.ctx].pending {
          var ctx := mem[e.poll.ctx];
          mem := mem[e.poll.ctx := ctx.(pending := false)];
          if ctx.active && ctx.iosb != Cancelled {
            out := out + [Trigger(EventsOf(ctx.iosb), ctx.token)];
          }
        }
        assert mem == WaitEntry(was, e).0 && out == shown + WaitEntry(was, e).1;
        hide WaitEntry;
        assert WaitBatch(was, batch[i..]).1 == WaitEntry(was, e).1 + WaitBatch(mem, batch[i + 1..]).1;
        assert shown + (WaitEntry(was, e).1 + WaitBatch(mem, batch[i + 1..]).1) == out + WaitBatch(mem, batch[i + 1..]).1;
      }
    }

    /** Reports each dequeued completion of an active registration once, in order, with its own events. */
    method WaitFor(round: Round) returns (out: seq<Trigger>)
      requires Inv(Abs())
      modifies this
      ensures Inv(Abs()) && (Abs(), out) == Wait(old(Abs()), round)
      ensures var s1 := DoMoves(old(Abs()), round.moves);
        out == Reported(s1.mem, s1.queue[..Taken(s1, round.take)])
    {
      WaitReports(Abs(), round);
      hide Inv, WaitBatch;
      KernelRuns(round.moves);
      var batch := Dequeue(round.take);
      out := Report(batch);
    }

    /** `~Reactor`, first loop: stop watching everything and ask the kernel to let go. */
    method DeactivateAll()
      requires Inv(Abs())
      modifies this
      ensures Inv(Abs()) && mem.Keys == old(mem.Keys)
      ensures forall c :: c in mem ==> !mem[c].active
    {
      hide InvHolding;
      var todo := mem.Keys;
      while todo != {}
        invariant Inv(Abs()) && mem.Keys == old(mem.Keys) && todo <= mem.Keys
        invariant forall c :: c in mem && c !in todo ==> !mem[c].active
        decreases |todo|
      {
        var c :| c in todo;
        DeactivateInv(Abs(), c);
        mem := mem[c := mem[c].(active := false)];
        RequestCancel(c);
        todo := todo - {c};
      }
    }

    /** `~Reactor`, one pass of the second loop: whatever is dequeued is settled. */
    method SettleOnce(round: Round)
      requires Inv(Abs()) && forall c :: c in mem ==> !mem[c].active
      modifies this
      ensures Inv(Abs()) && mem.Keys == old(mem.Keys)
      ensures forall c :: c in mem ==> !mem[c].active
    {
      hide InvHolding;
      MovesKeepInactive(Abs(), round.moves);
      MovesKeep(Abs(), round.moves);
      KernelRuns(round.moves);
      Iocp.Dequeue(Abs(), Taken(Abs(), round.take));
      var batch := Dequeue(round.take);
      for i := 0 to |batch|
        invariant InvHolding(Abs(), batch[i..]) && mem.Keys == old(mem.Keys)
        invariant forall c :: c in mem ==> !mem[c].active
      {
        DrainEntryKeeps(Abs(), 0, batch[i..]);
        assert batch[i..][1..] == batch[i + 1..];
        var e := batch[i];
        if e != Wake && e.poll.ctx in mem {
          mem := mem[e.poll.ctx := mem[e.poll.ctx].(pending := false)];
        }
      }
      assert batch[|batch|..] == [];
    }

    /** `~Reactor`: unless a dequeue times out, the contexts are freed only once the kernel is done with all of them. */
    method Destroy(rounds: seq<Round>) returns (timedOut: bool, ghost atFree: State)
      requires Inv(Abs())
      modifies this
      ensures mem == map[] && contexts == map[]
      ensures Inv(atFree) && atFree.mem.Keys == old(mem.Keys)
      ensures inflight == atFree.inflight && queue == atFree.queue
      ensures timedOut <==> !IocpRuns.KernelIsDone(atFree)
    {
      hide InvHolding, IocpRuns.KernelIsDone;
      DeactivateAll();
      var rest := rounds;
      var pending := set c | c in mem && mem[c].pending;
      while pending != {} && rest != []
        invariant Inv(Abs()) && mem.Keys == old(mem.Keys)
        invariant forall c :: c in mem ==> !mem[c].active
        invariant pending == set c | c in mem && mem[c].pending
        decreases |rest|
      {
        SettleOnce(rest[0]);
        rest := rest[1..];
        pending := set c | c in mem && mem[c].pending;
      }
      timedOut := pending != {};
      atFree := Abs();
      IocpRuns.SafeToFreeIffNothingPending(Abs());
      assert forall c :: c in mem && mem[c].pending ==> c in pending;
      mem, contexts := map[], map[];
    }
  }

  lemma DeactivateInv(s: State, c: Ctx)
    requires Inv(s) && c in s.mem
    ensures Inv(Deactivate(s, c))
  {
    hide PollsOk, Registry;
    DeactivateKeeps(s, multiset([]) + multiset(s.queue), c);
    RegistryUpdate(s.contexts, s.mem, s.nextCtx, c, s.mem[c].(active := false));
  }

  lemma {:induction false} MovesKeepInactive(s: State, moves: seq<Move>)
    requires forall c :: c in s.mem ==> !s.mem[c].active
    ensures DoMoves(s, moves).mem.Keys == s.mem.Keys
    ensures forall c :: c in s.mem ==> !DoMoves(s, moves).mem[c].active
  {
    if moves != [] { MovesKeepInactive(s, moves[..|moves| - 1]); }
  }

  lemma RemovedIsInactive(s: State, h: Handle)
    requires Inv(s) && h in s.contexts
    ensures s.contexts[h] in s.mem && Iocp.Remove(s, h).contexts == s.contexts
    ensures s.contexts[h] in Iocp.Remove(s, h).mem && !Iocp.Remove(s, h).mem[s.contexts[h]].active
  {
  }
}
