/** What each call of the IOCP reactor does: what `wait` returns, what `add` and `remove` leave, when the drain stops. */
module IocpEffects {
  import opened Iocp
  import opened IocpRuns

  // ---- wait --------------------------------------------------------------------------------------------------

  /** A dequeued completion of a context that is active. */
  predicate ForActive(mem: Memory, e: Entry) {
    e.Done? && e.poll.ctx in mem && mem[e.poll.ctx].active
  }

  /** `t` carries the context's token and what the kernel reported: the events that fired, or an error (4) if the poll failed. */
  predicate Tells(mem: Memory, e: Entry, t: Trigger)
    requires ForActive(mem, e)
  {
    && t.token == mem[e.poll.ctx].token
    && (e.status.Fired? ==> t.events == e.status.events)
    && (!e.status.Fired? ==> t.events == 4)
  }

  /** `pos` lists, in order, exactly the entries from `i` on that are for active contexts, and `out` tells of each of them. */
  ghost predicate TellsFrom(mem: Memory, batch: seq<Entry>, i: nat, out: seq<Trigger>, pos: seq<nat>) {
    && |pos| == |out|
    && (forall k, l :: 0 <= k < l < |pos| ==> pos[k] < pos[l])
    && (forall k :: 0 <= k < |pos| ==> i <= pos[k] < |batch| && ForActive(mem, batch[pos[k]]) && Tells(mem, batch[pos[k]], out[k]))
    && (forall n :: i <= n < |batch| && ForActive(mem, batch[n]) ==> n in pos)
  }

  ghost predicate TellsEach(mem: Memory, batch: seq<Entry>, out: seq<Trigger>, pos: seq<nat>) {
    TellsFrom(mem, batch, 0, out, pos)
  }

  /** One more entry in front, for a context that is not active. */
  lemma TellsSkips(mem: Memory, batch: seq<Entry>, i: nat, out: seq<Trigger>, pos: seq<nat>)
    requires i < |batch| && TellsFrom(mem, batch, i + 1, out, pos) && !ForActive(mem, batch[i])
    ensures TellsFrom(mem, batch, i, out, pos)
  {
  }

  /** One more entry in front, for an active context. */
  lemma TellsMore(mem: Memory, batch: seq<Entry>, i: nat, out: seq<Trigger>, pos: seq<nat>, t: Trigger)
    requires i < |batch| && TellsFrom(mem, batch, i + 1, out, pos) && ForActive(mem, batch[i]) && Tells(mem, batch[i], t)
    ensures TellsFrom(mem, batch, i, [t] + out, [i] + pos)
  {
    var pos1 := [i] + pos;
    forall n | i <= n < |batch| && ForActive(mem, batch[n]) ensures n in pos1 {
      if n > i { assert n in pos; }
      assert pos1[0] == i;
    }
    hide ForActive, Tells;
    forall k | 0 <= k < |pos1|
      ensures i <= pos1[k] < |batch| && ForActive(mem, batch[pos1[k]]) && Tells(mem, batch[pos1[k]], ([t] + out)[k])
    {
      if k > 0 { assert pos1[k] == pos[k - 1] && ([t] + out)[k] == out[k - 1]; }
    }
  }

  lemma {:induction false} ReportedTells(mem: Memory, batch: seq<Entry>, i: nat) returns (pos: seq<nat>)
    requires i <= |batch|
    ensures TellsFrom(mem, batch, i, Reported(mem, batch[i..]), pos)
    decreases |batch| - i
  {
    if i == |batch| {
      pos := [];
    } else {
      var rest := ReportedTells(mem, batch, i + 1);
      var out := Reported(mem, batch[i + 1..]);
      assert batch[i..][0] == batch[i] && batch[i..][1..] == batch[i + 1..];
      if ForActive(mem, batch[i]) {
        var t := Trigger(EventsOf(batch[i].status), mem[batch[i].poll.ctx].token);
        assert Reported(mem, batch[i..]) == [t] + out;
        TellsMore(mem, batch, i, out, rest, t);
        hide TellsFrom, Reported;
        pos := [i] + rest;
      } else {
        assert Reported(mem, batch[i..]) == [] + out == out;
        TellsSkips(mem, batch, i, out, rest);
        hide TellsFrom, Reported;
        pos := rest;
      }
    }
  }

  /**
    `wait` returns one trigger for each dequeued completion of an active context and no others, in the order of the queue,
    each with its registration's token and the events the kernel reported.
  */
  lemma WaitTellsEach(s: State, round: Round) returns (pos: seq<nat>)
    requires Inv(s)
    ensures var s1 := DoMoves(s, round.moves);
      TellsEach(s1.mem, s1.queue[..Taken(s1, round.take)], Wait(s, round).1, pos)
  {
    var s1 := DoMoves(s, round.moves);
    WaitReports(s, round);
    hide Inv, Wait, Reported, TellsFrom;
    var batch := s1.queue[..Taken(s1, round.take)];
    assert batch[0..] == batch;
    pos := ReportedTells(s1.mem, batch, 0);
  }

  /** A dequeue takes the front of the queue: as much as asked for, but at most 64 entries and at most all; the rest stays. */
  lemma WaitTakesFront(s: State, round: Round)
    ensures var s1, n := DoMoves(s, round.moves), Taken(DoMoves(s, round.moves), round.take);
      && n <= round.take && n <= 64 && n <= |s1.queue|
      && (n == round.take || n == 64 || n == |s1.queue|)
      && s1.queue == s1.queue[..n] + Wait(s, round).0.queue
      && Wait(s, round).0.inflight == s1.inflight && Wait(s, round).0.contexts == s1.contexts
  {
  }

  /** Every context with a dequeued completion is free for another poll, and no other context changes. */
  lemma {:induction false} WaitSettlesEach(mem: Memory, batch: seq<Entry>, c: Ctx)
    requires c in mem
    ensures var r := WaitBatch(mem, batch).0;
      c in r && r[c] == if Mentions(batch, c) then mem[c].(pending := false) else mem[c]
  {
    if batch != [] {
      var mem1 := WaitEntry(mem, batch[0]).0;
      assert c in mem1 && mem1[c] == if Mentions([batch[0]], c) then mem[c].(pending := false) else mem[c] by {
        assert batch[0] in [batch[0]];
      }
      WaitSettlesEach(mem1, batch[1..], c);
      assert batch == [batch[0]] + batch[1..];
      assert Mentions(batch, c) <==> Mentions([batch[0]], c) || Mentions(batch[1..], c);
    }
  }

  /** The batch holds a completion of context `c`. */
  predicate Mentions(batch: seq<Entry>, c: Ctx) {
    exists e :: e in batch && e.Done? && e.poll.ctx == c
  }

  // ---- add and remove --------------------------------------------------------------------------------------------

  /** A successful `add`: the handle's context is active under the caller's token and interest, and this call's poll is in flight. */
  lemma AddEffect(s: State, h: Handle, interest: Events, token: Token, ans: Answers)
    requires Inv(s) && Drained(s, h, ans) && AddOk(s, h, ans)
    ensures var r := Add(s, h, interest, token, ans);
      && h in r.contexts && r.contexts[h] in r.mem
      && var ctx := r.mem[r.contexts[h]];
      && ctx.handle == h && ctx.active && ctx.pending && ctx.token == token && ctx.interest == interest
      && ctx.last.id == s.nextPoll && ctx.last.ctx == r.contexts[h] && ctx.last in r.inflight
  {
    if h in s.contexts {
      var c := s.contexts[h];
      assert c in s.mem && s.mem[c].handle == h;
      DrainSettles(s, c, ans.rounds);
      DrainKeepsContexts(s, c, ans.rounds);
    }
    hide Inv;
  }

  /** An `add` of a handle that is active changes nothing, and neither does one whose handle does not resolve, but for the drain. */
  lemma FailedAddEffect(s: State, h: Handle, interest: Events, token: Token, ans: Answers)
    requires Inv(s)
    ensures h in s.contexts && s.mem[s.contexts[h]].active ==> Add(s, h, interest, token, ans) == s
    ensures h !in s.contexts && !(ans.resolved && ans.associated) ==> Add(s, h, interest, token, ans) == s
    ensures h in s.contexts && !s.mem[s.contexts[h]].active && !(ans.resolved && ans.associated) ==>
      Add(s, h, interest, token, ans) == Drain(s, s.contexts[h], ans.rounds)
  {
    assert h in s.contexts ==> s.contexts[h] in s.mem;
    hide Inv;
  }

  /** No other handle's registration is touched by an `add`, whatever its drain dequeues. */
  lemma AddSparesOthers(s: State, h: Handle, interest: Events, token: Token, ans: Answers, o: Handle)
    requires Inv(s) && o in s.contexts && o != h
    ensures s.contexts[o] in s.mem
    ensures var r := Add(s, h, interest, token, ans);
      && o in r.contexts && r.contexts[o] == s.contexts[o] && s.contexts[o] in r.mem
      && var was, now := s.mem[s.contexts[o]], r.mem[s.contexts[o]];
      now.active == was.active && now.token == was.token && now.interest == was.interest && now.last == was.last
  {
    assert Registry(s.contexts, s.mem, s.nextCtx);
    if h in s.contexts && !s.mem[s.contexts[h]].active {
      DrainKeepsContexts(s, s.contexts[h], ans.rounds);
      DrainKeepsSettings(s, s.contexts[h], ans.rounds);
    }
    hide Inv;
  }

  /** What no completion changes in a context. */
  ghost predicate SameSettings(mem: Memory, mem1: Memory) {
    mem1.Keys == mem.Keys && forall c :: c in mem ==>
      mem1[c].active == mem[c].active && mem1[c].token == mem[c].token && mem1[c].interest == mem[c].interest && mem1[c].last == mem[c].last
  }

  lemma {:induction false} MovesKeepSettings(s: State, moves: seq<Move>)
    ensures SameSettings(s.mem, DoMoves(s, moves).mem)
  {
    if moves != [] { MovesKeepSettings(s, moves[..|moves| - 1]); }
  }

  lemma {:induction false} BatchKeepsSettings(s: State, c: Ctx, batch: seq<Entry>)
    ensures SameSettings(s.mem, DrainBatch(s, c, batch).mem)
    decreases |batch|
  {
    if batch != [] { BatchKeepsSettings(DrainEntry(s, c, batch[0]), c, batch[1..]); }
  }

  lemma {:induction false} DrainKeepsSettings(s: State, c: Ctx, rounds: seq<Round>)
    requires c in s.mem
    ensures SameSettings(s.mem, Drain(s, c, rounds).mem)
    decreases |rounds|
  {
    if s.mem[c].pending && rounds != [] {
      var s1 := DoMoves(s, rounds[0].moves);
      MovesKeepSettings(s, rounds[0].moves);
      var n := Taken(s1, rounds[0].take);
      BatchKeepsSettings(s1.(queue := s1.queue[n..]), c, s1.queue[..n]);
      DrainKeepsSettings(DrainRound(s, c, rounds[0]), c, rounds[1..]);
    }
  }

  /** `remove`: the handle's context is inactive, its outstanding poll is asked to be cancelled, and nothing else changes. */
  lemma RemoveEffect(s: State, h: Handle)
    requires Inv(s) && h in s.contexts
    ensures s.contexts[h] in s.mem
    ensures var r, c := Remove(s, h), s.contexts[h];
      && r.mem == s.mem[c := s.mem[c].(active := false)]
      && r.cancels == (if s.mem[c].pending then s.cancels + {s.mem[c].last} else s.cancels)
      && r.contexts == s.contexts && r.inflight == s.inflight && r.queue == s.queue && r.nextPoll == s.nextPoll
  {
    assert s.contexts[h] in s.mem;
    hide Inv;
  }

  /** After `remove`, whatever the kernel still completes, `wait` reports nothing for the handle's context. */
  lemma RemovedIsSilent(s: State, h: Handle, round: Round, pos: seq<nat>, k: nat)
    requires Inv(s) && h in s.contexts && k < |pos|
    requires var s1 := DoMoves(Remove(s, h), round.moves);
      TellsEach(s1.mem, s1.queue[..Taken(s1, round.take)], Wait(Remove(s, h), round).1, pos)
    ensures var s1 := DoMoves(Remove(s, h), round.moves);
      s1.queue[..Taken(s1, round.take)][pos[k]].poll.ctx != s.contexts[h]
  {
    RemoveEffect(s, h);
    MovesKeepSettings(Remove(s, h), round.moves);
  }

  // ---- The drain ----------------------------------------------------------------------------------------------------

  /** A drain pass settles a context if and only if it dequeues its completion and the context is the drained one or inactive. */
  lemma {:induction false} BatchSettlesIff(s: State, c: Ctx, batch: seq<Entry>, d: Ctx)
    requires d in s.mem
    ensures DrainBatch(s, c, batch).mem[d].active == s.mem[d].active
    ensures DrainBatch(s, c, batch).mem[d].pending <==>
      s.mem[d].pending && !(Mentions(batch, d) && (d == c || !s.mem[d].active))
    decreases |batch|
  {
    if batch != [] {
      BatchSettlesIff(DrainEntry(s, c, batch[0]), c, batch[1..], d);
      assert batch == [batch[0]] + batch[1..];
      assert Mentions(batch, d) <==> (batch[0].Done? && batch[0].poll.ctx == d) || Mentions(batch[1..], d) by {
        assert batch[0] in batch;
      }
    }
  }

  /** One pass of the drain settles the old poll if and only if it dequeues its completion. */
  lemma RoundSettlesIff(s: State, c: Ctx, round: Round)
    requires c in s.mem && s.mem[c].pending
    ensures var s1 := DoMoves(s, round.moves);
      DrainRound(s, c, round).mem[c].pending <==> !Mentions(s1.queue[..Taken(s1, round.take)], c)
  {
    var s1 := DoMoves(s, round.moves);
    var n := Taken(s1, round.take);
    MovesKeepPending(s, round.moves, c);
    BatchSettlesIff(s1.(queue := s1.queue[n..]), c, s1.queue[..n], c);
  }

  lemma {:induction false} MovesKeepPending(s: State, moves: seq<Move>, c: Ctx)
    requires c in s.mem
    ensures c in DoMoves(s, moves).mem && DoMoves(s, moves).mem[c].pending == s.mem[c].pending
  {
    if moves != [] { MovesKeepPending(s, moves[..|moves| - 1], c); }
  }

  /** The state after the passes, without any test. */
  function Passes(s: State, c: Ctx, rounds: seq<Round>): (r: State)
    ensures r.mem.Keys == s.mem.Keys
    decreases |rounds|
  {
    if rounds == [] then s else Passes(DrainRound(s, c, rounds[0]), c, rounds[1..])
  }

  /** The drain passes until the old poll is settled, not once more, and gives up only when no pass is left. */
  lemma {:induction false} DrainStopsWhenSettled(s: State, c: Ctx, rounds: seq<Round>) returns (k: nat)
    requires c in s.mem
    ensures k <= |rounds| && Drain(s, c, rounds) == Passes(s, c, rounds[..k])
    ensures forall i :: 0 <= i < k ==> Passes(s, c, rounds[..i]).mem[c].pending
    ensures k < |rounds| ==> !Drain(s, c, rounds).mem[c].pending
    decreases |rounds|
  {
    if !s.mem[c].pending || rounds == [] {
      k := 0;
    } else {
      hide DrainRound;
      var s1 := DrainRound(s, c, rounds[0]);
      var j := DrainStopsWhenSettled(s1, c, rounds[1..]);
      k := j + 1;
      assert rounds[..k][1..] == rounds[1..][..j];
      forall i | 0 <= i < k ensures Passes(s, c, rounds[..i]).mem[c].pending {
        if i > 0 {
          assert rounds[..i][1..] == rounds[1..][..i - 1];
          assert Passes(s, c, rounds[..i]) == Passes(s1, c, rounds[1..][..i - 1]);
        }
      }
    }
  }
}
