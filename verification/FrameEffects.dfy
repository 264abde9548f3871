/** What each step on coroutine frames does: who runs, who waits for whom, who owns what, and what it leaves alone. */
module FrameEffects {
  import opened Options
  import opened Frames
  import opened FrameSteps

  /** The frames are those of before, unchanged but for `a` and `b`. */
  predicate SameFramesBut(before: Frames, after: Frames, a: Id, b: Id) {
    after.Keys == before.Keys && forall f :: f in before && f != a && f != b ==> after[f] == before[f]
  }

  /**
    `co_await`: a done child is not waited for. Otherwise the awaiter waits for the child, which will jump back to it;
    a task is entered in its place, a runner is left as it is.
  */
  lemma AwaitEffect(s: State, o: Obj, g: Id)
    requires Inv(s) && CanStep(s, Await(o)) && s.objs[o].target == Some(g) && Safe(s, Await(o)) && g != Top(s)
    ensures var n, t := DoStep(s, Await(o)), Top(s);
      && g in s.frames && t in s.frames
      && (s.frames[g].phase.Done? ==> n == s)
      && (!s.frames[g].phase.Done? ==>
            && n.objs == s.objs && n.ever == s.ever && SameFramesBut(s.frames, n.frames, t, g)
            && n.frames[t] == s.frames[t].(phase := Awaiting(g))
            && n.frames[g].continuation == Some(t)
            && n.frames[g].runner == s.frames[g].runner && n.frames[g].selfOwned == s.frames[g].selfOwned
            && (if s.frames[g].runner then n.stack == Pop(s.stack) && n.frames[g].phase == s.frames[g].phase
                else n.stack == Pop(s.stack) + [g] && n.frames[g].phase == Running))
  {
    TopRuns(s);
    hide Inv;
  }

  /** A task that is awaited and completes gives control back to where it was, done, with everything else as before. */
  lemma AwaitAndReturn(s: State, o: Obj, g: Id)
    requires Inv(s) && CanStep(s, Await(o)) && s.objs[o].target == Some(g) && g in s.frames && s.frames[g].phase.Fresh? && !s.frames[g].runner
    ensures CanStep(DoStep(s, Await(o)), Complete)
    ensures var n := DoStep(DoStep(s, Await(o)), Complete);
      && !n.fault && n.stack == s.stack && n.objs == s.objs
      && n.frames == s.frames[g := s.frames[g].(phase := Done, continuation := Some(Top(s)))]
  {
    var t := Top(s);
    EnterTask(s, o, g);
    hide Inv, DoStep;
    var m := DoStep(s, Await(o));
    assert Pop(m.stack) == Pop(s.stack);
    CompleteEffect(m, g, t);
    ThereAndBack(s.frames, t, g);
  }

  /** Entering a fresh task, in full. */
  lemma EnterTask(s: State, o: Obj, g: Id)
    requires Inv(s) && CanStep(s, Await(o)) && s.objs[o].target == Some(g) && g in s.frames && s.frames[g].phase.Fresh? && !s.frames[g].runner
    ensures var t := Top(s);
      && t in s.frames && t != g && s.frames[t].phase == Running && !s.frames[g].selfOwned && !s.fault
      && s.stack == Pop(s.stack) + [t]
      && DoStep(s, Await(o)) == s.(stack := Pop(s.stack) + [g], frames := Entered(s.frames, t, g))
  {
    TopRuns(s);
    assert Owns(s.objs, o, g);
    assert HandlesOk(s.objs, s.frames);
    hide Inv;
  }

  function Entered(frames: Frames, t: Id, g: Id): Frames
    requires t in frames && g in frames && t != g
  {
    frames[t := frames[t].(phase := Awaiting(g))][g := frames[g].(phase := Running, continuation := Some(t))]
  }

  lemma ThereAndBack(frames: Frames, t: Id, g: Id)
    requires t in frames && g in frames && t != g && frames[t].phase == Running
    ensures var m := Entered(frames, t, g);
      m[g := m[g].(phase := Done)][t := m[t].(phase := Running)] == frames[g := frames[g].(phase := Done, continuation := Some(t))]
  {
  }

  /** A frame with a handle that completes is done, and the frame that waits for it runs in its place. */
  lemma CompleteEffect(s: State, g: Id, t: Id)
    requires s.stack != [] && Top(s) == g && g in s.frames && t in s.frames && t != g
    requires !s.frames[g].selfOwned && s.frames[g].continuation == Some(t) && s.frames[t].phase == Awaiting(g)
    ensures CanStep(s, Complete)
    ensures DoStep(s, Complete) == s.(stack := Pop(s.stack) + [t],
      frames := s.frames[g := s.frames[g].(phase := Done)][t := s.frames[t].(phase := Running)])
  {
  }

  /** Parking takes the running frame off the stack; resuming it later, with nothing else running, puts it back. */
  lemma ParkThenResume(s: State, t: Id)
    requires Inv(s) && s.stack == [t]
    ensures var n := DoStep(s, Park);
      && n.stack == [] && n.objs == s.objs && n.frames == s.frames[t := s.frames[t].(phase := Parked)]
      && CanStep(n, Resume(t)) && DoStep(n, Resume(t)) == s
  {
    TopRuns(s);
    hide Inv;
    assert s.frames[t := s.frames[t].(phase := Parked)][t := s.frames[t]] == s.frames;
  }

  /** Detaching empties the handle; the task owns itself and runs. */
  lemma DetachEffect(s: State, o: Obj, g: Id)
    requires Inv(s) && CanStep(s, Detach(o)) && s.objs[o].target == Some(g) && Safe(s, Detach(o))
    ensures var n := DoStep(s, Detach(o));
      && g in s.frames && n.stack == s.stack + [g]
      && n.frames == s.frames[g := s.frames[g].(selfOwned := true, phase := Running)]
      && !HasHandle(n.objs, g) && n.objs.Keys == s.objs.Keys && forall p :: p in s.objs && p != o ==> n.objs[p] == s.objs[p]
  {
    assert Owns(s.objs, o, g);
    var n := DoStep(s, Detach(o));
    assert forall p :: Owns(n.objs, p, g) ==> p != o && Owns(s.objs, p, g);
    hide Inv;
  }

  /** After a move the destination owns what the source owned, and the source nothing; moving back undoes it. */
  lemma MoveEffect(s: State, src: Obj, dst: Obj)
    requires CanStep(s, MoveInto(src, dst))
    ensures var n := DoStep(s, MoveInto(src, dst));
      && n.objs[dst].target == s.objs[src].target && n.objs[src].target == None
      && (forall o, g :: o != src && o != dst ==> (Owns(n.objs, o, g) <==> Owns(s.objs, o, g)))
      && (forall o :: o in s.objs ==> o in n.objs && n.objs[o].home == s.objs[o].home)
      && n.frames == s.frames && n.stack == s.stack
      && CanStep(n, MoveInto(dst, src)) && DoStep(n, MoveInto(dst, src)) == s
  {
    var n := DoStep(s, MoveInto(src, dst));
    assert DoStep(n, MoveInto(dst, src)).objs == s.objs;
  }

  /** A call of a coroutine: the new frame has the new handle, the handles passed to it live in it, and it has not started. */
  lemma CreateEffect(s: State, f: Id, o: Obj, args: set<Obj>, outside: bool)
    requires CanStep(s, Create(f, o, args, outside))
    ensures var n := DoStep(s, Create(f, o, args, outside));
      && Owns(n.objs, o, f) && n.frames == s.frames[f := Frame(false, Fresh, false, None)] && n.stack == s.stack
      && n.objs[o].home == (if outside then None else Here(s))
      && (forall a :: a in args ==> n.objs[a] == s.objs[a].(home := Some(f)))
      && (forall p :: p in s.objs && p !in args ==> n.objs[p] == s.objs[p])
  {
  }

  /** `spawn`: the same, but the frame is a runner and runs on top of its caller. */
  lemma SpawnEffect(s: State, f: Id, o: Obj, args: set<Obj>, outside: bool)
    requires CanStep(s, Spawn(f, o, args, outside))
    ensures var n := DoStep(s, Spawn(f, o, args, outside));
      && Owns(n.objs, o, f) && n.frames == s.frames[f := Frame(true, Running, false, None)] && n.stack == s.stack + [f]
      && n.objs[o].home == (if outside then None else Here(s))
      && (forall a :: a in args ==> n.objs[a] == s.objs[a].(home := Some(f)))
      && (forall p :: p in s.objs && p !in args ==> n.objs[p] == s.objs[p])
  {
  }

  /** Dropping a handle empties it. A runner under way goes on, self-owned; any other frame is gone. */
  lemma ClearEffect(s: State, o: Obj, g: Id)
    requires Inv(s) && CanStep(s, Clear(o)) && s.objs[o].target == Some(g) && Safe(s, Clear(o))
    ensures var n := DoStep(s, Clear(o));
      && n.stack == s.stack && n.ever == s.ever && !HasHandle(n.objs, g)
      && (KeepsRunning(s, g) ==> g in n.frames && n.frames == s.frames[g := s.frames[g].(selfOwned := true)])
      && (!KeepsRunning(s, g) ==> g !in n.frames && n.frames.Keys <= s.frames.Keys)
  {
    var s1, n := s.(objs := Emptied(s.objs, o)), DoStep(s, Clear(o));
    EmptiedKeeps(s, o, g);
    ClearExact(s, o);
    if !KeepsRunning(s, g) {
      EmptiedAtRest(s, o, g);
      var d: set<Id> :| g in d && Harmless(s1, d);
      DestroyKeeps(s1, {g}, d);
      OrphansHaveNoHandle(n, g);
    } else {
      assert !HasHandle(s1.objs, g);
    }
  }

  lemma OrphansHaveNoHandle(s: State, g: Id)
    requires Inv(s) && g !in s.frames
    ensures !HasHandle(s.objs, g)
  {
    assert HandlesOk(s.objs, s.frames);
  }

  /** A frame with a handle that nobody awaits just stops, done. */
  lemma FinishEffect(s: State)
    requires Inv(s) && CanStep(s, Complete) && !s.frames[Top(s)].selfOwned && s.frames[Top(s)].continuation.None?
    ensures var n, t := DoStep(s, Complete), Top(s);
      n == s.(frames := s.frames[t := s.frames[t].(phase := Done)], stack := Pop(s.stack))
  {
    TopRuns(s);
  }

  /** A task resumed through its raw handle runs, and keeps its handle. */
  lemma StartEffect(s: State, o: Obj, g: Id)
    requires CanStep(s, Start(o)) && TargetFresh(s, o) && s.objs[o].target == Some(g)
    ensures DoStep(s, Start(o)) == s.(frames := s.frames[g := s.frames[g].(phase := Running)], stack := s.stack + [g])
  {
  }
}
