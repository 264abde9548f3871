/** Coroutine frames and the handle objects that own them, updated in place as `Task` and `SpawnHandle` do. */
module FrameHeaps {
  import opened Options
  import opened Frames
  import opened FrameSteps

  class FrameHeap {
    var frames: Frames
    var objs: Handles
    var stack: seq<Id>
    ghost var ever: set<Id>

    ghost function Abs(): State
      reads this
    {
      State(frames, objs, stack, ever, false)
    }

    constructor ()
      ensures Abs() == INITIAL && Inv(Abs())
    {
      frames, objs, stack, ever := map[], map[], [], {};
    }

    /** A call of a coroutine that returns a `Task`; the frame does not start. */
    method Create(f: Id, o: Obj, args: set<Obj>, outside: bool)
      requires Inv(Abs()) && CanStep(Abs(), Step.Create(f, o, args, outside))
      modifies this
      ensures Inv(Abs()) && Abs() == DoStep(old(Abs()), Step.Create(f, o, args, outside))
    {
      hide Inv, CanStep;
      CreateKeeps(Abs(), f, o, args, outside);
      var here := if stack == [] then None else Some(stack[|stack| - 1]);
      objs := Rehomed(objs, args, f)[o := Handle(Some(f), if outside then None else here)];
      frames := frames[f := Frame(false, Fresh, false, None)];
      ever := ever + {f};
    }

    /** `spawn`: the runner takes the task as its parameter and runs at once. */
    method Spawn(f: Id, o: Obj, args: set<Obj>, outside: bool)
      requires Inv(Abs()) && CanStep(Abs(), Step.Spawn(f, o, args, outside))
      modifies this
      ensures Inv(Abs()) && Abs() == DoStep(old(Abs()), Step.Spawn(f, o, args, outside))
    {
      hide Inv, CanStep;
      SpawnKeeps(Abs(), f, o, args, outside);
      var here := if stack == [] then None else Some(stack[|stack| - 1]);
      objs := Rehomed(objs, args, f)[o := Handle(Some(f), if outside then None else here)];
      frames := frames[f := Frame(true, Running, false, None)];
      stack := stack + [f];
      ever := ever + {f};
    }

    /** `coroutine_handle::destroy`: the frame goes, with the handles inside it, and so on for what those owned. */
    method DestroyFrame(g: Id)
      requires InvWith(Abs(), {g}) && AtRest(Abs(), g)
      modifies this
      ensures Inv(Abs()) && Abs() == Destroy(old(Abs()), {g})
    {
      hide InvWith, Harmless, BadToDestroy;
      ghost var d: set<Id> :| g in d && Harmless(Abs(), d);
      var gone := {g};
      while gone != {}
        invariant gone <= d && Harmless(Abs(), d) && InvWith(Abs(), gone)
        invariant Destroy(Abs(), gone) == Destroy(old(Abs()), {g})
        decreases |frames|
      {
        ghost var s := Abs();
        NotBad(s, gone, d);
        WaveShrinks(s, gone);
        WaveKeeps(s, gone);
        WaveHarmless(s, gone, d);
        var dying := Dying(objs, gone);
        var bereft := set o | o in dying && objs[o].target.Some? :: objs[o].target.value;
        var kids := set h | h in bereft && h in frames && DiesWithHandle(frames[h]);
        frames := map h | h in frames && h !in gone ::
          if h in bereft && !DiesWithHandle(frames[h]) then frames[h].(selfOwned := true) else frames[h];
        objs := map o | o in objs && o !in dying :: objs[o];
        assert Abs() == Wave(s, gone);
        gone := kids;
      }
    }

    /** `~Task` and `SpawnHandle::release`. */
    method Release(o: Obj)
      requires Inv(Abs()) && CanStep(Abs(), Clear(o)) && Safe(Abs(), Clear(o))
      modifies this
      ensures Inv(Abs()) && Abs() == DoStep(old(Abs()), Clear(o))
    {
      ghost var s := Abs();
      ClearExact(s, o);
      if objs[o].target.Some? {
        var g := objs[o].target.value;
        EmptiedKeeps(s, o, g);
        EmptiedAtRest(s, o, g);
        objs := objs[o := objs[o].(target := None)];
        if !frames[g].runner || frames[g].phase.Done? {
          DestroyFrame(g);
        } else {
          frames := frames[g := frames[g].(selfOwned := true)];
        }
      }
    }

    /** Move construction: `dst` is new and empty. */
    method MoveInto(src: Obj, dst: Obj)
      requires Inv(Abs()) && CanStep(Abs(), Step.MoveInto(src, dst))
      modifies this`objs
      ensures Inv(Abs()) && Abs() == DoStep(old(Abs()), Step.MoveInto(src, dst))
    {
      MoveKeeps(Abs(), src, dst);
      objs := objs[dst := objs[dst].(target := objs[src].target)][src := objs[src].(target := None)];
    }

    /** Move assignment; assigning a handle to itself does nothing. */
    method MoveAssign(src: Obj, dst: Obj)
      requires Inv(Abs()) && CanTouch(Abs(), src) && CanStep(Abs(), Clear(dst)) && Safe(Abs(), Clear(dst))
      modifies this
      ensures Inv(Abs())
      ensures src == dst ==> Abs() == old(Abs())
      ensures src != dst ==>
        var s := DoStep(old(Abs()), Clear(dst));
        CanStep(s, Step.MoveInto(src, dst)) && Abs() == DoStep(s, Step.MoveInto(src, dst))
    {
      if src != dst {
        ReleaseSpares(Abs(), dst, src);
        ReleaseSpares(Abs(), dst, dst);
        Release(dst);
        MoveInto(src, dst);
      }
    }

    /** `co_await`: a done child is not waited for, a task is entered by symmetric transfer, a runner is left alone. */
    method Await(o: Obj)
      requires Inv(Abs()) && CanStep(Abs(), Step.Await(o)) && Safe(Abs(), Step.Await(o))
      modifies this
      ensures Inv(Abs()) && Abs() == DoStep(old(Abs()), Step.Await(o))
    {
      hide InvWith;
      ghost var s := Abs();
      AwaitExact(s, o);
      TopLives(s);
      var g := objs[o].target.value;
      if !frames[g].phase.Done? {
        var t := stack[|stack| - 1];
        frames := frames[t := frames[t].(phase := Awaiting(g))];
        frames := frames[g := frames[g].(continuation := Some(t))];
        stack := stack[..|stack| - 1];
        assert Abs() == s.(frames := Suspended(s.frames, t, g), stack := Pop(s.stack));
        if !frames[g].runner {
          frames := frames[g := frames[g].(phase := Running)];
          stack := stack + [g];
        }
      }
    }

    method Detach(o: Obj)
      requires Inv(Abs()) && CanStep(Abs(), Step.Detach(o)) && Safe(Abs(), Step.Detach(o))
      modifies this
      ensures Inv(Abs()) && Abs() == DoStep(old(Abs()), Step.Detach(o))
    {
      DetachExact(Abs(), o);
      if objs[o].target.Some? {
        var g := objs[o].target.value;
        objs := objs[o := objs[o].(target := None)];
        frames := frames[g := frames[g].(selfOwned := true, phase := Running)];
        stack := stack + [g];
      }
    }

    /** The final awaiter: a self-owned frame destroys itself, any other jumps to its continuation if it has one. */
    method FinalSuspend()
      requires Inv(Abs()) && CanStep(Abs(), Complete) && Safe(Abs(), Complete)
      modifies this
      ensures Inv(Abs()) && Abs() == DoStep(old(Abs()), Complete)
    {
      ghost var s := Abs();
      CompleteExact(s);
      TopRuns(s);
      var t := stack[|stack| - 1];
      frames := frames[t := frames[t].(phase := Done)];
      stack := stack[..|stack| - 1];
      assert Abs() == Finish(s, t);
      if frames[t].selfOwned {
        FinishOwned(s, t);
        DestroyFrame(t);
      } else if frames[t].continuation.Some? {
        var c := frames[t].continuation.value;
        frames := frames[c := frames[c].(phase := Running)];
        stack := stack + [c];
      }
    }
  }

  lemma TopLives(s: State)
    requires Inv(s) && s.stack != []
    ensures Top(s) in s.frames && s.frames[Top(s)].phase.Running?
  {
    TopRuns(s);
  }

  /** Releasing one handle leaves every handle that running code can reach where it is. */
  lemma ReleaseSpares(s: State, o: Obj, p: Obj)
    requires Inv(s) && CanStep(s, Clear(o)) && Safe(s, Clear(o)) && CanTouch(s, p)
    ensures var n := DoStep(s, Clear(o));
      CanTouch(n, p) && n.objs[p] == if p == o then s.objs[p].(target := None) else s.objs[p]
  {
    if s.objs[o].target.Some? {
      var g := s.objs[o].target.value;
      if KeepsRunning(s, g) {
      } else {
        DestroySpares(s, o, g, p);
      }
    }
  }

  lemma DestroySpares(s: State, o: Obj, g: Id, p: Obj)
    requires Inv(s) && CanTouch(s, o) && s.objs[o].target == Some(g) && AtRest(s, g) && CanTouch(s, p)
    ensures var s1 := s.(objs := Emptied(s.objs, o));
      var n := Destroy(s1, {g});
      n.stack == s.stack && p in n.objs && n.objs[p] == s1.objs[p]
  {
    var s1 := s.(objs := Emptied(s.objs, o));
    EmptiedKeeps(s, o, g);
    EmptiedAtRest(s, o, g);
    TouchedIsReachable(s, p);
    if s.stack != [] {
      TopRuns(s);
    }
    var d: set<Id> :| g in d && Harmless(s1, d);
    DestroyKeeps(s1, {g}, d);
    assert p !in Dying(s1.objs, d);
  }
}
