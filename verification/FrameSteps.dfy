/**
  Every step on coroutine frames keeps the ownership invariant exactly when it is used as `Safe` says; `Safe` looks at
  the state before the step only.
*/
module FrameSteps {
  import opened Options
  import opened Frames

  /**
    What the code relies on: a frame that dies with its handle is at rest with all it owns, a task is entered once, and
    an empty handle is not awaited.
  */
  ghost predicate Safe(s: State, step: Step)
    requires CanStep(s, step)
  {
    match step
    case Clear(o) => s.objs[o].target.Some? ==> KeepsRunning(s, s.objs[o].target.value) || AtRest(s, s.objs[o].target.value)
    case Await(o) => s.objs[o].target.Some? && CanBeAwaited(s, s.objs[o].target.value)
    case Detach(o) => s.objs[o].target.Some? ==> TargetFresh(s, o)
    case Start(o) => TargetFresh(s, o)
    case Complete => var t := Top(s); t in s.frames && s.frames[t].selfOwned ==> AtRest(Finish(s, t), t)
    case _ => true
  }

  function Top(s: State): Id
    requires s.stack != []
  {
    s.stack[|s.stack| - 1]
  }

  /** A runner that is not done outlives its handle. */
  predicate KeepsRunning(s: State, g: Id) {
    g in s.frames && !DiesWithHandle(s.frames[g])
  }

  /** A done frame, a runner, or a task not yet started. */
  predicate CanBeAwaited(s: State, g: Id) {
    g in s.frames && (s.frames[g].phase.Done? || s.frames[g].runner || s.frames[g].phase.Fresh?)
  }

  // ---- The stack -----------------------------------------------------------------------------------------------------

  lemma TopRuns(s: State)
    requires StackOk(s.frames, s.stack) && s.stack != []
    ensures Top(s) in s.frames && s.frames[Top(s)].phase.Running?
    ensures Top(s) !in Pop(s.stack) && Distinct(Pop(s.stack))
    ensures forall f :: f in s.stack <==> f in Pop(s.stack) || f == Top(s)
  {
    assert s.stack == Pop(s.stack) + [Top(s)];
  }

  /** The same frames run, but perhaps for `t`. */
  predicate SameRunningBut(frames: Frames, frames1: Frames, t: Id) {
    frames1.Keys == frames.Keys && forall f :: f in frames && f != t ==> (frames1[f].phase.Running? <==> frames[f].phase.Running?)
  }

  /** The top frame stops running and leaves the stack. */
  lemma StackPops(s: State, frames1: Frames)
    requires StackOk(s.frames, s.stack) && s.stack != []
    requires SameRunningBut(s.frames, frames1, Top(s)) && Top(s) in frames1 && !frames1[Top(s)].phase.Running?
    ensures StackOk(frames1, Pop(s.stack))
  {
    TopRuns(s);
  }

  /** A frame starts to run and goes on top. */
  lemma StackPushes(frames: Frames, stack: seq<Id>, frames1: Frames, f: Id)
    requires StackOk(frames, stack) && f in frames && !frames[f].phase.Running?
    requires SameRunningBut(frames, frames1, f) && frames1[f].phase.Running?
    ensures StackOk(frames1, stack + [f])
  {
    assert forall g :: g in stack + [f] <==> g in stack || g == f;
  }

  // ---- One lemma per step --------------------------------------------------------------------------------------------

  lemma NewFrameKeeps(s: State, f: Id, o: Obj, args: set<Obj>, outside: bool, fr: Frame)
    requires Inv(s) && CanStep(s, Create(f, o, args, outside))
    requires !fr.selfOwned && fr.continuation.None? && (fr.phase.Fresh? || fr.phase.Running?) && (fr.runner ==> fr.phase.Running?)
    ensures var n := NewFrame(s, f, o, args, outside, fr);
      && HandlesOk(n.objs, n.frames) && OneHandleEach(n.objs) && OwnersOk(n.objs, n.frames, {})
      && WaitsOk(n.objs, n.frames) && JumpsOk(n.frames, {}) && n.frames.Keys <= n.ever
  {
    var n := NewFrame(s, f, o, args, outside, fr);
    NewHandles(s, f, o, args, outside, fr);
    assert OwnersOk(n.objs, n.frames, {}) by {
      assert Owns(n.objs, o, f);
      assert forall p, g :: Owns(s.objs, p, g) ==> Owns(n.objs, p, g);
    }
    NewWaits(s, f, o, args, outside, fr);
    assert JumpsOk(n.frames, {});
  }

  lemma NewHandles(s: State, f: Id, o: Obj, args: set<Obj>, outside: bool, fr: Frame)
    requires Inv(s) && CanStep(s, Create(f, o, args, outside)) && !fr.selfOwned
    ensures var n := NewFrame(s, f, o, args, outside, fr); HandlesOk(n.objs, n.frames) && OneHandleEach(n.objs)
  {
    if s.stack != [] {
      TopRuns(s);
    }
    RehomedHandles(s.objs, s.frames, args, f, fr);
    hide WaitsOk, OwnersOk, JumpsOk, StackOk;
  }

  /** Handles that move into the new frame still own what they owned. */
  lemma RehomedHandles(objs: Handles, frames: Frames, args: set<Obj>, f: Id, fr: Frame)
    requires HandlesOk(objs, frames) && OneHandleEach(objs) && f !in frames
    ensures HandlesOk(Rehomed(objs, args, f), frames[f := fr]) && OneHandleEach(Rehomed(objs, args, f))
    ensures forall o :: o in Rehomed(objs, args, f) ==> Rehomed(objs, args, f)[o].target != Some(f)
  {
  }

  lemma NewWaits(s: State, f: Id, o: Obj, args: set<Obj>, outside: bool, fr: Frame)
    requires Inv(s) && CanStep(s, Create(f, o, args, outside)) && !fr.phase.Awaiting?
    ensures var n := NewFrame(s, f, o, args, outside, fr); WaitsOk(n.objs, n.frames)
  {
    var n := NewFrame(s, f, o, args, outside, fr);
    if s.stack != [] {
      TopRuns(s);
    }
    forall t | t in n.frames && n.frames[t].phase.Awaiting?
      ensures HoldsHandle(n.objs, t, n.frames[t].phase.child)
    {
      var p :| Owns(s.objs, p, s.frames[t].phase.child) && s.objs[p].home == Some(t);
      assert p !in args;
      assert Owns(n.objs, p, s.frames[t].phase.child);
    }
  }

  lemma CreateKeeps(s: State, f: Id, o: Obj, args: set<Obj>, outside: bool)
    requires Inv(s) && CanStep(s, Create(f, o, args, outside))
    ensures Inv(DoStep(s, Create(f, o, args, outside)))
  {
    var fr := Frame(false, Fresh, false, None);
    NewFrameKeeps(s, f, o, args, outside, fr);
    hide HandlesOk, OneHandleEach, OwnersOk, WaitsOk, JumpsOk;
    assert StackOk(NewFrame(s, f, o, args, outside, fr).frames, s.stack);
  }

  lemma SpawnKeeps(s: State, f: Id, o: Obj, args: set<Obj>, outside: bool)
    requires Inv(s) && CanStep(s, Spawn(f, o, args, outside))
    ensures Inv(DoStep(s, Spawn(f, o, args, outside)))
  {
    var fr := Frame(true, Running, false, None);
    NewFrameKeeps(s, f, o, args, outside, fr);
    hide HandlesOk, OneHandleEach, OwnersOk, WaitsOk, JumpsOk;
    assert StackOk(NewFrame(s, f, o, args, outside, Frame(true, Parked, false, None)).frames, s.stack);
    StackPushes(NewFrame(s, f, o, args, outside, Frame(true, Parked, false, None)).frames, s.stack,
                NewFrame(s, f, o, args, outside, fr).frames, f);
  }

  /** Handles inside suspended awaiters are out of everyone's reach. */
  predicate Reachable(objs: Handles, frames: Frames, o: Obj) {
    o in objs && !(objs[o].home.Some? && objs[o].home.value in frames && frames[objs[o].home.value].phase.Awaiting?)
  }

  lemma TouchedIsReachable(s: State, o: Obj)
    requires StackOk(s.frames, s.stack) && CanTouch(s, o)
    ensures Reachable(s.objs, s.frames, o)
    ensures s.objs[o].home.Some? ==> s.stack != [] && s.objs[o].home.value == Top(s)
  {
    if s.stack != [] {
      TopRuns(s);
    }
  }

  lemma WaitsKept(objs: Handles, objs1: Handles, frames: Frames)
    requires WaitsOk(objs, frames)
    requires forall o :: o in objs ==> Reachable(objs, frames, o) || (o in objs1 && objs1[o] == objs[o])
    ensures WaitsOk(objs1, frames)
  {
    forall t | t in frames && frames[t].phase.Awaiting?
      ensures HoldsHandle(objs1, t, frames[t].phase.child)
    {
      var p :| Owns(objs, p, frames[t].phase.child) && objs[p].home == Some(t);
      assert Owns(objs1, p, frames[t].phase.child);
    }
  }

  lemma MoveKeeps(s: State, src: Obj, dst: Obj)
    requires Inv(s) && CanStep(s, MoveInto(src, dst))
    ensures Inv(DoStep(s, MoveInto(src, dst)))
  {
    var n := DoStep(s, MoveInto(src, dst));
    TouchedIsReachable(s, src);
    TouchedIsReachable(s, dst);
    WaitsKept(s.objs, n.objs, s.frames);
    MoveOwners(s.objs, src, dst, s.frames);
    hide HandlesOk, OneHandleEach, OwnersOk, WaitsOk, JumpsOk, StackOk;
  }

  lemma MoveOwners(objs: Handles, src: Obj, dst: Obj, frames: Frames)
    requires src in objs && dst in objs && src != dst && objs[dst].target.None?
    requires HandlesOk(objs, frames) && OneHandleEach(objs) && OwnersOk(objs, frames, {})
    ensures var objs1 := objs[dst := objs[dst].(target := objs[src].target)][src := objs[src].(target := None)];
      HandlesOk(objs1, frames) && OneHandleEach(objs1) && OwnersOk(objs1, frames, {})
  {
    var objs1 := objs[dst := objs[dst].(target := objs[src].target)][src := objs[src].(target := None)];
    forall g | HasHandle(objs, g)
      ensures HasHandle(objs1, g)
    {
      var o :| Owns(objs, o, g);
      assert Owns(objs1, if o == src then dst else o, g);
    }
  }

  lemma ForgetKeeps(s: State, o: Obj)
    requires Inv(s) && CanStep(s, Forget(o))
    ensures Inv(DoStep(s, Forget(o)))
  {
    var n := DoStep(s, Forget(o));
    assert forall p, g :: Owns(s.objs, p, g) ==> Owns(n.objs, p, g);
    assert forall t, g :: HoldsHandle(s.objs, t, g) ==> HoldsHandle(n.objs, t, g);
  }

  /** The handle `o` lets go of its frame, which becomes an orphan. */
  function Emptied(objs: Handles, o: Obj): Handles
    requires o in objs
  {
    objs[o := objs[o].(target := None)]
  }

  lemma EmptiedOwners(objs: Handles, o: Obj, g: Id, frames: Frames)
    requires HandlesOk(objs, frames) && OneHandleEach(objs) && OwnersOk(objs, frames, {}) && Owns(objs, o, g)
    ensures HandlesOk(Emptied(objs, o), frames) && OneHandleEach(Emptied(objs, o))
    ensures OwnersOk(Emptied(objs, o), frames, {g})
  {
    var objs1 := Emptied(objs, o);
    forall h | HasHandle(objs, h) && h != g
      ensures HasHandle(objs1, h)
    {
      var p :| Owns(objs, p, h);
      assert Owns(objs1, p, h);
    }
    assert forall p :: Owns(objs1, p, g) ==> p != o && Owns(objs, p, g);
  }

  lemma EmptiedKeeps(s: State, o: Obj, g: Id)
    requires Inv(s) && CanTouch(s, o) && s.objs[o].target == Some(g)
    ensures InvWith(s.(objs := Emptied(s.objs, o)), {g})
  {
    TouchedIsReachable(s, o);
    EmptiedOwners(s.objs, o, g, s.frames);
    WaitsKept(s.objs, Emptied(s.objs, o), s.frames);
    hide HandlesOk, OneHandleEach, OwnersOk, WaitsOk, StackOk;
  }

  /** Emptying a handle that running code can reach does not change what is at rest. */
  lemma EmptiedAtRest(s: State, o: Obj, g: Id)
    requires Inv(s) && CanTouch(s, o)
    ensures AtRest(s.(objs := Emptied(s.objs, o)), g) <==> AtRest(s, g)
  {
    var s1 := s.(objs := Emptied(s.objs, o));
    TouchedIsReachable(s, o);
    if s.stack != [] {
      TopRuns(s);
    }
    forall d: set<Id>
      ensures Harmless(s1, d) <==> Harmless(s, d)
    {
      EmptiedHarmless(s, o, d);
    }
  }

  lemma EmptiedHarmless(s: State, o: Obj, d: set<Id>)
    requires o in s.objs
    requires s.objs[o].home.Some? ==> s.objs[o].home.value in s.frames && s.frames[s.objs[o].home.value].phase.Running?
    ensures Harmless(s.(objs := Emptied(s.objs, o)), d) <==> Harmless(s, d)
  {
    var objs1 := Emptied(s.objs, o);
    assert Dying(objs1, d) == Dying(s.objs, d);
    assert forall p, h :: p != o ==> (Owns(objs1, p, h) <==> Owns(s.objs, p, h));
  }

  lemma ClearExact(s: State, o: Obj)
    requires Inv(s) && CanStep(s, Clear(o))
    ensures DoStep(s, Clear(o)).fault <==> !Safe(s, Clear(o))
    ensures Safe(s, Clear(o)) ==> Inv(DoStep(s, Clear(o)))
  {
    if s.objs[o].target.Some? {
      var g := s.objs[o].target.value;
      var s1 := s.(objs := Emptied(s.objs, o));
      EmptiedKeeps(s, o, g);
      assert g in s.frames by { assert HandlesOk(s.objs, s.frames); }
      if KeepsRunning(s, g) {
        DropKeeps(s1, g);
      } else {
        EmptiedAtRest(s, o, g);
        DestroyExact(s1, g);
      }
    }
  }

  /** A frame without a handle that is under way takes over itself. */
  lemma OwnItself(objs: Handles, frames: Frames, g: Id)
    requires HandlesOk(objs, frames) && OwnersOk(objs, frames, {g}) && g in frames
    requires !frames[g].phase.Done? && !frames[g].phase.Fresh?
    ensures var frames1 := frames[g := frames[g].(selfOwned := true)];
      HandlesOk(objs, frames1) && OwnersOk(objs, frames1, {})
  {
    assert forall o :: !Owns(objs, o, g);
    assert forall o :: o in objs && objs[o].target.Some? ==> Owns(objs, o, objs[o].target.value);
  }

  lemma OwnItselfWaits(objs: Handles, frames: Frames, g: Id)
    requires WaitsOk(objs, frames) && JumpsOk(frames, {g}) && g in frames
    ensures var frames1 := frames[g := frames[g].(selfOwned := true)];
      WaitsOk(objs, frames1) && JumpsOk(frames1, {})
  {
  }

  /** A runner that is not done takes over its own frame. */
  lemma DropKeeps(s: State, g: Id)
    requires InvWith(s, {g}) && g in s.frames && !DiesWithHandle(s.frames[g])
    ensures Inv(Lose(s, g))
  {
    assert !s.frames[g].phase.Fresh?;
    OwnItself(s.objs, s.frames, g);
    OwnItselfWaits(s.objs, s.frames, g);
    hide HandlesOk, OneHandleEach, OwnersOk, WaitsOk, JumpsOk;
    assert StackOk(Lose(s, g).frames, s.stack);
  }

  // ---- Phase changes -------------------------------------------------------------------------------------------------

  /** Moving frame `t` between phases that neither wait nor end disturbs no owner and no waiter. */
  lemma PhaseKeeps(objs: Handles, frames: Frames, t: Id, phase: Phase)
    requires HandlesOk(objs, frames) && OwnersOk(objs, frames, {}) && WaitsOk(objs, frames) && JumpsOk(frames, {})
    requires t in frames && !frames[t].phase.Done? && !frames[t].phase.Awaiting?
    requires phase.Running? || phase.Parked?
    ensures var frames1 := SetPhase(frames, t, phase);
      HandlesOk(objs, frames1) && OwnersOk(objs, frames1, {}) && WaitsOk(objs, frames1) && JumpsOk(frames1, {})
  {
  }

  lemma ParkKeeps(s: State)
    requires Inv(s) && CanStep(s, Park)
    ensures Inv(DoStep(s, Park))
  {
    TopRuns(s);
    PhaseKeeps(s.objs, s.frames, Top(s), Parked);
    StackPops(s, SetPhase(s.frames, Top(s), Parked));
    hide HandlesOk, OneHandleEach, OwnersOk, WaitsOk, JumpsOk, StackOk;
  }

  lemma EnterKeeps(s: State, f: Id)
    requires Inv(s) && f in s.frames && (s.frames[f].phase.Parked? || s.frames[f].phase.Fresh?)
    ensures Inv(s.(frames := SetPhase(s.frames, f, Running), stack := s.stack + [f]))
  {
    PhaseKeeps(s.objs, s.frames, f, Running);
    StackPushes(s.frames, s.stack, SetPhase(s.frames, f, Running), f);
    hide HandlesOk, OneHandleEach, OwnersOk, WaitsOk, JumpsOk, StackOk;
  }

  lemma DetachExact(s: State, o: Obj)
    requires Inv(s) && CanStep(s, Detach(o))
    ensures DoStep(s, Detach(o)).fault <==> !Safe(s, Detach(o))
    ensures Safe(s, Detach(o)) ==> Inv(DoStep(s, Detach(o)))
  {
    if s.objs[o].target.Some? && TargetFresh(s, o) {
      var g := s.objs[o].target.value;
      DetachKeeps(s, o, g);
    }
  }

  lemma DetachKeeps(s: State, o: Obj, g: Id)
    requires Inv(s) && CanTouch(s, o) && s.objs[o].target == Some(g) && g in s.frames && s.frames[g].phase.Fresh?
    ensures Inv(s.(objs := Emptied(s.objs, o), frames := s.frames[g := s.frames[g].(selfOwned := true, phase := Running)],
                   stack := s.stack + [g]))
  {
    EnterKeeps(s, g);
    var s1 := s.(frames := SetPhase(s.frames, g, Running), stack := s.stack + [g]);
    EmptiedOwners(s1.objs, o, g, s1.frames);
    OwnItself(Emptied(s1.objs, o), s1.frames, g);
    FreshNotAwaited(s, o, g);
    WaitsKept(s1.objs, Emptied(s1.objs, o), s1.frames);
    assert JumpsOk(s1.frames, {g});
    OwnItselfWaits(Emptied(s1.objs, o), s1.frames, g);
    var frames1 := s1.frames[g := s1.frames[g].(selfOwned := true)];
    assert frames1 == s.frames[g := s.frames[g].(selfOwned := true, phase := Running)];
    assert StackOk(frames1, s1.stack);
    hide HandlesOk, OneHandleEach, OwnersOk, WaitsOk, JumpsOk, StackOk;
  }

  lemma FreshNotAwaited(s: State, o: Obj, g: Id)
    requires Inv(s) && CanTouch(s, o) && s.objs[o].target == Some(g) && g in s.frames && s.frames[g].phase.Fresh?
    ensures Reachable(s.objs, SetPhase(s.frames, g, Running), o)
  {
    TouchedIsReachable(s, o);
  }

  // ---- Awaiting ------------------------------------------------------------------------------------------------------

  /** Nobody waits yet for a frame whose handle running code holds. */
  lemma NotYetAwaited(s: State, o: Obj, g: Id)
    requires Inv(s) && CanTouch(s, o) && s.objs[o].target == Some(g) && !s.frames[g].phase.Done?
    ensures s.frames[g].continuation.None?
    ensures forall t :: t in s.frames ==> s.frames[t].phase != Awaiting(g)
  {
    TouchedIsReachable(s, o);
    assert Owns(s.objs, o, g);
    assert forall p :: Owns(s.objs, p, g) ==> p == o;
  }

  /** The running frame `t` suspends on the child `g`. */
  function Suspended(frames: Frames, t: Id, g: Id): Frames
    requires t in frames && g in frames
  {
    var frames1 := SetPhase(frames, t, Awaiting(g));
    frames1[g := frames1[g].(continuation := Some(t))]
  }

  lemma SuspendedOwners(objs: Handles, frames: Frames, t: Id, g: Id)
    requires HandlesOk(objs, frames) && OwnersOk(objs, frames, {}) && t in frames && g in frames
    ensures var frames1 := Suspended(frames, t, g); HandlesOk(objs, frames1) && OwnersOk(objs, frames1, {})
  {
  }

  lemma SuspendedWaits(objs: Handles, frames: Frames, t: Id, g: Id)
    requires WaitsOk(objs, frames) && t in frames && g in frames && HoldsHandle(objs, t, g)
    requires frames[t].phase.Running? && !frames[g].phase.Done? && !frames[g].phase.Fresh?
    requires forall f :: f in frames ==> frames[f].phase != Awaiting(g)
    ensures WaitsOk(objs, Suspended(frames, t, g))
  {
  }

  lemma SuspendedJumps(frames: Frames, t: Id, g: Id)
    requires JumpsOk(frames, {}) && t in frames && g in frames && frames[t].phase.Running?
    ensures JumpsOk(Suspended(frames, t, g), {})
  {
  }

  lemma AwaitRunnerKeeps(s: State, o: Obj, g: Id)
    requires Inv(s) && CanStep(s, Await(o)) && s.objs[o].target == Some(g)
    requires s.frames[g].runner && !s.frames[g].phase.Done?
    ensures Inv(s.(frames := Suspended(s.frames, Top(s), g), stack := Pop(s.stack)))
  {
    var t := Top(s);
    TopRuns(s);
    NotYetAwaited(s, o, g);
    assert Owns(s.objs, o, g) && s.objs[o].home == Some(t);
    SuspendedOwners(s.objs, s.frames, t, g);
    SuspendedWaits(s.objs, s.frames, t, g);
    SuspendedJumps(s.frames, t, g);
    StackPops(s, Suspended(s.frames, t, g));
    hide HandlesOk, OneHandleEach, OwnersOk, WaitsOk, JumpsOk, StackOk;
  }

  /** Entering the child first and suspending the parent second comes to the same. */
  lemma AwaitTaskKeeps(s: State, o: Obj, g: Id)
    requires Inv(s) && CanStep(s, Await(o)) && s.objs[o].target == Some(g)
    requires g in s.frames && s.frames[g].phase.Fresh?
    ensures Inv(s.(frames := SetPhase(Suspended(s.frames, Top(s), g), g, Running), stack := Pop(s.stack) + [g]))
  {
    hide HandlesOk, OneHandleEach, OwnersOk, WaitsOk, JumpsOk, StackOk;
    var t := Top(s);
    TopRuns(s);
    NotYetAwaited(s, o, g);
    assert Owns(s.objs, o, g) && s.objs[o].home == Some(t);
    var frames1 := SetPhase(s.frames, g, Running);
    EnterKeeps(s, g);
    EnteredWaits(s.objs, frames1, t, g);
    StackPops(s, Suspended(s.frames, t, g));
    StackPushes(Suspended(s.frames, t, g), Pop(s.stack), Suspended(frames1, t, g), g);
    SuspendedLater(s.frames, t, g);
  }

  lemma SuspendedLater(frames: Frames, t: Id, g: Id)
    requires t in frames && g in frames && t != g
    ensures Suspended(SetPhase(frames, g, Running), t, g) == SetPhase(Suspended(frames, t, g), g, Running)
  {
  }

  lemma EnteredWaits(objs: Handles, frames: Frames, t: Id, g: Id)
    requires HandlesOk(objs, frames) && OwnersOk(objs, frames, {}) && WaitsOk(objs, frames) && JumpsOk(frames, {})
    requires t in frames && g in frames && HoldsHandle(objs, t, g)
    requires frames[t].phase.Running? && frames[g].phase.Running?
    requires forall f :: f in frames ==> frames[f].phase != Awaiting(g)
    ensures var frames1 := Suspended(frames, t, g);
      HandlesOk(objs, frames1) && OwnersOk(objs, frames1, {}) && WaitsOk(objs, frames1) && JumpsOk(frames1, {})
  {
    SuspendedOwners(objs, frames, t, g);
    SuspendedWaits(objs, frames, t, g);
    SuspendedJumps(frames, t, g);
  }

  lemma AwaitExact(s: State, o: Obj)
    requires Inv(s) && CanStep(s, Await(o))
    ensures DoStep(s, Await(o)).fault <==> !Safe(s, Await(o))
    ensures Safe(s, Await(o)) ==> Inv(DoStep(s, Await(o)))
  {
    TopRuns(s);
    if Safe(s, Await(o)) {
      var g := s.objs[o].target.value;
      if s.frames[g].phase.Done? {
      } else if s.frames[g].runner {
        AwaitRunnerKeeps(s, o, g);
      } else {
        AwaitTaskKeeps(s, o, g);
      }
    }
  }

  // ---- Completing ----------------------------------------------------------------------------------------------------

  /** A self-owned frame has no handle, so nobody waits for it; at its end it is an orphan. */
  lemma FinishOwned(s: State, t: Id)
    requires Inv(s) && s.stack != [] && t == Top(s) && t in s.frames && s.frames[t].selfOwned
    ensures InvWith(Finish(s, t), {t})
  {
    TopRuns(s);
    var n := Finish(s, t);
    assert forall o :: !Owns(s.objs, o, t);
    assert OwnersOk(n.objs, n.frames, {t});
    assert WaitsOk(n.objs, n.frames) && JumpsOk(n.frames, {t});
    assert HandlesOk(n.objs, n.frames);
    StackPops(s, n.frames);
    hide HandlesOk, OneHandleEach, OwnersOk, WaitsOk, JumpsOk, StackOk;
  }

  /** Frame `t` is done and `c`, which waited for it, runs. */
  function Transferred(frames: Frames, t: Id, c: Id): Frames
    requires t in frames && c in frames
  {
    SetPhase(SetPhase(frames, t, Done), c, Running)
  }

  lemma TransferOwners(objs: Handles, frames: Frames, t: Id, c: Id)
    requires HandlesOk(objs, frames) && OwnersOk(objs, frames, {}) && t in frames && c in frames && !frames[t].selfOwned
    ensures var frames1 := Transferred(frames, t, c); HandlesOk(objs, frames1) && OwnersOk(objs, frames1, {})
  {
  }

  lemma TransferWaits(objs: Handles, frames: Frames, t: Id, c: Id)
    requires WaitsOk(objs, frames) && JumpsOk(frames, {})
    requires t in frames && frames[t].phase.Running? && !frames[t].selfOwned
    requires c in frames && frames[t].continuation == Some(c) && frames[c].phase == Awaiting(t)
    ensures var frames1 := Transferred(frames, t, c); WaitsOk(objs, frames1) && JumpsOk(frames1, {})
  {
  }

  lemma TransferKeeps(s: State, t: Id, c: Id)
    requires Inv(s) && s.stack != [] && t == Top(s) && t in s.frames && !s.frames[t].selfOwned
    requires c in s.frames && s.frames[t].continuation == Some(c) && s.frames[c].phase == Awaiting(t)
    ensures Inv(s.(frames := Transferred(s.frames, t, c), stack := Pop(s.stack) + [c]))
  {
    TopRuns(s);
    TransferOwners(s.objs, s.frames, t, c);
    TransferWaits(s.objs, s.frames, t, c);
    StackPops(s, SetPhase(s.frames, t, Done));
    StackPushes(SetPhase(s.frames, t, Done), Pop(s.stack), Transferred(s.frames, t, c), c);
    hide HandlesOk, OneHandleEach, OwnersOk, WaitsOk, JumpsOk, StackOk;
  }

  lemma FinishAlone(s: State, t: Id)
    requires Inv(s) && s.stack != [] && t == Top(s) && t in s.frames && !s.frames[t].selfOwned
    requires s.frames[t].continuation.None?
    ensures Inv(Finish(s, t))
  {
    TopRuns(s);
    var n := Finish(s, t);
    assert HandlesOk(n.objs, n.frames) && OwnersOk(n.objs, n.frames, {});
    assert WaitsOk(n.objs, n.frames) && JumpsOk(n.frames, {});
    StackPops(s, n.frames);
    hide HandlesOk, OneHandleEach, OwnersOk, WaitsOk, JumpsOk, StackOk;
  }

  lemma CompleteExact(s: State)
    requires Inv(s) && CanStep(s, Complete)
    ensures DoStep(s, Complete).fault <==> !Safe(s, Complete)
    ensures Safe(s, Complete) ==> Inv(DoStep(s, Complete))
  {
    var t := Top(s);
    TopRuns(s);
    var fr := s.frames[t];
    if fr.selfOwned {
      FinishOwned(s, t);
      DestroyExact(Finish(s, t), t);
    } else if fr.continuation.None? {
      FinishAlone(s, t);
    } else {
      TransferKeeps(s, t, fr.continuation.value);
    }
  }

  /** The main result on one step: it goes wrong exactly when `Safe` says so, and otherwise keeps the invariant. */
  lemma StepExact(s: State, step: Step)
    requires Inv(s) && CanStep(s, step)
    ensures DoStep(s, step).fault <==> !Safe(s, step)
    ensures Safe(s, step) ==> Inv(DoStep(s, step))
  {
    hide Inv;
    match step
    case Create(f, o, args, outside) => CreateKeeps(s, f, o, args, outside); InvMeansNoFault(DoStep(s, step));
    case Spawn(f, o, args, outside) => SpawnKeeps(s, f, o, args, outside); InvMeansNoFault(DoStep(s, step));
    case MoveInto(src, dst) => MoveKeeps(s, src, dst); InvMeansNoFault(DoStep(s, step));
    case Clear(o) => ClearExact(s, o);
    case Forget(o) => ForgetKeeps(s, o); InvMeansNoFault(DoStep(s, step));
    case Await(o) => AwaitExact(s, o);
    case Detach(o) => DetachExact(s, o);
    case Start(o) =>
      if TargetFresh(s, o) {
        EnterKeeps(s, s.objs[o].target.value);
        InvMeansNoFault(DoStep(s, step));
      }
    case Park => ParkKeeps(s); InvMeansNoFault(DoStep(s, step));
    case Resume(f) => ResumeKeeps(s, f); InvMeansNoFault(DoStep(s, step));
    case Complete => CompleteExact(s);
  }

  lemma ResumeKeeps(s: State, f: Id)
    requires Inv(s) && CanStep(s, Resume(f))
    ensures Inv(DoStep(s, Resume(f)))
  {
    EnterKeeps(s, f);
    assert s.stack + [f] == [f];
  }

  lemma InvMeansNoFault(s: State)
    requires Inv(s)
    ensures !s.fault
  {
  }
}
