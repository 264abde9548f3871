/**
  Who owns and destroys each coroutine frame: `Task` and `SpawnHandle` objects, which live outside or inside frames,
  over all runs of create, spawn, move, drop, await, detach, park, resume and complete.

  `fault` records any use of a frame that does not exist, of a frame destroyed while it runs or is parked, and any
  transfer to a frame that does not wait for it.
*/
module Frames {
  import opened Options

  type Id = nat
  type Obj = nat

  /** `Awaiting` is suspended in `co_await` on a child, `Parked` on I/O, `Done` at final suspension. */
  datatype Phase = Fresh | Running | Awaiting(child: Id) | Parked | Done

  /** `selfOwned` is `detached` for a task and `handle_dropped` for a spawn runner. */
  datatype Frame = Frame(runner: bool, phase: Phase, selfOwned: bool, continuation: Option<Id>)

  /** A handle object: the frame it owns, if any, and the frame it is a local or parameter of, if any. */
  datatype Handle = Handle(target: Option<Id>, home: Option<Id>)

  type Frames = map<Id, Frame>
  type Handles = map<Obj, Handle>

  datatype State = State(frames: Frames, objs: Handles, stack: seq<Id>, ever: set<Id>, fault: bool)

  const INITIAL := State(map[], map[], [], {}, false)

  // ---- Destruction ----------------------------------------------------------------------------------------------

  predicate Owns(objs: Handles, o: Obj, g: Id) {
    o in objs && objs[o].target == Some(g)
  }

  /** The handle objects that die with the frames `gone`. */
  function Dying(objs: Handles, gone: set<Id>): set<Obj> {
    set o | o in objs && objs[o].home.Some? && objs[o].home.value in gone
  }

  /** Frames whose handle dies with `gone`. */
  function Bereft(s: State, gone: set<Id>): set<Id> {
    set o | o in Dying(s.objs, gone) && s.objs[o].target.Some? :: s.objs[o].target.value
  }

  /** Losing its handle destroys a frame, except a runner that is not done: that one becomes self-owned. */
  predicate DiesWithHandle(fr: Frame) {
    !fr.runner || fr.phase.Done?
  }

  function Kids(s: State, gone: set<Id>): set<Id> {
    set g | g in Bereft(s, gone) && g in s.frames && DiesWithHandle(s.frames[g])
  }

  /** Destroying the frames `gone` is an error if one is dead, running or parked, or if two dying handles own one frame. */
  ghost predicate BadToDestroy(s: State, gone: set<Id>) {
    || (exists g :: g in gone && (g !in s.frames || s.frames[g].phase.Running? || s.frames[g].phase.Parked?))
    || (exists o, p, g :: o in Dying(s.objs, gone) && p in Dying(s.objs, gone) && o != p && Owns(s.objs, o, g) && Owns(s.objs, p, g))
    || (exists g :: g in Bereft(s, gone) && g !in s.frames)
  }

  /** The frames `gone` and the handles inside them disappear; surviving runners among the bereft become self-owned. */
  function Wave(s: State, gone: set<Id>): State {
    var bereft := Bereft(s, gone);
    s.(frames := map g | g in s.frames && g !in gone ::
         if g in bereft && !DiesWithHandle(s.frames[g]) then s.frames[g].(selfOwned := true) else s.frames[g],
       objs := map o | o in s.objs && o !in Dying(s.objs, gone) :: s.objs[o])
  }

  /** `coroutine_handle::destroy`, with everything that follows from it. */
  ghost function Destroy(s: State, gone: set<Id>): State
    decreases |s.frames|
  {
    if gone == {} then s
    else if BadToDestroy(s, gone) then s.(fault := true)
    else
      WaveShrinks(s, gone);
      Destroy(Wave(s, gone), Kids(s, gone))
  }

  lemma WaveShrinks(s: State, gone: set<Id>)
    requires gone != {} && !BadToDestroy(s, gone)
    ensures |Wave(s, gone).frames| < |s.frames|
  {
    var g :| g in gone;
    assert g in s.frames && g !in Wave(s, gone).frames;
    assert Wave(s, gone).frames.Keys == s.frames.Keys - gone;
    ProperSubset(s.frames.Keys - gone, s.frames.Keys, g);
  }

  lemma ProperSubset(a: set<Id>, b: set<Id>, g: Id)
    requires a <= b && g in b && g !in a
    ensures |a| < |b|
  {
    assert |b| == |a| + |b - a|;
  }

  /** A frame loses its handle. */
  ghost function Lose(s: State, g: Id): State {
    if g !in s.frames then s.(fault := true)
    else if DiesWithHandle(s.frames[g]) then Destroy(s, {g})
    else s.(frames := s.frames[g := s.frames[g].(selfOwned := true)])
  }

  // ---- Steps -----------------------------------------------------------------------------------------------------

  datatype Step =
    | Create(frame: Id, obj: Obj, args: set<Obj>, outside: bool) // call a coroutine returning a Task
    | Spawn(frame: Id, obj: Obj, args: set<Obj>, outside: bool)  // spawn: a runner frame, started at once
    | MoveInto(src: Obj, dst: Obj)  // move construction, or the second half of move assignment
    | Clear(obj: Obj)               // ~Task, ~SpawnHandle, or the first half of move assignment
    | Forget(obj: Obj)              // an empty handle object goes away
    | Await(obj: Obj)               // co_await on a handle
    | Detach(obj: Obj)              // Task::detach
    | Start(obj: Obj)               // a lazy task resumed from outside through its raw handle
    | Park                          // the running coroutine suspends on I/O
    | Resume(frame: Id)             // the executor resumes a parked coroutine
    | Complete                      // the running coroutine reaches its final suspension

  /** Where the running code's own locals live. */
  function Here(s: State): Option<Id> {
    if s.stack == [] then None else Some(s.stack[|s.stack| - 1])
  }

  /** Running code reaches handles outside any frame and those in its own frame. */
  predicate CanTouch(s: State, o: Obj) {
    o in s.objs && (s.objs[o].home.None? || s.objs[o].home == Here(s))
  }

  function SetPhase(frames: Frames, f: Id, phase: Phase): Frames
    requires f in frames
  {
    frames[f := frames[f].(phase := phase)]
  }

  function Pop(stack: seq<Id>): seq<Id> {
    if stack == [] then [] else stack[..|stack| - 1]
  }

  function Rehomed(objs: Handles, args: set<Obj>, f: Id): Handles {
    map o | o in objs :: if o in args then objs[o].(home := Some(f)) else objs[o]
  }

  /** A new frame `f`, owned by the new object `o`; the handles `args` move into its parameters. */
  function NewFrame(s: State, f: Id, o: Obj, args: set<Obj>, outside: bool, fr: Frame): State {
    s.(frames := s.frames[f := fr],
       objs := Rehomed(s.objs, args, f)[o := Handle(Some(f), if outside then None else Here(s))],
       ever := s.ever + {f})
  }

  predicate CanStep(s: State, step: Step) {
    match step
    case Create(f, o, args, _) => f !in s.ever && o !in s.objs && forall a :: a in args ==> CanTouch(s, a)
    case Spawn(f, o, args, _) => f !in s.ever && o !in s.objs && forall a :: a in args ==> CanTouch(s, a)
    case MoveInto(src, dst) => CanTouch(s, src) && CanTouch(s, dst) && src != dst && s.objs[dst].target.None?
    case Clear(o) => CanTouch(s, o)
    case Forget(o) => CanTouch(s, o) && s.objs[o].target.None?
    case Await(o) => CanTouch(s, o) && s.stack != [] && s.objs[o].home == Here(s)
    case Detach(o) => CanTouch(s, o) && HasTask(s, o)
    case Start(o) => CanTouch(s, o) && HasTask(s, o)
    case Park => s.stack != []
    case Resume(f) => s.stack == [] && f in s.frames && s.frames[f].phase.Parked?
    case Complete => s.stack != []
  }

  /** `o` is a `Task`: it owns no runner. */
  predicate HasTask(s: State, o: Obj)
    requires o in s.objs
  {
    s.objs[o].target.Some? && s.objs[o].target.value in s.frames ==> !s.frames[s.objs[o].target.value].runner
  }

  /** `o` owns a frame that has not started. */
  predicate TargetFresh(s: State, o: Obj)
    requires o in s.objs
  {
    s.objs[o].target.Some? && s.objs[o].target.value in s.frames && s.frames[s.objs[o].target.value].phase.Fresh?
  }

  ghost function DoAwait(s: State, o: Obj): State
    requires CanStep(s, Await(o))
  {
    var t := s.stack[|s.stack| - 1];
    if s.objs[o].target.None? || s.objs[o].target.value !in s.frames || t !in s.frames then s.(fault := true)
    else if s.frames[s.objs[o].target.value].phase.Done? then s
    else
      var g := s.objs[o].target.value;
      var frames := SetPhase(s.frames, t, Awaiting(g));
      var frames1 := frames[g := frames[g].(continuation := Some(t))];
      if s.frames[g].runner then s.(frames := frames1, stack := Pop(s.stack))
      else if s.frames[g].phase != Fresh then s.(fault := true)
      else s.(frames := SetPhase(frames1, g, Running), stack := Pop(s.stack) + [g])
  }

  /** The running frame `t` reaches its final suspension. */
  function Finish(s: State, t: Id): State
    requires t in s.frames
  {
    s.(frames := SetPhase(s.frames, t, Done), stack := Pop(s.stack))
  }

  ghost function DoComplete(s: State): State
    requires s.stack != []
  {
    var t := s.stack[|s.stack| - 1];
    if t !in s.frames then s.(fault := true)
    else
      var s1 := Finish(s, t);
      var fr := s.frames[t];
      if fr.selfOwned then Destroy(s1, {t})
      else if fr.continuation.None? then s1
      else
        var c := fr.continuation.value;
        if c !in s1.frames || s1.frames[c].phase != Awaiting(t) then s1.(fault := true)
        else s1.(frames := SetPhase(s1.frames, c, Running), stack := s1.stack + [c])
  }

  ghost function DoStep(s: State, step: Step): State
    requires CanStep(s, step)
  {
    match step
    case Create(f, o, args, outside) => NewFrame(s, f, o, args, outside, Frame(false, Fresh, false, None))
    case Spawn(f, o, args, outside) =>
      var s1 := NewFrame(s, f, o, args, outside, Frame(true, Running, false, None));
      s1.(stack := s.stack + [f])
    case MoveInto(src, dst) =>
      s.(objs := s.objs[dst := s.objs[dst].(target := s.objs[src].target)][src := s.objs[src].(target := None)])
    case Clear(o) =>
      if s.objs[o].target.None? then s
      else Lose(s.(objs := s.objs[o := s.objs[o].(target := None)]), s.objs[o].target.value)
    case Forget(o) => s.(objs := s.objs - {o})
    case Await(o) => DoAwait(s, o)
    case Detach(o) =>
      if s.objs[o].target.None? then s
      else if !TargetFresh(s, o) then s.(fault := true)
      else
        var g := s.objs[o].target.value;
        s.(objs := s.objs[o := s.objs[o].(target := None)],
           frames := s.frames[g := s.frames[g].(selfOwned := true, phase := Running)],
           stack := s.stack + [g])
    case Start(o) =>
      if !TargetFresh(s, o) then s.(fault := true)
      else
        var g := s.objs[o].target.value;
        s.(frames := SetPhase(s.frames, g, Running), stack := s.stack + [g])
    case Park =>
      var t := s.stack[|s.stack| - 1];
      if t !in s.frames then s.(fault := true)
      else s.(frames := SetPhase(s.frames, t, Parked), stack := Pop(s.stack))
    case Resume(f) => s.(frames := SetPhase(s.frames, f, Running), stack := [f])
    case Complete => DoComplete(s)
  }

  // ---- The invariant -----------------------------------------------------------------------------------------------

  /** Handles live in live frames and own live frames that do not own themselves. */
  ghost predicate HandlesOk(objs: Handles, frames: Frames) {
    forall o :: o in objs ==>
      && (objs[o].home.Some? ==> objs[o].home.value in frames)
      && (objs[o].target.Some? ==> objs[o].target.value in frames && !frames[objs[o].target.value].selfOwned)
  }

  ghost predicate OneHandleEach(objs: Handles) {
    forall o, p :: o in objs && p in objs && o != p && objs[o].target.Some? ==> objs[o].target != objs[p].target
  }

  ghost predicate HasHandle(objs: Handles, g: Id) {
    exists o :: Owns(objs, o, g)
  }

  /** Every frame has a handle, owns itself and is under way, or is an orphan about to be destroyed. */
  ghost predicate OwnersOk(objs: Handles, frames: Frames, orphans: set<Id>) {
    && (forall g :: g in frames && g !in orphans ==>
          if frames[g].selfOwned then !frames[g].phase.Done? && !frames[g].phase.Fresh? else HasHandle(objs, g))
    && (forall g :: g in orphans ==> g in frames && !HasHandle(objs, g))
    && (forall g :: g in frames && frames[g].runner ==> !frames[g].phase.Fresh?)
  }

  ghost predicate StackOk(frames: Frames, stack: seq<Id>) {
    && Distinct(stack)
    && (forall f :: f in stack ==> f in frames && frames[f].phase.Running?)
    && (forall f :: f in frames && frames[f].phase.Running? ==> f in stack)
  }

  /** Frame `t` holds a handle to `g`. */
  ghost predicate HoldsHandle(objs: Handles, t: Id, g: Id) {
    exists o :: Owns(objs, o, g) && objs[o].home == Some(t)
  }

  /** A frame that waits for a child holds the child's handle, and the child is under way and knows who waits. */
  ghost predicate WaitsOk(objs: Handles, frames: Frames) {
    forall t :: t in frames && frames[t].phase.Awaiting? ==>
      var g := frames[t].phase.child;
      && g in frames && frames[g].continuation == Some(t) && !frames[g].phase.Done? && !frames[g].phase.Fresh?
      && HoldsHandle(objs, t, g)
  }

  /** Where an unfinished, owned frame would jump to, that frame waits for it. */
  ghost predicate JumpsOk(frames: Frames, orphans: set<Id>) {
    forall g :: g in frames && frames[g].continuation.Some? && !frames[g].phase.Done? && !frames[g].selfOwned && g !in orphans ==>
      frames[g].continuation.value in frames && frames[frames[g].continuation.value].phase == Awaiting(g)
  }

  ghost predicate InvWith(s: State, orphans: set<Id>) {
    && HandlesOk(s.objs, s.frames) && OneHandleEach(s.objs) && OwnersOk(s.objs, s.frames, orphans)
    && StackOk(s.frames, s.stack) && WaitsOk(s.objs, s.frames) && JumpsOk(s.frames, orphans)
    && s.frames.Keys <= s.ever && !s.fault
  }

  ghost predicate Inv(s: State) { InvWith(s, {}) }

  lemma InitialOk()
    ensures Inv(INITIAL)
  {
  }

  // ---- Destruction keeps the invariant, and exactly when it is an error ----------------------------------------------

  /** Frames that may be destroyed together: none runs or is parked, and whatever dies with them is among them. */
  ghost predicate Harmless(s: State, d: set<Id>) {
    && (forall g :: g in d && g in s.frames ==> !s.frames[g].phase.Running? && !s.frames[g].phase.Parked?)
    && (forall o, g :: o in Dying(s.objs, d) && Owns(s.objs, o, g) && g in s.frames && DiesWithHandle(s.frames[g]) ==> g in d)
  }

  lemma NotBad(s: State, gone: set<Id>, d: set<Id>)
    requires InvWith(s, gone) && gone <= d && Harmless(s, d)
    ensures !BadToDestroy(s, gone)
  {
  }

  lemma WaveHandles(s: State, gone: set<Id>)
    requires InvWith(s, gone)
    ensures HandlesOk(Wave(s, gone).objs, Wave(s, gone).frames) && OneHandleEach(Wave(s, gone).objs)
  {
    forall o | o in Wave(s, gone).objs && s.objs[o].target.Some?
      ensures s.objs[o].target.value !in gone && s.objs[o].target.value !in Bereft(s, gone)
    {
      assert Owns(s.objs, o, s.objs[o].target.value);
    }
  }

  lemma WaveOwners(s: State, gone: set<Id>)
    requires InvWith(s, gone)
    ensures OwnersOk(Wave(s, gone).objs, Wave(s, gone).frames, Kids(s, gone))
  {
    var w := Wave(s, gone);
    forall g | g in w.frames && g !in Kids(s, gone) && !w.frames[g].selfOwned
      ensures HasHandle(w.objs, g)
    {
      var o :| Owns(s.objs, o, g);
      assert o !in Dying(s.objs, gone);
      assert Owns(w.objs, o, g);
    }
    forall g | g in Kids(s, gone)
      ensures g in w.frames && !HasHandle(w.objs, g)
    {
      var o :| o in Dying(s.objs, gone) && Owns(s.objs, o, g);
      assert forall p :: Owns(w.objs, p, g) ==> Owns(s.objs, p, g);
    }
  }

  lemma WaveWaits(s: State, gone: set<Id>)
    requires InvWith(s, gone)
    ensures WaitsOk(Wave(s, gone).objs, Wave(s, gone).frames)
  {
    var w := Wave(s, gone);
    forall t | t in w.frames && w.frames[t].phase.Awaiting?
      ensures w.frames[t].phase.child in w.frames && HoldsHandle(w.objs, t, w.frames[t].phase.child)
    {
      var g := w.frames[t].phase.child;
      var o :| Owns(s.objs, o, g) && s.objs[o].home == Some(t);
      assert Owns(w.objs, o, g);
    }
  }

  lemma WaveJumps(s: State, gone: set<Id>)
    requires InvWith(s, gone)
    ensures JumpsOk(Wave(s, gone).frames, Kids(s, gone))
  {
    var w := Wave(s, gone);
    forall g | g in w.frames && w.frames[g].continuation.Some? && !w.frames[g].phase.Done? && !w.frames[g].selfOwned
               && g !in Kids(s, gone)
      ensures w.frames[g].continuation.value in w.frames
    {
      var c := s.frames[g].continuation.value;
      var o :| Owns(s.objs, o, g) && s.objs[o].home == Some(c);
      assert c in gone ==> o in Dying(s.objs, gone);
    }
  }

  lemma WaveKeeps(s: State, gone: set<Id>)
    requires InvWith(s, gone) && !BadToDestroy(s, gone)
    ensures InvWith(Wave(s, gone), Kids(s, gone))
  {
    WaveHandles(s, gone);
    WaveOwners(s, gone);
    WaveWaits(s, gone);
    WaveJumps(s, gone);
    hide HandlesOk, OneHandleEach, OwnersOk, WaitsOk, JumpsOk;
    assert StackOk(Wave(s, gone).frames, s.stack);
  }

  lemma WaveHarmless(s: State, gone: set<Id>, d: set<Id>)
    requires gone <= d && Harmless(s, d)
    ensures Harmless(Wave(s, gone), d) && Kids(s, gone) <= d
  {
    var w := Wave(s, gone);
    assert forall o :: o in Dying(w.objs, d) ==> o in Dying(s.objs, d);
    assert forall o, g :: Owns(w.objs, o, g) ==> Owns(s.objs, o, g);
    forall g | g in Kids(s, gone)
      ensures g in d
    {
      var o :| o in Dying(s.objs, gone) && Owns(s.objs, o, g);
      assert o in Dying(s.objs, d);
    }
  }

  /** A frame of `s` that is still there, unchanged but for who owns it. */
  predicate Survives(s: State, t: State, g: Id) {
    g in s.frames && g in t.frames && t.frames[g].(selfOwned := s.frames[g].selfOwned) == s.frames[g]
    && (!s.frames[g].runner ==> t.frames[g] == s.frames[g])
  }

  /** Only frames in `d` and handles inside them are removed, and nothing that stays starts or stops. */
  ghost predicate OnlyRemoves(s: State, t: State, d: set<Id>) {
    && t.stack == s.stack && t.ever == s.ever
    && t.frames.Keys <= s.frames.Keys
    && (forall g :: g in s.frames ==> g in d || Survives(s, t, g))
    && (forall g :: g in t.frames ==> Survives(s, t, g))
    && (forall o :: o in s.objs ==> o in Dying(s.objs, d) || (o in t.objs && t.objs[o] == s.objs[o]))
  }

  lemma WaveOnlyRemoves(s: State, gone: set<Id>, d: set<Id>)
    requires InvWith(s, gone) && gone <= d
    ensures OnlyRemoves(s, Wave(s, gone), d)
  {
  }

  lemma OnlyRemovesChains(s: State, t: State, u: State, d: set<Id>)
    requires OnlyRemoves(s, t, d) && OnlyRemoves(t, u, d)
    ensures OnlyRemoves(s, u, d)
  {
  }

  /** Destroying frames together with everything they own is no error when all of that is at rest. */
  lemma {:induction false} DestroyKeeps(s: State, gone: set<Id>, d: set<Id>)
    requires InvWith(s, gone) && gone <= d && Harmless(s, d)
    ensures Inv(Destroy(s, gone))
    ensures OnlyRemoves(s, Destroy(s, gone), d)
    ensures forall g :: g in gone ==> g !in Destroy(s, gone).frames
    decreases |s.frames|
  {
    hide InvWith, Harmless, OnlyRemoves, BadToDestroy, Wave, Kids;
    if gone == {} {
      assert OnlyRemoves(s, s, d) by { NothingRemoved(s, d); }
    } else {
      NotBad(s, gone, d);
      WaveShrinks(s, gone);
      WaveKeeps(s, gone);
      WaveHarmless(s, gone, d);
      WaveOnlyRemoves(s, gone, d);
      DestroyKeeps(Wave(s, gone), Kids(s, gone), d);
      OnlyRemovesChains(s, Wave(s, gone), Destroy(s, gone), d);
      WaveGone(s, gone);
      RemovedStay(Wave(s, gone), Destroy(s, gone), d);
    }
  }

  lemma NothingRemoved(s: State, d: set<Id>)
    ensures OnlyRemoves(s, s, d)
  {
  }

  lemma WaveGone(s: State, gone: set<Id>)
    ensures forall g :: g in gone ==> g !in Wave(s, gone).frames
  {
  }

  lemma RemovedStay(s: State, t: State, d: set<Id>)
    requires OnlyRemoves(s, t, d)
    ensures t.frames.Keys <= s.frames.Keys
  {
  }

  /** The converse: if destroying the frames is no error, everything that goes was at rest. */
  lemma {:induction false} DestroyFindsHarmless(s: State, gone: set<Id>) returns (d: set<Id>)
    requires InvWith(s, gone) && !Destroy(s, gone).fault
    ensures gone <= d && Harmless(s, d)
    decreases |s.frames|
  {
    if gone == {} {
      d := {};
    } else {
      WaveShrinks(s, gone);
      WaveKeeps(s, gone);
      var rest := DestroyFindsHarmless(Wave(s, gone), Kids(s, gone));
      d := gone + rest;
      HarmlessGrows(s, gone, rest);
    }
  }

  lemma HarmlessGrows(s: State, gone: set<Id>, rest: set<Id>)
    requires InvWith(s, gone) && !BadToDestroy(s, gone)
    requires Kids(s, gone) <= rest && Harmless(Wave(s, gone), rest)
    ensures Harmless(s, gone + rest)
  {
    var w := Wave(s, gone);
    forall o, g | o in Dying(s.objs, gone + rest) && Owns(s.objs, o, g) && g in s.frames && DiesWithHandle(s.frames[g])
      ensures g in gone + rest
    {
      if o in Dying(s.objs, gone) {
        assert g in Bereft(s, gone);
      } else {
        assert o in Dying(w.objs, rest) && Owns(w.objs, o, g);
      }
    }
    forall g | g in rest && g in s.frames
      ensures !s.frames[g].phase.Running? && !s.frames[g].phase.Parked?
    {
      assert g in gone || g in w.frames;
    }
  }

  /** The frame `g` can go: it and all it owns, through any number of handles, is neither running nor parked. */
  ghost predicate AtRest(s: State, g: Id) {
    exists d: set<Id> :: g in d && Harmless(s, d)
  }

  lemma DestroyExact(s: State, g: Id)
    requires InvWith(s, {g})
    ensures Destroy(s, {g}).fault <==> !AtRest(s, g)
    ensures AtRest(s, g) ==> Inv(Destroy(s, {g}))
  {
    if AtRest(s, g) {
      var d: set<Id> :| g in d && Harmless(s, d);
      DestroyKeeps(s, {g}, d);
    }
    if !Destroy(s, {g}).fault {
      var d := DestroyFindsHarmless(s, {g});
    }
  }
}
