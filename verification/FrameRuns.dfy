/**
  Whole runs on coroutine frames in which tasks are started by `co_await`, `detach` or a spawn runner only, as the
  library does: no frame is used or destroyed after its destruction, none is destroyed between its start and its end,
  none is lost, and a dropped runner never jumps to whoever awaited it.
*/
module FrameRuns {
  import opened Options
  import opened Frames
  import opened FrameSteps

  /** A task under way is self-owned or somebody awaits it. */
  ghost predicate Lazy(frames: Frames) {
    forall g :: g in frames && !frames[g].runner && !frames[g].selfOwned && !frames[g].phase.Fresh? && !frames[g].phase.Done? ==>
      frames[g].continuation.Some?
  }

  /** No raw starts; an awaited handle is not empty, and a finished task is not detached. */
  predicate WellUsed(s: State, step: Step)
    requires CanStep(s, step)
  {
    match step
    case Start(o) => false
    case Await(o) => s.objs[o].target.Some?
    case Detach(o) => s.objs[o].target.Some? && s.objs[o].target.value in s.frames ==> !s.frames[s.objs[o].target.value].phase.Done?
    case _ => true
  }

  predicate Idle(fr: Frame) {
    fr.phase.Fresh? || fr.phase.Done?
  }

  function IdleFrames(s: State): set<Id> {
    set g | g in s.frames && Idle(s.frames[g])
  }

  /** A task owned by a handle in `f`, if it is under way, is awaited by `f`. */
  lemma UnderWayIsAwaited(s: State, orphans: set<Id>, o: Obj, g: Id)
    requires InvWith(s, orphans) && Lazy(s.frames) && Owns(s.objs, o, g)
    requires !s.frames[g].runner && !Idle(s.frames[g])
    ensures s.objs[o].home.Some? && s.objs[o].home.value in s.frames && s.frames[s.objs[o].home.value].phase == Awaiting(g)
  {
    var c := s.frames[g].continuation.value;
    assert HasHandle(s.objs, g);
    var p :| Owns(s.objs, p, g) && s.objs[p].home == Some(c);
    assert p == o;
  }

  lemma IdleHarmless(s: State, orphans: set<Id>)
    requires InvWith(s, orphans) && Lazy(s.frames)
    ensures Harmless(s, IdleFrames(s))
  {
    forall o, g | o in Dying(s.objs, IdleFrames(s)) && Owns(s.objs, o, g) && g in s.frames && DiesWithHandle(s.frames[g])
      ensures g in IdleFrames(s)
    {
      if !Idle(s.frames[g]) {
        UnderWayIsAwaited(s, orphans, o, g);
      }
    }
  }

  lemma TouchedTaskIsIdle(s: State, o: Obj, g: Id)
    requires Inv(s) && Lazy(s.frames) && CanTouch(s, o) && s.objs[o].target == Some(g)
    ensures g in s.frames && (s.frames[g].runner || Idle(s.frames[g]))
  {
    assert Owns(s.objs, o, g);
    TouchedIsReachable(s, o);
    if !s.frames[g].runner && !Idle(s.frames[g]) {
      UnderWayIsAwaited(s, {}, o, g);
    }
  }

  lemma FinishedLazy(s: State, t: Id)
    requires Lazy(s.frames) && t in s.frames
    ensures Lazy(Finish(s, t).frames)
  {
  }

  /** Without raw starts, what the code relies on always holds: only the caller's own slips remain. */
  lemma LazySafe(s: State, step: Step)
    requires Inv(s) && Lazy(s.frames) && CanStep(s, step) && !step.Start?
    ensures Safe(s, step) <==> WellUsed(s, step)
  {
    match step
    case Clear(o) =>
      if s.objs[o].target.Some? {
        TouchedTaskIsIdle(s, o, s.objs[o].target.value);
        IdleHarmless(s, {});
      }
    case Await(o) =>
      if s.objs[o].target.Some? {
        TouchedTaskIsIdle(s, o, s.objs[o].target.value);
      }
    case Detach(o) =>
      if s.objs[o].target.Some? {
        TouchedTaskIsIdle(s, o, s.objs[o].target.value);
      }
    case Complete =>
      TopRuns(s);
      var t := Top(s);
      if s.frames[t].selfOwned {
        FinishOwned(s, t);
        FinishedLazy(s, t);
        IdleHarmless(Finish(s, t), {t});
      }
    case _ =>
  }

  // ---- What a step destroys ------------------------------------------------------------------------------------------

  /** What `Destroy` does to a lazy state: only idle frames go. */
  lemma DestroyIdle(s: State, g: Id)
    requires InvWith(s, {g}) && Lazy(s.frames) && g in IdleFrames(s)
    ensures OnlyRemoves(s, Destroy(s, {g}), IdleFrames(s)) && g !in Destroy(s, {g}).frames
    ensures Lazy(Destroy(s, {g}).frames)
  {
    IdleHarmless(s, {g});
    DestroyKeeps(s, {g}, IdleFrames(s));
    OnlyRemovesLazy(s, Destroy(s, {g}), IdleFrames(s));
  }

  lemma OnlyRemovesLazy(s: State, t: State, d: set<Id>)
    requires Lazy(s.frames) && OnlyRemoves(s, t, d)
    ensures Lazy(t.frames)
  {
    forall g | g in t.frames
      ensures t.frames[g].runner == s.frames[g].runner && (!s.frames[g].runner ==> t.frames[g] == s.frames[g])
    {
      assert Survives(s, t, g);
    }
  }

  /** The frames after a step, against those before: a destroyed frame was idle, or is the one that just completed. */
  ghost predicate DestroysIdle(s: State, step: Step, n: State) {
    && s.ever <= n.ever
    && (forall g :: g in n.frames && g in s.ever ==> g in s.frames)
    && (forall g :: g in s.frames && g !in n.frames ==>
          Idle(s.frames[g]) || (step.Complete? && s.stack != [] && g == Top(s) && s.frames[g].selfOwned))
  }

  lemma ClearLazy(s: State, o: Obj)
    requires Inv(s) && Lazy(s.frames) && CanStep(s, Clear(o))
    ensures Lazy(DoStep(s, Clear(o)).frames) && DestroysIdle(s, Clear(o), DoStep(s, Clear(o)))
  {
    if s.objs[o].target.Some? {
      var g := s.objs[o].target.value;
      TouchedTaskIsIdle(s, o, g);
      if DiesWithHandle(s.frames[g]) {
        EmptiedKeeps(s, o, g);
        DestroyIdle(s.(objs := Emptied(s.objs, o)), g);
      }
    }
  }

  lemma CompleteLazy(s: State)
    requires Inv(s) && Lazy(s.frames) && CanStep(s, Complete)
    ensures Lazy(DoStep(s, Complete).frames) && DestroysIdle(s, Complete, DoStep(s, Complete))
  {
    TopRuns(s);
    var t := Top(s);
    FinishedLazy(s, t);
    if s.frames[t].selfOwned {
      FinishOwned(s, t);
      DestroyIdle(Finish(s, t), t);
      OnlyRemovesFinished(s, t, Destroy(Finish(s, t), {t}));
    } else if s.frames[t].continuation.Some? {
      TransferLazy(s, s.frames[t].continuation.value);
    }
  }

  lemma OnlyRemovesFinished(s: State, t: Id, n: State)
    requires s.stack != [] && t == Top(s) && t in s.frames && s.frames[t].selfOwned
    requires OnlyRemoves(Finish(s, t), n, IdleFrames(Finish(s, t)))
    ensures DestroysIdle(s, Complete, n)
  {
    var s1 := Finish(s, t);
    assert s1.frames.Keys == s.frames.Keys;
    forall g | g in s.frames && g !in n.frames
      ensures Idle(s.frames[g]) || g == t
    {
      assert g in IdleFrames(s1) || Survives(s1, n, g);
    }
  }

  lemma TransferLazy(s: State, c: Id)
    requires Inv(s) && CanStep(s, Complete) && !s.frames[Top(s)].selfOwned && s.frames[Top(s)].continuation == Some(c)
    requires Lazy(s.frames)
    ensures Lazy(DoStep(s, Complete).frames) && DestroysIdle(s, Complete, DoStep(s, Complete))
  {
    CompletionResumesAwaiter(s, c);
  }

  lemma AwaitLazy(s: State, o: Obj)
    requires Inv(s) && Lazy(s.frames) && CanStep(s, Await(o))
    ensures Lazy(DoStep(s, Await(o)).frames) && DestroysIdle(s, Await(o), DoStep(s, Await(o)))
  {
    TopRuns(s);
    if s.objs[o].target.Some? {
      TouchedTaskIsIdle(s, o, s.objs[o].target.value);
    }
  }

  lemma StepLazy(s: State, step: Step)
    requires Inv(s) && Lazy(s.frames) && CanStep(s, step) && WellUsed(s, step)
    ensures Lazy(DoStep(s, step).frames) && DestroysIdle(s, step, DoStep(s, step))
  {
    match step
    case Clear(o) => ClearLazy(s, o);
    case Complete => CompleteLazy(s);
    case Await(o) => AwaitLazy(s, o);
    case Detach(o) =>
      if s.objs[o].target.Some? {
        TouchedTaskIsIdle(s, o, s.objs[o].target.value);
      }
    case Park => TopRuns(s);
    case _ =>
  }

  // ---- Runs ----------------------------------------------------------------------------------------------------------

  ghost predicate IsRun(states: seq<State>, steps: seq<Step>) {
    && |states| == |steps| + 1 && states[0] == INITIAL
    && forall i :: 0 <= i < |steps| ==>
         CanStep(states[i], steps[i]) && WellUsed(states[i], steps[i]) && states[i + 1] == DoStep(states[i], steps[i])
  }

  /** Nothing goes wrong in any run, and the invariant holds throughout. */
  lemma {:induction false} RunsAreSafe(states: seq<State>, steps: seq<Step>, i: nat)
    requires IsRun(states, steps) && i < |states|
    ensures !states[i].fault && Inv(states[i]) && Lazy(states[i].frames)
  {
    if i == 0 {
      InitialOk();
    } else {
      RunsAreSafe(states, steps, i - 1);
      var s := states[i - 1];
      assert states[i] == DoStep(s, steps[i - 1]);
      LazySafe(s, steps[i - 1]);
      StepExact(s, steps[i - 1]);
      StepLazy(s, steps[i - 1]);
    }
  }

  /** A frame once destroyed is never there again, so it is never resumed, jumped to or destroyed again. */
  lemma {:induction false} DestroyedOnce(states: seq<State>, steps: seq<Step>, i: nat, j: nat, g: Id)
    requires IsRun(states, steps) && i <= j < |states|
    requires g in states[i].ever && g !in states[i].frames
    ensures g in states[j].ever && g !in states[j].frames && g !in states[j].stack
    decreases j - i
  {
    hide Inv, Lazy, DoStep, CanStep, WellUsed;
    RunsAreSafe(states, steps, j);
    if i < j {
      DestroyedOnce(states, steps, i, j - 1, g);
      RunsAreSafe(states, steps, j - 1);
      StepLazy(states[j - 1], steps[j - 1]);
      assert states[j] == DoStep(states[j - 1], steps[j - 1]);
    }
    OnlyLiveFramesRun(states[j], g);
  }

  lemma OnlyLiveFramesRun(s: State, g: Id)
    requires Inv(s) && g !in s.frames
    ensures g !in s.stack
  {
  }

  /** Only frames that have not started or have completed are destroyed: no awaiter is destroyed while it is parked. */
  lemma NoneDestroyedUnderWay(states: seq<State>, steps: seq<Step>, i: nat, g: Id)
    requires IsRun(states, steps) && i < |steps|
    requires g in states[i].frames && g !in states[i + 1].frames
    ensures Idle(states[i].frames[g]) || (steps[i].Complete? && states[i].stack != [] && g == Top(states[i]))
    ensures !states[i].frames[g].phase.Parked? && !states[i].frames[g].phase.Awaiting?
  {
    RunsAreSafe(states, steps, i);
    StepLazy(states[i], steps[i]);
    if !Idle(states[i].frames[g]) {
      TopRuns(states[i]);
    }
  }

  /** A completed frame still there has a handle; with no handle left, what is left is running or parked. */
  lemma NothingLeaks(states: seq<State>, steps: seq<Step>, i: nat, g: Id)
    requires IsRun(states, steps) && i < |states| && g in states[i].frames
    ensures states[i].frames[g].phase.Done? ==> HasHandle(states[i].objs, g)
    ensures states[i].objs == map[] ==> states[i].frames[g].phase.Running? || states[i].frames[g].phase.Parked?
  {
    RunsAreSafe(states, steps, i);
  }

  /** A detached task or dropped runner that completes is gone, and no frame starts to run because of it. */
  lemma DroppedNeverTransfers(s: State)
    requires Inv(s) && CanStep(s, Complete) && Safe(s, Complete) && s.frames[Top(s)].selfOwned
    ensures var n := DoStep(s, Complete);
      && Top(s) !in n.frames && n.stack == Pop(s.stack)
      && forall f :: f in n.frames ==> f in s.frames && n.frames[f].phase == s.frames[f].phase
  {
    var t := Top(s);
    TopRuns(s);
    FinishOwned(s, t);
    var s1 := Finish(s, t);
    var d: set<Id> :| t in d && Harmless(s1, d);
    DestroyKeeps(s1, {t}, d);
    forall f | f in DoStep(s, Complete).frames
      ensures f in s.frames && DoStep(s, Complete).frames[f].phase == s.frames[f].phase
    {
      assert Survives(s1, Destroy(s1, {t}), f);
    }
  }

  /** A frame with a handle that completes resumes its awaiter, which was waiting for just this frame. */
  lemma CompletionResumesAwaiter(s: State, c: Id)
    requires Inv(s) && CanStep(s, Complete) && !s.frames[Top(s)].selfOwned && s.frames[Top(s)].continuation == Some(c)
    ensures c in s.frames && s.frames[c].phase == Awaiting(Top(s))
    ensures var n := DoStep(s, Complete);
      && n.stack == Pop(s.stack) + [c] && n.frames[c].phase.Running? && n.frames[Top(s)].phase.Done?
      && n.objs == s.objs && n.frames.Keys == s.frames.Keys
      && forall f :: f in s.frames && f != c && f != Top(s) ==> n.frames[f] == s.frames[f]
  {
    TopRuns(s);
  }

  // ---- Raw starts ----------------------------------------------------------------------------------------------------

  /** Dropping a parked task is always an error: `~Task` destroys the frame whatever its state. */
  lemma DroppingParkedTaskFaults(s: State, o: Obj, g: Id)
    requires Inv(s) && CanStep(s, Clear(o)) && s.objs[o].target == Some(g)
    requires !s.frames[g].runner && s.frames[g].phase.Parked?
    ensures DoStep(s, Clear(o)).fault
  {
    assert g in s.frames by { assert HandlesOk(s.objs, s.frames); }
    StepExact(s, Clear(o));
  }

  /** One task, its handle outside any frame. */
  function LoneTask(phase: Phase): State {
    State(map[0 := Frame(false, phase, false, None)], map[0 := Handle(Some(0), None)], if phase == Running then [0] else [], {0}, false)
  }

  lemma LoneTaskCreated()
    ensures DoStep(INITIAL, Create(0, 0, {}, true)) == LoneTask(Fresh)
  {
  }

  lemma LoneTaskStarts()
    ensures DoStep(LoneTask(Fresh), Start(0)) == LoneTask(Running)
  {
  }

  lemma LoneTaskParks()
    ensures DoStep(LoneTask(Running), Park) == LoneTask(Parked)
  {
  }

  /** A run that gets there: a task resumed through its raw handle parks and is dropped. */
  lemma RawStartCanFault()
    ensures var s1 := DoStep(INITIAL, Create(0, 0, {}, true));
      var s2 := DoStep(s1, Start(0));
      var s3 := DoStep(s2, Park);
      s3 == LoneTask(Parked) && CanStep(s3, Clear(0)) && DoStep(s3, Clear(0)).fault
  {
    LoneTaskCreated();
    LoneTaskStarts();
    LoneTaskParks();
    ParkedLoneTask();
    hide DoStep;
  }

  lemma ParkedLoneTask()
    ensures CanStep(LoneTask(Parked), Clear(0)) && DoStep(LoneTask(Parked), Clear(0)).fault
  {
    var s := LoneTask(Parked);
    var s1 := s.(objs := s.objs[0 := s.objs[0].(target := None)]);
    assert 0 in {0} && s1.frames[0].phase.Parked?;
    assert BadToDestroy(s1, {0});
  }

  // ---- Empty handles -------------------------------------------------------------------------------------------------

  /** Awaiting an empty handle is always an error: `await_ready` says yes, and `await_resume` reads the missing promise. */
  lemma AwaitingEmptyFaults(s: State, o: Obj)
    requires Inv(s) && CanStep(s, Await(o)) && s.objs[o].target.None?
    ensures DoStep(s, Await(o)).fault
  {
    AwaitExact(s, o);
  }

  /** A running spawn runner, with the task it created as a local. */
  function RunnerWith(local: Handle, task: Frame, stack: seq<Id>): State {
    State(map[0 := Frame(true, Running, false, None), 1 := task], map[0 := Handle(Some(0), None), 1 := local], stack, {0, 1}, false)
  }

  lemma RunnerSpawned()
    ensures DoStep(INITIAL, Spawn(0, 0, {}, true)) ==
      State(map[0 := Frame(true, Running, false, None)], map[0 := Handle(Some(0), None)], [0], {0}, false)
  {
  }

  lemma RunnerCreates()
    ensures var s := State(map[0 := Frame(true, Running, false, None)], map[0 := Handle(Some(0), None)], [0], {0}, false);
      DoStep(s, Create(1, 1, {}, false)) == RunnerWith(Handle(Some(1), Some(0)), Frame(false, Fresh, false, None), [0])
  {
  }

  lemma RunnerDetaches()
    ensures var s := RunnerWith(Handle(Some(1), Some(0)), Frame(false, Fresh, false, None), [0]);
      DoStep(s, Detach(1)) == RunnerWith(Handle(None, Some(0)), Frame(false, Running, true, None), [0, 1])
  {
  }

  lemma DetachedParks()
    ensures var s := RunnerWith(Handle(None, Some(0)), Frame(false, Running, true, None), [0, 1]);
      DoStep(s, Park) == RunnerWith(Handle(None, Some(0)), Frame(false, Parked, true, None), [0])
  {
  }

  lemma RunnerAwaitsEmpty()
    ensures var s := RunnerWith(Handle(None, Some(0)), Frame(false, Parked, true, None), [0]);
      CanStep(s, Await(1)) && DoStep(s, Await(1)).fault
  {
  }

  /** A run that gets there: a coroutine detaches a task and then awaits the same object. */
  lemma AwaitingDetachedFaults()
    ensures var s1 := DoStep(INITIAL, Spawn(0, 0, {}, true));
      CanStep(s1, Create(1, 1, {}, false)) &&
      var s2 := DoStep(s1, Create(1, 1, {}, false));
      CanStep(s2, Detach(1)) &&
      var s3 := DoStep(s2, Detach(1));
      CanStep(s3, Park) &&
      var s4 := DoStep(s3, Park);
      CanStep(s4, Await(1)) && DoStep(s4, Await(1)).fault
  {
    RunnerSpawned();
    RunnerCreates();
    RunnerDetaches();
    DetachedParks();
    RunnerAwaitsEmpty();
    hide DoStep;
  }
}
