/** The symmetric-transfer loop with its frames and promises updated in place, proved to compute direct results. */
module Trampolines {
  import opened Options
  import opened Tasks

  class Trampoline {
    var frames: map<Id, Frame>
    var next: Id
    var control: Control
    var log: seq<Val>

    function Abs(): Machine
      reads this
    {
      Machine(frames, next, control, log)
    }

    constructor (b: Body, env: Env, detached: bool)
      ensures Abs() == Start(b, env, detached)
    {
      frames := map[0 := NewFrame(b, env).(detached := detached)];
      next, control, log := 1, Run(0), [];
    }

    /** The promise stores the outcome, then `final_awaiter::await_suspend` picks where to go. */
    method FinalSuspend(f: Id, outcome: Outcome)
      requires f in frames
      modifies this
      ensures Abs() == Finish(old(Abs()), f, outcome)
    {
      frames := frames[f := frames[f].(result := Some(outcome))];
      if frames[f].detached {
        frames := frames - {f};
        control := Halt;
      } else if frames[f].continuation.Some? {
        control := Run(frames[f].continuation.value);
      } else {
        control := Halt;
      }
    }

    method Suspend(f: Id, child: Body, env: Env)
      requires f in frames
      modifies this
      ensures Abs() == AwaitSuspend(old(Abs()), f, child, env)
    {
      var g := next;
      next := next + 1;
      frames := frames[f := frames[f].(awaited := Some(g))];
      frames := frames[g := NewFrame(child, env)];
      frames := frames[g := frames[g].(continuation := Some(f))];
      control := Run(g);
    }

    method Resume(f: Id, g: Id, ok: Body, err: Body)
      requires f in frames
      modifies this
      ensures Abs() == AwaitResume(old(Abs()), f, g, ok, err)
    {
      if g !in frames || g == f || frames[g].result.None? {
        control := Fault;
        return;
      }
      var fr := frames[f].(awaited := None);
      match frames[g].result.value {
        case Value(v) => fr := fr.(code := ok, env := fr.env + [v]);
        case Exception(x) => fr := fr.(code := err, env := fr.env + [x]);
      }
      frames := frames - {g};
      frames := frames[f := fr];
    }

    /** What the running frame does up to its next transfer point. */
    method Jump()
      modifies this
      ensures Abs() == Step(old(Abs()))
    {
      if !control.Run? {
        return;
      }
      var f := control.id;
      if f !in frames || frames[f].result.Some? {
        control := Fault;
        return;
      }
      var fr := frames[f];
      match fr.code {
        case Return(v) => FinalSuspend(f, Value(v(fr.env)));
        case Throw(x) => FinalSuspend(f, Exception(x(fr.env)));
        case Emit(e, rest) =>
          log := log + [e(fr.env)];
          frames := frames[f := fr.(code := rest)];
        case Branch(test, yes, no) =>
          frames := frames[f := fr.(code := if test(fr.env) then yes else no)];
        case Await(child, args, ok, err) =>
          if fr.awaited.Some? {
            Resume(f, fr.awaited.value, ok, err);
          } else {
            Suspend(f, child, args(fr.env));
          }
      }
    }

    /** Jumps until control leaves the coroutines. It always does, and never through a dead frame. */
    method Drive(ghost b: Body, ghost env: Env, ghost detached: bool)
      requires Abs() == Start(b, env, detached)
      modifies this
      ensures control == Halt && log == Direct(b, env).log
      ensures frames.Keys == if detached then {} else {0}
      ensures !detached ==> frames[0].result == Some(Direct(b, env).outcome)
    {
      ghost var left := MachineComputesDirect(b, env, detached);
      ghost var end := Steps(Abs(), left);
      while control.Run?
        invariant Steps(Abs(), left) == end
        decreases left
      {
        Jump();
        left := left - 1;
      }
      StoppedStays(Abs(), left);
    }
  }

  lemma {:induction false} StoppedStays(m: Machine, n: nat)
    requires !m.control.Run?
    ensures Steps(m, n) == m
    decreases n
  {
    if n > 0 { StoppedStays(m, n - 1); }
  }
}
