/**
  `Task` coroutines: bodies that return, throw, catch and await, evaluated directly, against the machine that jumps
  between frames through the continuation stored in each promise.
*/
module Tasks {
  import opened Options

  datatype Val = Num(n: int) | Tup(items: seq<Val>)

  type Env = seq<Val>

  datatype Outcome = Value(value: Val) | Exception(exn: Val)

  /**
    A coroutine body. Locals are kept in an environment; `Await` starts a child task on arguments computed from it and
    continues in `ok` with the child's value appended, or in `err`, the enclosing handler, with its exception appended.
    `Emit` is any visible effect.
  */
  datatype Body =
    | Return(result: Env -> Val)
    | Throw(exn: Env -> Val)
    | Emit(event: Env -> Val, next: Body)
    | Branch(test: Env -> bool, yes: Body, no: Body)
    | Await(child: Body, args: Env -> Env, ok: Body, err: Body)

  // ---- Direct evaluation -----------------------------------------------------------------------

  datatype Eval = Eval(log: seq<Val>, outcome: Outcome)

  /** What the body does and yields when every `co_await` is an ordinary call. */
  function Direct(b: Body, env: Env): Eval {
    match b
    case Return(f) => Eval([], Value(f(env)))
    case Throw(f) => Eval([], Exception(f(env)))
    case Emit(f, next) => var r := Direct(next, env); Eval([f(env)] + r.log, r.outcome)
    case Branch(test, yes, no) => if test(env) then Direct(yes, env) else Direct(no, env)
    case Await(child, args, ok, err) =>
      var c := Direct(child, args(env));
      var r := match c.outcome
               case Value(v) => Direct(ok, env + [v])
               case Exception(x) => Direct(err, env + [x]);
      Eval(c.log + r.log, r.outcome)
  }

  // ---- The frame machine -----------------------------------------------------------------------

  type Id = nat

  /** A coroutine frame: where it is, its locals, the `Task` it is awaiting, and its promise. */
  datatype Frame = Frame(
    code: Body,
    env: Env,
    awaited: Option<Id>,
    result: Option<Outcome>,
    continuation: Option<Id>,
    detached: bool)

  /** `Fault` is touching a frame that does not exist, or reading a result that is not there. */
  datatype Control = Run(id: Id) | Halt | Fault

  datatype Machine = Machine(frames: map<Id, Frame>, next: Id, control: Control, log: seq<Val>)

  /** A lazy task: its frame exists, suspended at its start. */
  function NewFrame(b: Body, env: Env): Frame {
    Frame(b, env, None, None, None, false)
  }

  /** The promise takes the outcome; `final_suspend` self-destroys or transfers to the continuation, if any. */
  function Finish(m: Machine, f: Id, outcome: Outcome): Machine
    requires f in m.frames
  {
    var fr := m.frames[f].(result := Some(outcome));
    if fr.detached then m.(frames := m.frames - {f}, control := Halt)
    else m.(frames := m.frames[f := fr],
            control := if fr.continuation.Some? then Run(fr.continuation.value) else Halt)
  }

  /** `await_suspend` of a task: record who awaits it and jump into it. */
  function AwaitSuspend(m: Machine, f: Id, child: Body, env: Env): Machine
    requires f in m.frames
  {
    var g := m.next;
    var frames := m.frames[f := m.frames[f].(awaited := Some(g))];
    m.(frames := frames[g := NewFrame(child, env).(continuation := Some(f))], next := g + 1, control := Run(g))
  }

  /** `await_resume`: rethrow or take the child's result, after which the task object destroys the child's frame. */
  function AwaitResume(m: Machine, f: Id, g: Id, ok: Body, err: Body): Machine
    requires f in m.frames
  {
    if g !in m.frames || g == f || m.frames[g].result.None? then m.(control := Fault)
    else
      var fr := m.frames[f].(awaited := None);
      var fr' := match m.frames[g].result.value
                 case Value(v) => fr.(code := ok, env := fr.env + [v])
                 case Exception(x) => fr.(code := err, env := fr.env + [x]);
      m.(frames := (m.frames - {g})[f := fr'])
  }

  function Step(m: Machine): Machine {
    match m.control
    case Halt => m
    case Fault => m
    case Run(f) =>
      if f !in m.frames || m.frames[f].result.Some? then m.(control := Fault)
      else
        var fr := m.frames[f];
        match fr.code
        case Return(v) => Finish(m, f, Value(v(fr.env)))
        case Throw(x) => Finish(m, f, Exception(x(fr.env)))
        case Emit(e, rest) => m.(frames := m.frames[f := fr.(code := rest)], log := m.log + [e(fr.env)])
        case Branch(test, yes, no) =>
          m.(frames := m.frames[f := fr.(code := if test(fr.env) then yes else no)])
        case Await(child, args, ok, err) =>
          if fr.awaited.Some? then AwaitResume(m, f, fr.awaited.value, ok, err)
          else AwaitSuspend(m, f, child, args(fr.env))
  }

  function Steps(m: Machine, n: nat): Machine
    decreases n
  {
    if n == 0 then m else Steps(Step(m), n - 1)
  }

  lemma {:induction false} StepsAdd(m: Machine, a: nat, b: nat)
    ensures Steps(m, a + b) == Steps(Steps(m, a), b)
    decreases a
  {
    if a > 0 { StepsAdd(Step(m), a - 1, b); }
  }

  lemma StepsChain(m: Machine, a: nat, b: nat)
    ensures Steps(m, 1 + (a + (1 + b))) == Steps(Step(Steps(Step(m), a)), b)
  {
    hide Step;
    StepsAdd(Step(m), a, 1 + b);
  }

  // ---- The machine computes the direct result ----------------------------------------------------

  /** `f` is about to run its code, and new frames get unused ids. */
  ghost predicate Ready(m: Machine, f: Id) {
    && m.control == Run(f) && f in m.frames
    && m.frames[f].result.None? && m.frames[f].awaited.None?
    && forall g :: g in m.frames ==> g < m.next
  }

  /** `m'` is `m` after `f` ran alone: only `f`'s position and locals, the log and the id counter changed. */
  ghost predicate RanAlone(m: Machine, f: Id, log: seq<Val>, m': Machine) {
    && f in m.frames && m'.frames.Keys == m.frames.Keys
    && (forall g :: g in m.frames && g != f ==> m'.frames[g] == m.frames[g])
    && (var a, b := m.frames[f], m'.frames[f];
        b.continuation == a.continuation && b.detached == a.detached && b.awaited.None?)
    && m'.next >= m.next && m'.log == m.log + log
  }

  /** Awaiting: the child is ready to run, and the parent only recorded it. */
  lemma AwaitStarts(m: Machine, f: Id)
    requires Ready(m, f) && m.frames[f].code.Await?
    ensures var b, m1, g := m.frames[f].code, Step(m), m.next;
      && Ready(m1, g) && m1.frames[g] == NewFrame(b.child, b.args(m.frames[f].env)).(continuation := Some(f))
      && m1.frames.Keys == m.frames.Keys + {g} && m1.next == m.next + 1 && m1.log == m.log
      && (forall h :: h in m.frames && h != f ==> m1.frames[h] == m.frames[h])
      && m1.frames[f] == m.frames[f].(awaited := Some(g))
  {
  }

  /** The child's end: its outcome selects the parent's branch, and its frame is gone. */
  lemma AwaitReturns(m: Machine, f: Id, log: seq<Val>, end: Machine, outcome: Outcome)
    requires Ready(m, f) && m.frames[f].code.Await?
    requires RanAlone(Step(m), m.next, log, end)
    ensures m.next in end.frames
    ensures var fr, m3 := m.frames[f], Step(Finish(end, m.next, outcome));
      && Ready(m3, f) && RanAlone(m, f, log, m3)
      && m3.frames[f].env == fr.env + [match outcome case Value(v) => v case Exception(x) => x]
      && m3.frames[f].code == if outcome.Value? then fr.code.ok else fr.code.err
  {
    AwaitStarts(m, f);
    var g := m.next;
    var m2 := Finish(end, g, outcome);
    assert end.frames[f] == m.frames[f].(awaited := Some(g));
    assert m2.control == Run(f) && m2.frames[g].result == Some(outcome);
    var m3 := AwaitResume(m2, f, g, m.frames[f].code.ok, m.frames[f].code.err);
    assert Step(m2) == m3;
    assert m3.frames.Keys == m.frames.Keys;
  }

  lemma RanAloneTwice(m: Machine, f: Id, log1: seq<Val>, m1: Machine, log2: seq<Val>, m2: Machine)
    requires RanAlone(m, f, log1, m1) && RanAlone(m1, f, log2, m2)
    ensures RanAlone(m, f, log1 + log2, m2)
  {
  }

  /** From any point inside any nest of frames, the body of `f` runs to the end of its direct evaluation. */
  lemma {:induction false} FrameRuns(m: Machine, f: Id) returns (n: nat, end: Machine)
    requires Ready(m, f)
    ensures var r := Direct(m.frames[f].code, m.frames[f].env);
      && RanAlone(m, f, r.log, end)
      && Steps(m, n) == Finish(end, f, r.outcome)
    decreases m.frames[f].code, 1
  {
    var fr := m.frames[f];
    match fr.code
    case Return(_) => n, end := 1, m; assert Steps(m, 1) == Step(m);
    case Throw(_) => n, end := 1, m; assert Steps(m, 1) == Step(m);
    case Emit(e, _) =>
      assert RanAlone(m, f, [e(fr.env)], Step(m));
      var k, end1 := FrameRuns(Step(m), f);
      RanAloneTwice(m, f, [e(fr.env)], Step(m), Direct(fr.code.next, fr.env).log, end1);
      n, end := k + 1, end1;
    case Branch(_, _, _) =>
      var k, end1 := FrameRuns(Step(m), f);
      n, end := k + 1, end1;
    case Await(_, _, _, _) =>
      n, end := AwaitRuns(m, f);
  }

  lemma {:induction false} AwaitRuns(m: Machine, f: Id) returns (n: nat, end: Machine)
    requires Ready(m, f) && m.frames[f].code.Await?
    ensures var r := Direct(m.frames[f].code, m.frames[f].env);
      && RanAlone(m, f, r.log, end)
      && Steps(m, n) == Finish(end, f, r.outcome)
    decreases m.frames[f].code, 0
  {
    var fr := m.frames[f];
    var c := Direct(fr.code.child, fr.code.args(fr.env));
    AwaitStarts(m, f);
    var k1, end1 := FrameRuns(Step(m), m.next);
    AwaitReturns(m, f, c.log, end1, c.outcome);
    hide RanAlone, Step, Steps;
    var m3 := Step(Finish(end1, m.next, c.outcome));
    var r := Direct(m3.frames[f].code, m3.frames[f].env);
    var k2, end2 := FrameRuns(m3, f);
    RanAloneTwice(m, f, c.log, m3, r.log, end2);
    n, end := 1 + (k1 + (1 + k2)), end2;
    StepsChain(m, k1, k2);
  }

  // ---- Whole programs ----------------------------------------------------------------------------

  /** A task resumed from outside any coroutine. */
  function Start(b: Body, env: Env, detached: bool): Machine {
    Machine(map[0 := NewFrame(b, env).(detached := detached)], 1, Run(0), [])
  }

  /**
    The machine stops without a fault, having shown the effects of direct evaluation. An owned task's frame then holds
    the direct outcome and every other frame is gone; a detached task's frame is gone too.
  */
  lemma MachineComputesDirect(b: Body, env: Env, detached: bool) returns (n: nat)
    ensures var m, r := Steps(Start(b, env, detached), n), Direct(b, env);
      && m.control == Halt && m.log == r.log
      && m.frames.Keys == (if detached then {} else {0})
      && (!detached ==> m.frames[0].result == Some(r.outcome))
  {
    var m := Start(b, env, detached);
    assert Ready(m, 0);
    var k, end := FrameRuns(m, 0);
    n := k;
    assert end.frames - {0} == map[];
  }

  // ---- when_all, spawn's runner --------------------------------------------------------------------

  function LastOf(env: Env): Val {
    if env == [] then Num(0) else env[|env| - 1]
  }

  /** The body of `when_all`, with `k` locals before it: await each task in argument order, then build the tuple. */
  function WhenAll(tasks: seq<Body>, k: nat): Body {
    if tasks == [] then Return((e: Env) => if k <= |e| then Tup(e[k..]) else Tup([]))
    else Await(tasks[0], (e: Env) => if k <= |e| then e[..k] else e, WhenAll(tasks[1..], k), Throw(LastOf))
  }

  /** Effects of the tasks, in argument order. */
  function Logs(tasks: seq<Body>, env: Env): seq<Val> {
    if tasks == [] then [] else Direct(tasks[0], env).log + Logs(tasks[1..], env)
  }

  function Values(tasks: seq<Body>, env: Env): (r: seq<Val>)
    requires forall t :: t in tasks ==> Direct(t, env).outcome.Value?
    ensures |r| == |tasks| && forall i :: 0 <= i < |tasks| ==> r[i] == Direct(tasks[i], env).outcome.value
  {
    if tasks == [] then [] else [Direct(tasks[0], env).outcome.value] + Values(tasks[1..], env)
  }

  /** No task throws: all run, in order, and the tuple holds their values in argument order. */
  lemma {:induction false} WhenAllValues(tasks: seq<Body>, env: Env, got: seq<Val>)
    requires forall t :: t in tasks ==> Direct(t, env).outcome.Value?
    ensures Direct(WhenAll(tasks, |env|), env + got) ==
      Eval(Logs(tasks, env), Value(Tup(got + Values(tasks, env))))
  {
    if tasks == [] {
      assert (env + got)[|env|..] == got;
      assert got + Values(tasks, env) == got;
    } else {
      var c := Direct(tasks[0], env);
      var got1 := got + [c.outcome.value];
      WhenAllValues(tasks[1..], env, got1);
      assert got1 + Values(tasks[1..], env) == got + Values(tasks, env);
      WhenAllStep(tasks, env, got);
    }
  }

  /** One task of `when_all` returns: its value joins the others and the next task starts. */
  lemma WhenAllStep(tasks: seq<Body>, env: Env, got: seq<Val>)
    requires tasks != [] && Direct(tasks[0], env).outcome.Value?
    ensures var c := Direct(tasks[0], env);
      var r := Direct(WhenAll(tasks[1..], |env|), env + (got + [c.outcome.value]));
      Direct(WhenAll(tasks, |env|), env + got) == Eval(c.log + r.log, r.outcome)
  {
    assert (env + got)[..|env|] == env;
    var v := Direct(tasks[0], env).outcome.value;
    assert env + got + [v] == env + (got + [v]);
  }

  /** Task `i` is the first to throw: its exception is the result, and no later task starts. */
  lemma {:induction false} WhenAllThrows(tasks: seq<Body>, env: Env, got: seq<Val>, i: nat)
    requires i < |tasks| && Direct(tasks[i], env).outcome.Exception?
    requires forall j :: 0 <= j < i ==> Direct(tasks[j], env).outcome.Value?
    ensures Direct(WhenAll(tasks, |env|), env + got) == Eval(Logs(tasks[..i + 1], env), Direct(tasks[i], env).outcome)
  {
    if i == 0 {
      assert (env + got)[..|env|] == env;
      assert tasks[..1] == [tasks[0]] && tasks[..1][1..] == [];
    } else {
      WhenAllThrows(tasks[1..], env, got + [Direct(tasks[0], env).outcome.value], i - 1);
      WhenAllStep(tasks, env, got);
      assert tasks[1..][..i] == tasks[..i + 1][1..];
    }
  }

  /** `spawn_runner` passes its task's effects, value or exception through unchanged. */
  lemma RunnerIsTransparent(b: Body, env: Env)
    ensures Direct(Await(b, (e: Env) => e, Return(LastOf), Throw(LastOf)), env) == Direct(b, env)
  {
  }
}
