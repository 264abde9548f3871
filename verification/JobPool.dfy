/**
  The job system's own loops: `submit`, `wait_idle`, the destructor and `worker_main`, each running against whatever the
  other threads do in between. Every method's trace is a run of the model.
*/
module JobPools {
  import opened Options
  import opened Words
  import opened JobSystem
  import opened JobRuns

  datatype Thread = Submitter | WorkerThread(index: nat)

  /** Which thread takes a step. */
  function ThreadOf(step: Step): Thread {
    match step
    case Take(i, _) => WorkerThread(i)
    case RunJob(i) => WorkerThread(i)
    case Discount(i) => WorkerThread(i)
    case SeeStop(i) => WorkerThread(i)
    case _ => Submitter
  }

  /** What the other threads do before this thread's next operation, and how recent its next index load is. */
  datatype Moment = Moment(others: seq<Step>, view: nat)

  /** One round of a worker: what others do before it pops, runs and counts, and whether it sees a stop request. */
  datatype Round = Round(before: seq<Step>, view: nat, during: seq<Step>, after: seq<Step>, sees: bool)

  /** The part of a worker's record that only its own thread changes. */
  predicate SameProgress(w: Worker, w1: Worker) {
    w1.taken == w.taken && w1.ran == w.ran && w1.phase == w.phase && w1.mode == w.mode && w1.seenHead == w.seenHead
    && w.jobs <= w1.jobs
  }

  function Clamp(v: nat, low: nat, high: nat): (r: nat)
    requires low <= high
    ensures low <= r <= high
  {
    if v < low then low else if v > high then high else v
  }

  /** A step of another thread leaves a worker's progress alone. */
  lemma OthersKeepProgress(s: State, step: Step, i: nat)
    requires Inv(s) && CanStep(s, step) && i < |s.workers| && ThreadOf(step) != WorkerThread(i)
    ensures |DoStep(s, step).workers| == |s.workers| && SameProgress(s.workers[i], DoStep(s, step).workers[i])
    ensures s.stopping ==> DoStep(s, step).stopping
  {
  }

  lemma {:induction false} ExecConcat(s: State, a: seq<Step>, b: seq<Step>)
    requires Inv(s) && Exec(s, a).Some?
    ensures Exec(s, a + b) == Exec(Exec(s, a).value, b)
    decreases |b|
  {
    hide Inv;
    if b == [] {
      assert a + b == a;
    } else {
      assert (a + b)[..|a + b| - 1] == a + b[..|b| - 1];
      ExecConcat(s, a, b[..|b| - 1]);
    }
  }

  lemma {:induction false} AcceptedConcat(a: seq<Step>, b: seq<Step>)
    requires forall k :: 0 <= k < |b| ==> b[k] != Count
    ensures Accepted(a + b) == Accepted(a)
    decreases |b|
  {
    if b == [] {
      assert a + b == a;
    } else {
      assert (a + b)[..|a + b| - 1] == a + b[..|b| - 1];
      AcceptedConcat(a, b[..|b| - 1]);
    }
  }

  lemma {:induction false} CalledConcat(a: seq<Step>, b: seq<Step>)
    requires forall k :: 0 <= k < |b| ==> !b[k].SubmitCall?
    ensures LastCalled(a + b) == LastCalled(a)
    decreases |b|
  {
    if b == [] {
      assert a + b == a;
    } else {
      assert (a + b)[..|a + b| - 1] == a + b[..|b| - 1];
      CalledConcat(a, b[..|b| - 1]);
    }
  }

  /** What the workers' steps come to, impossible ones left out. */
  ghost function AfterWorkers(s: State, steps: seq<Step>): (r: State)
    requires Inv(s)
    ensures Inv(r)
  {
    if steps == [] then s
    else
      var m, step := AfterWorkers(s, steps[..|steps| - 1]), steps[|steps| - 1];
      if ThreadOf(step) != Submitter && CanStep(m, step) then StepKeeps(m, step); DoStep(m, step) else m
  }

  /** The same, for what the workers do between the turns of a spinning thread. */
  ghost function AfterTurns(s: State, turns: seq<seq<Step>>): (r: State)
    requires Inv(s)
    ensures Inv(r)
  {
    if turns == [] then s else AfterWorkers(AfterTurns(s, turns[..|turns| - 1]), turns[|turns| - 1])
  }

  lemma AfterTurnsStep(s: State, turns: seq<seq<Step>>, k: nat)
    requires Inv(s) && k < |turns|
    ensures AfterTurns(s, turns[..k + 1]) == AfterWorkers(AfterTurns(s, turns[..k]), turns[k])
  {
    hide Inv, AfterWorkers;
    assert turns[..k + 1][..k] == turns[..k];
  }

  /** How often worker `i` has looked into its queue. */
  function Pops(trace: seq<Step>, i: nat): nat {
    if trace == [] then 0
    else
      var step := trace[|trace| - 1];
      Pops(trace[..|trace| - 1], i) + if step.Take? && step.worker == i then 1 else 0
  }

  lemma PopsStep(trace: seq<Step>, step: Step, i: nat)
    ensures Pops(trace + [step], i) == Pops(trace, i) + if step.Take? && step.worker == i then 1 else 0
  {
    assert (trace + [step])[..|trace|] == trace;
  }

  class JobPool {
    var workers: seq<Worker>
    var nextQueue: nat
    var counter: nat
    var submit: JobSystem.Submit
    var stopping: bool

    function Abs(): State
      reads this
    {
      State(workers, nextQueue, counter, submit, stopping)
    }

    constructor (n: nat)
      ensures Abs() == Start(n) && Inv(Abs())
    {
      workers, nextQueue, counter, submit, stopping := seq(n, _ => NewWorker()), 0, 0, Ready, false;
      new;
      InitialOk(n);
    }

    /** One atomic operation of one thread; an operation that is not possible now does not happen. */
    method Perform(step: Step) returns (taken: bool)
      requires Inv(Abs())
      modifies this
      ensures Inv(Abs()) && taken == CanStep(old(Abs()), step)
      ensures Abs() == if taken then DoStep(old(Abs()), step) else old(Abs())
    {
      taken := CanStep(Abs(), step);
      if !taken {
        return;
      }
      StepKeeps(Abs(), step);
      match step
      case SubmitCall(job) =>
        submit := Probing(job, nextQueue % |workers|, 0);
        nextQueue := (nextQueue + 1) % U32;
      case Probe(v) => TryPush(v);
      case Reject => submit := Ready;
      case Count => counter, submit := (counter + 1) % U32, Ready;
      case Take(i, v) => TryPop(i, v);
      case RunJob(i) =>
        workers := workers[i := workers[i].(ran := workers[i].ran + [workers[i].phase.job], phase := Finished)];
      case Discount(i) =>
        workers := workers[i := workers[i].(phase := Idle)];
        counter := (counter - 1) % U32;
      case RequestStop => stopping := true;
      case SeeStop(i) =>
        workers := workers[i := workers[i].(mode := Draining, seenHead := |workers[i].jobs|)];
    }

    /** `try_push` on the queue whose turn it is. */
    method TryPush(v: nat)
      requires CanStep(Abs(), Probe(v))
      modifies this
      ensures Abs() == DoProbe(old(Abs()), v)
    {
      var t := (submit.start + submit.tried) % |workers|;
      var w := workers[t].(seenTail := v);
      if |w.jobs| - v == QUEUE_CAPACITY - 1 {
        workers := workers[t := w];
        submit := submit.(tried := submit.tried + 1);
      } else {
        workers := workers[t := w.(jobs := w.jobs + [submit.job])];
        submit := Pushed;
      }
    }

    /** `try_pop` on the worker's own queue. */
    method TryPop(i: nat, v: nat)
      requires Inv(Abs()) && CanStep(Abs(), Take(i, v))
      modifies this
      ensures Abs() == DoStep(old(Abs()), Take(i, v))
    {
      assert WorkerOk(workers[i]);
      var w := workers[i].(seenHead := v);
      if w.taken < v {
        w := w.(taken := w.taken + 1, phase := Holding(w.jobs[w.taken]));
      } else if w.mode.Draining? {
        w := w.(mode := Exited);
      }
      workers := workers[i := w];
    }

    /** Worker threads run while the submitting thread does not. */
    method WorkersRun(steps: seq<Step>) returns (trace: seq<Step>)
      requires Inv(Abs())
      modifies this
      ensures Inv(Abs()) && Exec(old(Abs()), trace) == Some(Abs())
      ensures submit == old(submit) && stopping == old(stopping) && |workers| == |old(workers)|
      ensures forall k :: 0 <= k < |trace| ==> ThreadOf(trace[k]) != Submitter
      ensures Abs() == AfterWorkers(old(Abs()), steps)
    {
      hide Inv, CanStep, DoStep;
      trace := [];
      for k := 0 to |steps|
        invariant Abs() == AfterWorkers(old(Abs()), steps[..k])
        invariant Inv(Abs()) && Exec(old(Abs()), trace) == Some(Abs())
        invariant submit == old(submit) && stopping == old(stopping) && |workers| == |old(workers)|
        invariant forall k :: 0 <= k < |trace| ==> ThreadOf(trace[k]) != Submitter
      {
        assert steps[..k + 1][..k] == steps[..k];
        if ThreadOf(steps[k]) != Submitter {
          WorkersOnly(Abs(), steps[k]);
          var taken := Perform(steps[k]);
          if taken {
            ghost var r := StepTo(old(Abs()), trace, steps[k]);
            trace := trace + [steps[k]];
          }
        }
      }
      assert steps[..|steps|] == steps;
    }

    /** This thread's operation after `trace`; it is possible, and one more step of the run. */
    method Then(step: Step, ghost s0: State, ghost trace: seq<Step>)
      requires Inv(s0) && Inv(Abs()) && Exec(s0, trace) == Some(Abs()) && CanStep(Abs(), step)
      modifies this
      ensures Inv(Abs()) && Abs() == DoStep(old(Abs()), step) && Exec(s0, trace + [step]) == Some(Abs())
    {
      hide Inv;
      ghost var r := StepTo(s0, trace, step);
      var taken := Perform(step);
    }

    /**
      Tries the queues in turn. True means this job, and no other, was accepted; false means every queue was full when
      it was probed and nothing was accepted.
    */
    method Submit(job: Job, env: seq<Moment>) returns (ok: bool, trace: seq<Step>)
      requires Inv(Abs()) && submit.Ready? && !stopping && workers != [] && |env| > |workers|
      modifies this
      ensures Inv(Abs()) && submit.Ready? && Exec(old(Abs()), trace) == Some(Abs())
      ensures Accepted(trace) == if ok then [job] else []
      ensures !ok ==> forall i :: 0 <= i < |workers| ==> Full(workers[i])
    {
      hide Inv;
      ghost var s0 := Abs();
      assert [] + [SubmitCall(job)] == [SubmitCall(job)];
      Then(SubmitCall(job), s0, []);
      trace := [SubmitCall(job)];
      var n := |workers|;
      for i := 0 to n
        invariant Inv(Abs()) && Exec(s0, trace) == Some(Abs()) && |workers| == n && !stopping
        invariant submit.Probing? && submit.job == job && submit.tried == i
        invariant Accepted(trace) == [] && LastCalled(trace) == job
      {
        trace := Interleave(env[i].others, s0, trace);
        WorkersAreOk(Abs());
        var t := Target(Abs());
        var probe := Probe(Clamp(env[i].view, workers[t].seenTail, workers[t].taken));
        OneMoreStep(trace, probe);
        Then(probe, s0, trace);
        trace := trace + [probe];
        if submit.Pushed? {
          trace := Interleave(env[i + 1].others, s0, trace);
          OneMoreStep(trace, Count);
          Then(Count, s0, trace);
          trace := trace + [Count];
          return true, trace;
        }
      }
      RejectedMeansAllFull(Abs());
      OneMoreStep(trace, Reject);
      Then(Reject, s0, trace);
      trace := trace + [Reject];
      ok := false;
    }

    method Interleave(steps: seq<Step>, ghost s0: State, trace: seq<Step>) returns (longer: seq<Step>)
      requires Inv(s0) && Inv(Abs()) && Exec(s0, trace) == Some(Abs())
      modifies this
      ensures Inv(Abs()) && Exec(s0, longer) == Some(Abs())
      ensures submit == old(submit) && stopping == old(stopping) && |workers| == |old(workers)|
      ensures Accepted(longer) == Accepted(trace) && LastCalled(longer) == LastCalled(trace)
      ensures Abs() == AfterWorkers(old(Abs()), steps)
    {
      hide Inv, AfterWorkers;
      var more := WorkersRun(steps);
      longer := trace + more;
      ExecConcat(s0, trace, more);
      AcceptedConcat(trace, more);
      CalledConcat(trace, more);
    }

    /** Spins until the counter reads zero; then every job accepted so far has run. */
    method WaitIdle(env: seq<seq<Step>>) returns (idle: bool, used: nat, trace: seq<Step>)
      requires Inv(Abs()) && submit.Ready? && |workers| * QUEUE_CAPACITY < U32
      modifies this
      ensures Inv(Abs()) && submit.Ready? && Exec(old(Abs()), trace) == Some(Abs()) && Accepted(trace) == []
      ensures idle <==> AllRan(Abs())
      ensures used <= |env| && (!idle ==> used == |env|) && Abs() == AfterTurns(old(Abs()), env[..used])
      ensures forall j :: 0 <= j < used ==> AfterTurns(old(Abs()), env[..j]).counter != 0
    {
      hide Inv, AfterWorkers;
      trace, used := [], 0;
      while counter != 0 && used < |env|
        invariant used <= |env| && Inv(Abs()) && submit.Ready? && |workers| == |old(workers)|
        invariant Exec(old(Abs()), trace) == Some(Abs()) && Accepted(trace) == []
        invariant Abs() == AfterTurns(old(Abs()), env[..used])
        invariant forall j :: 0 <= j < used ==> AfterTurns(old(Abs()), env[..j]).counter != 0
        decreases |env| - used
      {
        AfterTurnsStep(old(Abs()), env, used);
        trace := Interleave(env[used], old(Abs()), trace);
        used := used + 1;
      }
      ZeroMeansAllRan(Abs());
      idle := counter == 0;
    }

    /** The destructor: asks every worker to stop and joins them; then every accepted job has run. */
    method Shutdown(env: seq<seq<Step>>) returns (joined: bool, trace: seq<Step>)
      requires Inv(Abs()) && submit.Ready?
      modifies this
      ensures Inv(Abs()) && stopping && Exec(old(Abs()), trace) == Some(Abs())
      ensures Inv(old(Abs()).(stopping := true)) && Abs() == AfterTurns(old(Abs()).(stopping := true), env)
      ensures joined <==> forall i :: 0 <= i < |workers| ==> workers[i].mode.Exited?
      ensures joined ==> AllRan(Abs())
    {
      hide Inv, AfterWorkers;
      assert [] + [RequestStop] == [RequestStop];
      Then(RequestStop, Abs(), []);
      trace := [RequestStop];
      ghost var s0 := Abs();
      for k := 0 to |env|
        invariant Inv(Abs()) && stopping && Exec(old(Abs()), trace) == Some(Abs())
        invariant Abs() == AfterTurns(s0, env[..k])
      {
        AfterTurnsStep(s0, env, k);
        trace := Interleave(env[k], old(Abs()), trace);
      }
      assert env[..|env|] == env;
      joined := forall i :: 0 <= i < |workers| ==> workers[i].mode.Exited?;
      if joined {
        ExitedRanEverything(Abs());
      }
    }

    /** All threads but worker `i` run. */
    method OthersRun(i: nat, steps: seq<Step>, ghost s0: State, trace: seq<Step>) returns (longer: seq<Step>)
      requires Inv(s0) && Inv(Abs()) && Exec(s0, trace) == Some(Abs()) && i < |workers|
      modifies this
      ensures Inv(Abs()) && Exec(s0, longer) == Some(Abs()) && |workers| == |old(workers)|
      ensures SameProgress(old(workers)[i], workers[i]) && (old(stopping) ==> stopping)
      ensures Pops(longer, i) == Pops(trace, i)
    {
      hide Inv, Pops;
      longer := trace;
      for k := 0 to |steps|
        invariant Inv(Abs()) && Exec(s0, longer) == Some(Abs()) && |workers| == |old(workers)|
        invariant Pops(longer, i) == Pops(trace, i)
        invariant SameProgress(old(workers)[i], workers[i]) && (old(stopping) ==> stopping)
      {
        if ThreadOf(steps[k]) != WorkerThread(i) && CanStep(Abs(), steps[k]) {
          OthersKeepProgress(Abs(), steps[k], i);
          PopsStep(longer, steps[k], i);
          Then(steps[k], s0, longer);
          longer := longer + [steps[k]];
        }
      }
    }

    /** Runs the job in hand, then counts it down. */
    method RunHeld(i: nat, round: Round, ghost s0: State, trace: seq<Step>) returns (longer: seq<Step>)
      requires Inv(s0) && Inv(Abs()) && Exec(s0, trace) == Some(Abs()) && i < |workers| && workers[i].phase.Holding?
      modifies this
      ensures Inv(Abs()) && Exec(s0, longer) == Some(Abs()) && |workers| == |old(workers)| && (old(stopping) ==> stopping)
      ensures workers[i].phase.Idle? && workers[i].mode == old(workers)[i].mode
      ensures workers[i].ran == old(workers)[i].ran + [old(workers)[i].phase.job]
      ensures Pops(longer, i) == Pops(trace, i)
    {
      hide Inv, CanStep, Exec, Pops;
      longer := OthersRun(i, round.during, s0, trace);
      var run, count := RunJob(i), Discount(i);
      assert CanStep(Abs(), run) by { HoldsJob(Abs(), i); }
      PopsStep(longer, run, i);
      Then(run, s0, longer);
      longer := longer + [run];
      longer := OthersRun(i, round.after, s0, longer);
      assert CanStep(Abs(), count) by { HasFinished(Abs(), i); }
      PopsStep(longer, count, i);
      Then(count, s0, longer);
      longer := longer + [count];
    }

    /** One `try_pop`, and if it got a job, the job and the countdown. */
    method PopAndRun(i: nat, round: Round, ghost s0: State, trace: seq<Step>) returns (got: bool, longer: seq<Step>)
      requires Inv(s0) && Inv(Abs()) && Exec(s0, trace) == Some(Abs())
      requires i < |workers| && workers[i].phase.Idle? && !workers[i].mode.Exited?
      modifies this
      ensures Inv(Abs()) && Exec(s0, longer) == Some(Abs()) && |workers| == |old(workers)| && (old(stopping) ==> stopping)
      ensures workers[i].phase.Idle? && old(workers)[i].ran <= workers[i].ran
      ensures |workers[i].ran| == |old(workers)[i].ran| + if got then 1 else 0
      ensures workers[i].mode == if !got && old(workers)[i].mode.Draining? then Exited else old(workers)[i].mode
      ensures Pops(longer, i) == Pops(trace, i) + 1
    {
      hide Inv, CanStep, DoStep, Exec, Pops;
      var view := Clamp(round.view, workers[i].seenHead, |workers[i].jobs|) by { WorkerIsOk(Abs(), i); }
      var take := Take(i, view);
      TakeEffect(Abs(), i, view);
      PopsStep(trace, take, i);
      Then(take, s0, trace);
      longer := trace + [take];
      got := workers[i].phase.Holding?;
      if got {
        longer := RunHeld(i, round, s0, longer);
      }
    }

    /** The first loop of `worker_main`: serve until a stop request is seen. */
    method Serve(i: nat, env: seq<Round>, ghost s0: State) returns (k: nat, trace: seq<Step>)
      requires Inv(Abs()) && s0 == Abs() && i < |workers| && workers[i].phase.Idle? && workers[i].mode.Serving?
      modifies this
      ensures Inv(Abs()) && Exec(s0, trace) == Some(Abs()) && |workers| == |old(workers)|
      ensures workers[i].phase.Idle? && workers[i].mode.Serving?
      ensures k <= |env| && Pops(trace, i) == k && (k < |env| ==> env[k].sees && stopping)
    {
      trace, k := [], 0;
      assert Pops(trace, i) == 0;
      hide Inv, Pops;
      var got;
      while k < |env| && !(env[k].sees && stopping)
        invariant 0 <= k <= |env| && Inv(Abs()) && Exec(s0, trace) == Some(Abs()) && |workers| == |old(workers)|
        invariant workers[i].phase.Idle? && workers[i].mode.Serving? && Pops(trace, i) == k
        decreases |env| - k
      {
        trace := OthersRun(i, env[k].before, s0, trace);
        got, trace := PopAndRun(i, env[k], s0, trace);
        k := k + 1;
      }
    }

    /** The second loop: drain the queue. */
    method DrainQueue(i: nat, env: seq<Round>, k: nat, ghost s0: State, before: seq<Step>)
      returns (exited: bool, used: nat, trace: seq<Step>)
      requires Inv(s0) && Inv(Abs()) && Exec(s0, before) == Some(Abs()) && stopping
      requires i < |workers| && workers[i].phase.Idle? && workers[i].mode.Draining? && k <= |env| && Pops(before, i) == k
      modifies this
      ensures Inv(Abs()) && Exec(s0, trace) == Some(Abs()) && |workers| == |old(workers)| && stopping
      ensures workers[i].phase.Idle? && workers[i].mode == if exited then Exited else Draining
      ensures k <= used <= |env| && Pops(trace, i) == used && (!exited ==> used == |env|)
    {
      hide Inv, Pops;
      trace, used, exited := before, k, false;
      var got;
      while used < |env| && !exited
        invariant k <= used <= |env| && Inv(Abs()) && Exec(s0, trace) == Some(Abs()) && |workers| == |old(workers)| && stopping
        invariant workers[i].phase.Idle? && workers[i].mode == (if exited then Exited else Draining) && Pops(trace, i) == used
        decreases |env| - used
      {
        trace := OthersRun(i, env[used].before, s0, trace);
        got, trace := PopAndRun(i, env[used], s0, trace);
        exited := !got;
        used := used + 1;
      }
    }

    /**
      `worker_main`: serves until it sees a stop request, then drains. It looks into its queue once per round and leaves only
      when a stop was asked for and its whole queue has run in order.
    */
    method WorkerMain(i: nat, env: seq<Round>) returns (exited: bool, used: nat, trace: seq<Step>)
      requires Inv(Abs()) && i < |workers| && workers[i].phase.Idle? && workers[i].mode.Serving?
      modifies this
      ensures Inv(Abs()) && Exec(old(Abs()), trace) == Some(Abs()) && |workers| == |old(workers)|
      ensures exited <==> workers[i].mode.Exited?
      ensures exited ==> stopping && workers[i].ran == workers[i].jobs
      ensures used <= |env| && Pops(trace, i) == used && (!exited ==> used == |env|)
    {
      hide Inv, Pops, Exec;
      ghost var s0 := Abs();
      used, trace := Serve(i, env, s0);
      exited := false;
      if used == |env| {
        return;
      }
      PopsStep(trace, SeeStop(i), i);
      Then(SeeStop(i), s0, trace);
      trace := trace + [SeeStop(i)];
      exited, used, trace := DrainQueue(i, env, used, s0, trace);
      WorkerIsOk(Abs(), i);
    }
  }

  /** A worker's step leaves the submit and the stop request alone. */
  lemma WorkersOnly(s: State, step: Step)
    requires Inv(s) && ThreadOf(step) != Submitter
    ensures CanStep(s, step) ==>
      DoStep(s, step).submit == s.submit && DoStep(s, step).stopping == s.stopping && |DoStep(s, step).workers| == |s.workers|
  {
    hide Inv;
  }

  /** A worker between jobs can always pop; it gets a job, or learns that there is none. */
  lemma TakeEffect(s: State, i: nat, v: nat)
    requires Inv(s) && i < |s.workers| && s.workers[i].phase.Idle? && !s.workers[i].mode.Exited?
    requires s.workers[i].seenHead <= v <= |s.workers[i].jobs|
    ensures CanStep(s, Take(i, v))
    ensures var r := DoStep(s, Take(i, v));
      && |r.workers| == |s.workers| && r.stopping == s.stopping && r.workers[i].ran == s.workers[i].ran
      && (r.workers[i].phase.Holding? || r.workers[i].phase.Idle?)
      && r.workers[i].mode ==
         if r.workers[i].phase.Idle? && s.workers[i].mode.Draining? then Exited else s.workers[i].mode
  {
    assert WorkerOk(s.workers[i]);
  }

  lemma HoldsJob(s: State, i: nat)
    requires i < |s.workers| && s.workers[i].phase.Holding?
    ensures CanStep(s, RunJob(i))
  {
  }

  lemma HasFinished(s: State, i: nat)
    requires i < |s.workers| && s.workers[i].phase.Finished?
    ensures CanStep(s, Discount(i))
  {
  }

  lemma WorkerIsOk(s: State, i: nat)
    requires Inv(s) && i < |s.workers|
    ensures WorkerOk(s.workers[i])
  {
  }

  lemma WorkersAreOk(s: State)
    requires Inv(s)
    ensures forall i :: 0 <= i < |s.workers| ==> s.workers[i].seenTail <= s.workers[i].taken
  {
    assert forall i :: 0 <= i < |s.workers| ==> WorkerOk(s.workers[i]);
  }
}
