/** What every run of the job system satisfies: idle means done, each accepted job runs once and in order, shutdown loses none. */
module JobRuns {
  import opened Options
  import opened Words
  import opened JobSystem

  /** The state after a run, or `None` if some step was not possible. */
  ghost function Exec(s: State, steps: seq<Step>): (r: Option<State>)
    requires Inv(s)
    ensures r.Some? ==> Inv(r.value) && |r.value.workers| == |s.workers|
  {
    if steps == [] then Some(s)
    else
      var step := steps[|steps| - 1];
      match Exec(s, steps[..|steps| - 1])
      case None => None
      case Some(m) => if CanStep(m, step) then StepKeeps(m, step); Some(DoStep(m, step)) else None
  }

  // ---- wait_idle ---------------------------------------------------------------------------------------------

  /** At most one queue's worth of jobs waits per worker, and one is in hand. */
  lemma {:induction false} TotalBounds(ws: seq<Worker>)
    requires forall i :: 0 <= i < |ws| ==> WorkerOk(ws[i])
    ensures 0 <= TotalOpen(ws) <= |ws| * QUEUE_CAPACITY
    ensures TotalOpen(ws) == 0 <==> forall i :: 0 <= i < |ws| ==> Open(ws[i]) == 0
  {
    if ws != [] {
      TotalBounds(ws[1..]);
      assert WorkerOk(ws[0]) && 0 <= Open(ws[0]) <= QUEUE_CAPACITY;
      assert forall i :: 0 <= i < |ws| ==> ws[i] == if i == 0 then ws[0] else ws[1..][i - 1];
    }
  }

  ghost predicate AllRan(s: State) {
    forall i :: 0 <= i < |s.workers| ==> s.workers[i].ran == s.workers[i].jobs && s.workers[i].phase.Idle?
  }

  /** Between submits the counter is zero exactly when every pushed job has run and been counted down. */
  lemma ZeroMeansAllRan(s: State)
    requires Inv(s) && s.submit.Ready? && |s.workers| * QUEUE_CAPACITY < U32
    ensures s.counter == 0 <==> AllRan(s)
  {
    assert s.counter == TotalOpen(s.workers) % U32;
    forall i | 0 <= i < |s.workers|
      ensures WorkerOk(s.workers[i])
      ensures Open(s.workers[i]) == 0 <==> s.workers[i].ran == s.workers[i].jobs && s.workers[i].phase.Idle?
    {
      assert WorkerOk(s.workers[i]);
    }
    hide Inv, Open, WorkerOk;
    TotalBounds(s.workers);
  }

  /**
    `wait_idle`, called between submits, returns only when every accepted job has finished, although the counter can be
    below zero, that is near 2^32, inside a submit.
  */
  lemma IdleMeansAllRan(n: nat, steps: seq<Step>)
    requires n * QUEUE_CAPACITY < U32
    requires Inv(Start(n)) && Exec(Start(n), steps).Some? && Exec(Start(n), steps).value.submit.Ready?
    ensures var s := Exec(Start(n), steps).value;
      s.counter == 0 <==> AllRan(s)
  {
    hide Inv;
    ZeroMeansAllRan(Exec(Start(n), steps).value);
  }

  /** Without another submit nothing opens again, so a zero that was read a while ago still counts. */
  lemma IdleIsStable(s: State, step: Step)
    requires Inv(s) && s.submit.Ready? && AllRan(s) && CanStep(s, step) && !step.SubmitCall?
    ensures DoStep(s, step).submit.Ready? && AllRan(DoStep(s, step))
  {
    match step
    case Take(i, v) => assert WorkerOk(s.workers[i]);
    case SeeStop(i) =>
    case RequestStop =>
    case RunJob(i) =>
    case Discount(i) =>
    case Probe(_) =>
    case Reject =>
    case Count =>
  }

  /** The counter does wrap: a worker can count a job down before the submitter counted it. */
  lemma CounterWrapsInsideSubmit()
    ensures Inv(Start(1))
    ensures var r := Exec(Start(1), [SubmitCall(7), Probe(0), Take(0, 1), RunJob(0), Discount(0)]);
      r.Some? && r.value.counter == U32 - 1 && r.value.submit == Pushed
  {
    InitialOk(1);
    hide Inv;
    var s0 := Start(1);
    var t1 := [SubmitCall(7)];
    var s1 := StepTo(s0, [], SubmitCall(7));
    assert [] + t1 == t1;
    assert s1 == State([NewWorker()], 1, 0, Probing(7, 0, 0), false);
    var s2 := StepTo(s0, t1, Probe(0));
    assert s2 == State([Worker([7], 0, [], 0, 0, Idle, Serving)], 1, 0, Pushed, false);
    WrapRest(s0, t1 + [Probe(0)], s2);
    assert t1 + [Probe(0)] + [Take(0, 1)] + [RunJob(0)] + [Discount(0)] ==
      [SubmitCall(7), Probe(0), Take(0, 1), RunJob(0), Discount(0)];
  }

  lemma WrapRest(s0: State, steps: seq<Step>, s2: State)
    requires Inv(s0) && Exec(s0, steps) == Some(s2)
    requires s2 == State([Worker([7], 0, [], 0, 0, Idle, Serving)], 1, 0, Pushed, false)
    ensures var r := Exec(s0, steps + [Take(0, 1)] + [RunJob(0)] + [Discount(0)]);
      r.Some? && r.value.counter == U32 - 1 && r.value.submit == Pushed
  {
    hide Inv;
    var s3 := StepTo(s0, steps, Take(0, 1));
    assert s3.workers[0].phase == Holding(7);
    var s4 := StepTo(s0, steps + [Take(0, 1)], RunJob(0));
    assert s4.workers[0].phase == Finished;
    var s5 := StepTo(s0, steps + [Take(0, 1)] + [RunJob(0)], Discount(0));
  }

  lemma StepTo(s: State, steps: seq<Step>, step: Step) returns (r: State)
    requires Inv(s) && Exec(s, steps).Some? && CanStep(Exec(s, steps).value, step)
    ensures Exec(s, steps + [step]) == Some(r) && r == DoStep(Exec(s, steps).value, step)
  {
    hide Inv;
    assert (steps + [step])[..|steps|] == steps;
    r := DoStep(Exec(s, steps).value, step);
  }

  // ---- Exactly once, in order -----------------------------------------------------------------------------------

  /** All jobs ever pushed, over all queues. */
  function AllJobs(ws: seq<Worker>): multiset<Job> {
    if ws == [] then multiset{} else multiset(ws[0].jobs) + AllJobs(ws[1..])
  }

  /** The job of the latest call of `submit`, by the trace alone. */
  function LastCalled(steps: seq<Step>): Job {
    if steps == [] then 0
    else
      match steps[|steps| - 1]
      case SubmitCall(job) => job
      case _ => LastCalled(steps[..|steps| - 1])
  }

  /** The jobs for which `submit` returned true, in the order of the calls, by the trace alone. */
  function Accepted(steps: seq<Step>): seq<Job> {
    if steps == [] then []
    else
      var init := steps[..|steps| - 1];
      Accepted(init) + if steps[|steps| - 1] == Count then [LastCalled(init)] else []
  }

  /** `a` comes from `b` by leaving elements out. */
  predicate Subsequence(a: seq<Job>, b: seq<Job>) {
    a == [] ||
    (b != [] && ((a[|a| - 1] == b[|b| - 1] && Subsequence(a[..|a| - 1], b[..|b| - 1])) || Subsequence(a, b[..|b| - 1])))
  }

  lemma SubsequenceGrows(a: seq<Job>, b: seq<Job>, x: Job)
    requires Subsequence(a, b)
    ensures Subsequence(a, b + [x]) && Subsequence(a + [x], b + [x])
  {
    assert (a + [x])[..|a|] == a && (b + [x])[..|b|] == b;
  }

  lemma {:induction false} JobsUpdate(ws: seq<Worker>, i: nat, w: Worker, x: Job)
    requires i < |ws|
    ensures AllJobs(ws[i := w])[x] + multiset(ws[i].jobs)[x] == AllJobs(ws)[x] + multiset(w.jobs)[x]
  {
    if i == 0 {
      assert ws[i := w][1..] == ws[1..];
    } else {
      JobsUpdate(ws[1..], i - 1, w, x);
      assert ws[i := w][1..] == ws[1..][i - 1 := w];
    }
  }

  lemma {:induction false} JobsNone(ws: seq<Worker>)
    requires forall i :: 0 <= i < |ws| ==> ws[i].jobs == []
    ensures AllJobs(ws) == multiset{}
  {
    if ws != [] { JobsNone(ws[1..]); }
  }

  /** The accepted jobs and the one that is pushed but not yet counted. */
  function PushedJobs(s: State, steps: seq<Step>): seq<Job> {
    Accepted(steps) + if s.submit.Pushed? then [LastCalled(steps)] else []
  }

  /** The queues hold `jobs` between them, each in order. */
  ghost predicate Holds(ws: seq<Worker>, jobs: seq<Job>) {
    AllJobs(ws) == multiset(jobs) && forall i :: 0 <= i < |ws| ==> Subsequence(ws[i].jobs, jobs)
  }

  lemma SameJobs(ws: seq<Worker>, i: nat, w: Worker, jobs: seq<Job>)
    requires Holds(ws, jobs) && i < |ws| && w.jobs == ws[i].jobs
    ensures Holds(ws[i := w], jobs)
  {
    forall x: Job ensures AllJobs(ws[i := w])[x] == AllJobs(ws)[x] {
      JobsUpdate(ws, i, w, x);
    }
    assert AllJobs(ws[i := w]) == AllJobs(ws);
    assert forall k :: 0 <= k < |ws| ==> ws[i := w][k].jobs == ws[k].jobs;
  }

  lemma OneMoreJob(ws: seq<Worker>, i: nat, w: Worker, jobs: seq<Job>, x: Job)
    requires Holds(ws, jobs) && i < |ws| && w.jobs == ws[i].jobs + [x]
    ensures Holds(ws[i := w], jobs + [x])
  {
    var ws1 := ws[i := w];
    forall y: Job ensures AllJobs(ws1)[y] == multiset(jobs + [x])[y] {
      JobsUpdate(ws, i, w, y);
    }
    assert AllJobs(ws1) == multiset(jobs + [x]);
    forall k | 0 <= k < |ws1| ensures Subsequence(ws1[k].jobs, jobs + [x]) {
      SubsequenceGrows(ws[k].jobs, jobs, x);
    }
  }

  lemma OneMoreStep(steps: seq<Step>, step: Step)
    ensures Accepted(steps + [step]) == Accepted(steps) + if step == Count then [LastCalled(steps)] else []
    ensures LastCalled(steps + [step]) == if step.SubmitCall? then step.job else LastCalled(steps)
  {
    assert (steps + [step])[..|steps + [step]| - 1] == steps;
  }

  /** This step pushes the job of the current submit. */
  ghost predicate Pushes(s: State, step: Step)
    requires Inv(s) && CanStep(s, step)
  {
    s.submit.Probing? && DoStep(s, step).submit.Pushed?
  }

  lemma StepTrace(s: State, steps: seq<Step>, step: Step)
    requires Inv(s) && CanStep(s, step) && (s.submit.Probing? ==> s.submit.job == LastCalled(steps))
    ensures var r := DoStep(s, step);
      && PushedJobs(r, steps + [step]) == (PushedJobs(s, steps) + if Pushes(s, step) then [LastCalled(steps)] else [])
      && (r.submit.Probing? ==> r.submit.job == LastCalled(steps + [step]))
  {
    OneMoreStep(steps, step);
    hide Inv, Accepted, LastCalled;
  }

  lemma StepQueues(s: State, step: Step, jobs: seq<Job>)
    requires Inv(s) && CanStep(s, step) && Holds(s.workers, jobs)
    ensures Holds(DoStep(s, step).workers, jobs + if Pushes(s, step) then [s.submit.job] else [])
  {
    hide Holds, Inv;
    var r := DoStep(s, step);
    assert jobs + [] == jobs;
    match step
    case Probe(_) =>
      if r.submit.Pushed? {
        OneMoreJob(s.workers, Target(s), r.workers[Target(s)], jobs, s.submit.job);
      } else {
        SameJobs(s.workers, Target(s), r.workers[Target(s)], jobs);
      }
    case Take(i, _) => SameJobs(s.workers, i, r.workers[i], jobs);
    case RunJob(i) => SameJobs(s.workers, i, r.workers[i], jobs);
    case Discount(i) => SameJobs(s.workers, i, r.workers[i], jobs);
    case SeeStop(i) => SameJobs(s.workers, i, r.workers[i], jobs);
    case SubmitCall(_) =>
    case Reject =>
    case Count =>
    case RequestStop =>
  }

  /**
    Between submits the queues hold exactly the accepted jobs, each queue in the order of the calls, and each worker has
    run a prefix of its own queue: no job twice, none skipped, none by another worker.
  */
  lemma AcceptedOnceInOrder(n: nat, steps: seq<Step>)
    requires Inv(Start(n)) && Exec(Start(n), steps).Some?
    ensures var s := Exec(Start(n), steps).value;
      && (s.submit.Ready? ==> AllJobs(s.workers) == multiset(Accepted(steps)))
      && forall i :: 0 <= i < |s.workers| ==>
           s.workers[i].ran <= s.workers[i].jobs && Subsequence(s.workers[i].jobs, PushedJobs(s, steps))
  {
    var s := Exec(Start(n), steps).value;
    assert forall i :: 0 <= i < |s.workers| ==> WorkerOk(s.workers[i]);
    hide Inv;
    RunHolds(n, steps);
  }

  lemma {:induction false} RunHolds(n: nat, steps: seq<Step>)
    requires Inv(Start(n)) && Exec(Start(n), steps).Some?
    ensures var s := Exec(Start(n), steps).value;
      && Holds(s.workers, PushedJobs(s, steps))
      && (s.submit.Probing? ==> s.submit.job == LastCalled(steps))
  {
    hide Inv;
    if steps == [] {
      JobsNone(Start(n).workers);
    } else {
      hide DoStep, PushedJobs, LastCalled, Holds;
      var init, step := steps[..|steps| - 1], steps[|steps| - 1];
      assert steps == init + [step];
      RunHolds(n, init);
      var m := Exec(Start(n), init).value;
      StepTrace(m, init, step);
      StepQueues(m, step, PushedJobs(m, init));
    }
  }

  // ---- Taking turns -----------------------------------------------------------------------------------------------

  /** How often `submit` was called. */
  function Calls(steps: seq<Step>): nat {
    if steps == [] then 0 else Calls(steps[..|steps| - 1]) + if steps[|steps| - 1].SubmitCall? then 1 else 0
  }

  /** In every run successive submits start at successive queues: call number `k` at queue `k % 2^32 % n`. */
  lemma {:induction false} SubmitsTakeTurns(n: nat, steps: seq<Step>)
    requires Inv(Start(n)) && Exec(Start(n), steps).Some?
    ensures var s := Exec(Start(n), steps).value;
      && s.nextQueue == Calls(steps) % U32
      && (s.submit.Probing? ==> n > 0 && Calls(steps) > 0 && s.submit.start == (Calls(steps) - 1) % U32 % n)
  {
    hide Inv;
    if steps != [] {
      var init, step := steps[..|steps| - 1], steps[|steps| - 1];
      SubmitsTakeTurns(n, init);
      var m := Exec(Start(n), init).value;
      StepTurns(m, step);
      hide DoStep;
      if step.SubmitCall? { NextCall(Calls(init)); }
    }
  }

  lemma NextCall(k: nat)
    ensures (k % U32 + 1) % U32 == (k + 1) % U32
  {
  }

  lemma StepTurns(s: State, step: Step)
    requires Inv(s) && CanStep(s, step)
    ensures var r := DoStep(s, step);
      if step.SubmitCall?
      then |s.workers| > 0 && r.nextQueue == (s.nextQueue + 1) % U32 && r.submit == Probing(step.job, s.nextQueue % |s.workers|, 0)
      else r.nextQueue == s.nextQueue && (r.submit.Probing? ==> s.submit.Probing? && r.submit.start == s.submit.start && r.submit.job == s.submit.job)
  {
    hide Inv;
  }

  /** The first queue a call probes is the one whose turn it is, and probe `j` goes to the `j`-th queue after it. */
  lemma ProbesFollowTurn(n: nat, steps: seq<Step>)
    requires Inv(Start(n)) && Exec(Start(n), steps).Some?
    requires var s := Exec(Start(n), steps).value; s.submit.Probing? && s.submit.tried < n
    ensures var s := Exec(Start(n), steps).value;
      |s.workers| == n && Calls(steps) > 0 && Target(s) == ((Calls(steps) - 1) % U32 % n + s.submit.tried) % n
  {
    SubmitsTakeTurns(n, steps);
  }

  /** A probe with room appends the submit's job to its queue, and nothing to any other. */
  lemma ProbeEffect(s: State, v: nat)
    requires Inv(s) && CanStep(s, Probe(v))
    ensures var r, t := DoStep(s, Probe(v)), Target(s);
      && |r.workers| == |s.workers| && r.counter == s.counter && r.nextQueue == s.nextQueue
      && (forall i :: 0 <= i < |s.workers| && i != t ==> r.workers[i] == s.workers[i])
      && (|s.workers[t].jobs| - v < 4095 ==> r.submit == Pushed && r.workers[t].jobs == s.workers[t].jobs + [s.submit.job])
      && (|s.workers[t].jobs| - v == 4095 ==> r.submit == s.submit.(tried := s.submit.tried + 1) && r.workers[t].jobs == s.workers[t].jobs)
  {
    hide Inv;
  }

  // ---- Shutdown and rejection -----------------------------------------------------------------------------------

  /** When the destructor has joined its threads, every accepted job has run. */
  lemma ExitedRanEverything(s: State)
    requires Inv(s) && forall i :: 0 <= i < |s.workers| ==> s.workers[i].mode.Exited?
    ensures AllRan(s)
  {
    forall i | 0 <= i < |s.workers| ensures s.workers[i].ran == s.workers[i].jobs && s.workers[i].phase.Idle? {
      assert WorkerOk(s.workers[i]);
    }
  }

  /** `submit` returns false only after finding every queue full, and leaves queues and counter as they were. */
  lemma RejectedMeansAllFull(s: State)
    requires Inv(s) && CanStep(s, Reject)
    ensures forall i :: 0 <= i < |s.workers| ==> Full(s.workers[i])
    ensures DoStep(s, Reject) == s.(submit := Ready)
  {
    forall i | 0 <= i < |s.workers| ensures Full(s.workers[i]) {
      var j := TurnsCover(s.submit.start, |s.workers|, i);
    }
  }

  /** A probe that finds its queue full changes no queue content and not the counter. */
  lemma FailedProbeChangesNothing(s: State, v: nat)
    requires Inv(s) && CanStep(s, Probe(v)) && DoStep(s, Probe(v)).submit.Probing?
    ensures var r := DoStep(s, Probe(v));
      && r.counter == s.counter && |r.workers| == |s.workers|
      && forall i :: 0 <= i < |s.workers| ==> r.workers[i] == s.workers[i].(seenTail := r.workers[i].seenTail)
  {
    hide Inv;
  }
}
