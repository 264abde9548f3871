/**
  The job system: one submitting thread, a ring per worker, and a shared 32-bit counter that is incremented after the
  push and so may pass below zero for a moment. Every atomic operation is one step; loads of a ring index may be old.
*/
module JobSystem {
  import Bits
  import opened Words

  type Job = nat

  const QUEUE_CAPACITY := 4096

  /** `Finished` is after the job ran and before the counter is decremented. */
  datatype Phase = Idle | Holding(job: Job) | Finished

  datatype Mode = Serving | Draining | Exited

  /** A worker and its queue. `jobs` are all jobs ever pushed to it, the first `taken` of them popped. */
  datatype Worker = Worker(
    jobs: seq<Job>,
    taken: nat,
    ran: seq<Job>,
    seenHead: nat,   // pushes the worker has seen
    seenTail: nat,   // pops the submitting thread has seen
    phase: Phase,
    mode: Mode)

  datatype Submit = Ready | Probing(job: Job, start: nat, tried: nat) | Pushed

  datatype State = State(workers: seq<Worker>, nextQueue: nat, counter: nat, submit: Submit, stopping: bool)

  datatype Step =
    | SubmitCall(job: Job)
    | Probe(view: nat)            // try_push on the next queue in turn, whose tail load returns `view`
    | Reject                      // submit returns false
    | Count                       // fetch_add, submit returns true
    | Take(worker: nat, view: nat) // try_pop, whose head load returns `view`
    | RunJob(worker: nat)
    | Discount(worker: nat)       // fetch_sub
    | RequestStop                 // the destructor
    | SeeStop(worker: nat)

  function NewWorker(): Worker { Worker([], 0, [], 0, 0, Idle, Serving) }

  function Start(n: nat): State { State(seq(n, _ => NewWorker()), 0, 0, Ready, false) }

  /** The queue a submit that started at queue `start` probes on its `j`-th attempt. */
  function Turn(start: nat, j: nat, n: nat): (r: nat)
    requires n > 0
    ensures r < n
  {
    (start + j) % n
  }

  function Target(s: State): nat
    requires s.submit.Probing? && s.workers != []
  {
    Turn(s.submit.start, s.submit.tried, |s.workers|)
  }

  predicate CanStep(s: State, step: Step) {
    match step
    case SubmitCall(_) => s.submit.Ready? && !s.stopping && s.workers != []
    case Probe(v) =>
      && s.workers != [] && s.submit.Probing? && s.submit.tried < |s.workers|
      && var w := s.workers[Target(s)];
      w.seenTail <= v <= w.taken
    case Reject => s.submit.Probing? && s.submit.tried == |s.workers|
    case Count => s.submit.Pushed?
    case Take(i, v) =>
      && i < |s.workers|
      && var w := s.workers[i];
      w.phase.Idle? && !w.mode.Exited? && w.seenHead <= v <= |w.jobs|
    case RunJob(i) => i < |s.workers| && s.workers[i].phase.Holding?
    case Discount(i) => i < |s.workers| && s.workers[i].phase.Finished?
    case RequestStop => s.submit.Ready?
    case SeeStop(i) => i < |s.workers| && s.stopping && s.workers[i].phase.Idle? && s.workers[i].mode.Serving?
  }

  /** The producer's full test, for the tail it saw. */
  predicate Full(w: Worker) {
    |w.jobs| - w.seenTail == QUEUE_CAPACITY - 1
  }

  function DoProbe(s: State, v: nat): State
    requires CanStep(s, Probe(v))
  {
    var t := Target(s);
    var w := s.workers[t].(seenTail := v);
    if Full(w) then s.(workers := s.workers[t := w], submit := s.submit.(tried := s.submit.tried + 1))
    else s.(workers := s.workers[t := w.(jobs := w.jobs + [s.submit.job])], submit := Pushed)
  }

  function DoTake(w: Worker, v: nat): Worker
    requires w.taken <= v <= |w.jobs|
  {
    var w1 := w.(seenHead := v);
    if w.taken == v then (if w.mode.Draining? then w1.(mode := Exited) else w1)
    else w1.(taken := w.taken + 1, phase := Holding(w.jobs[w.taken]))
  }

  // ---- The invariant -----------------------------------------------------------------------------------------

  /** Jobs run in the order they were pushed; at most one is held; an exited worker ran everything. */
  predicate WorkerOk(w: Worker) {
    && w.seenTail <= w.taken <= w.seenHead <= |w.jobs| < w.seenTail + QUEUE_CAPACITY
    && w.taken == |w.ran| + (if w.phase.Holding? then 1 else 0)
    && w.ran == w.jobs[..|w.ran|]
    && (w.phase.Holding? ==> w.phase.job == w.jobs[|w.ran|])
    && (!w.mode.Serving? ==> w.seenHead == |w.jobs|)
    && (w.mode.Exited? ==> w.phase.Idle? && w.taken == |w.jobs|)
  }

  /** Jobs of this worker that the counter still has to count down. */
  function Open(w: Worker): int {
    |w.jobs| - |w.ran| + if w.phase.Finished? then 1 else 0
  }

  function TotalOpen(ws: seq<Worker>): int {
    if ws == [] then 0 else Open(ws[0]) + TotalOpen(ws[1..])
  }

  ghost predicate WorkersOk(ws: seq<Worker>, stopping: bool) {
    forall i :: 0 <= i < |ws| ==> WorkerOk(ws[i]) && (!ws[i].mode.Serving? ==> stopping)
  }

  /** Every queue probed so far in this submit looked full. */
  ghost predicate ProbesOk(s: State) {
    s.submit.Probing? ==>
      && s.workers != [] && s.submit.tried <= |s.workers|
      && forall j :: 0 <= j < s.submit.tried ==> Full(s.workers[Turn(s.submit.start, j, |s.workers|)])
  }

  /** The counter is the number of open jobs, less the one pushed and not counted yet, as an unsigned 32-bit value. */
  ghost predicate Inv(s: State) {
    && WorkersOk(s.workers, s.stopping)
    && (s.stopping ==> s.submit.Ready?)
    && ProbesOk(s)
    && s.counter == (TotalOpen(s.workers) - if s.submit.Pushed? then 1 else 0) % U32
  }

  ghost function DoStep(s: State, step: Step): State
    requires Inv(s) && CanStep(s, step)
  {
    match step
    case SubmitCall(job) =>
      s.(submit := Probing(job, s.nextQueue % |s.workers|, 0), nextQueue := (s.nextQueue + 1) % U32)
    case Probe(v) => DoProbe(s, v)
    case Reject => s.(submit := Ready)
    case Count => s.(counter := (s.counter + 1) % U32, submit := Ready)
    case Take(i, v) => s.(workers := s.workers[i := DoTake(s.workers[i], v)])
    case RunJob(i) =>
      var w := s.workers[i];
      s.(workers := s.workers[i := w.(ran := w.ran + [w.phase.job], phase := Finished)])
    case Discount(i) =>
      s.(workers := s.workers[i := s.workers[i].(phase := Idle)], counter := (s.counter - 1) % U32)
    case RequestStop => s.(stopping := true)
    case SeeStop(i) =>
      // request_stop synchronises with the worker that observes it
      var w := s.workers[i];
      s.(workers := s.workers[i := w.(mode := Draining, seenHead := |w.jobs|)])
  }

  lemma {:induction false} TotalUpdate(ws: seq<Worker>, i: nat, w: Worker)
    requires i < |ws|
    ensures TotalOpen(ws[i := w]) == TotalOpen(ws) - Open(ws[i]) + Open(w)
  {
    if i == 0 {
      assert ws[i := w][1..] == ws[1..];
    } else {
      TotalUpdate(ws[1..], i - 1, w);
      assert ws[i := w][1..] == ws[1..][i - 1 := w];
    }
  }

  lemma {:induction false} InitialOk(n: nat)
    ensures Inv(Start(n))
  {
    TotalZero(Start(n).workers);
  }

  lemma {:induction false} TotalZero(ws: seq<Worker>)
    requires forall i :: 0 <= i < |ws| ==> Open(ws[i]) == 0
    ensures TotalOpen(ws) == 0
  {
    if ws != [] { TotalZero(ws[1..]); }
  }

  /** Different turns of one submit probe different queues, and all turns together probe every queue. */
  lemma TurnsCover(start: nat, n: nat, i: nat) returns (j: nat)
    requires i < n
    ensures j < n && Turn(start, j, n) == i
  {
    var r := start % n;
    j := if r <= i then i - r else i + n - r;
    var q := start / n;
    assert start == n * q + r;
    if r <= i {
      ModIs(start + j, n, q, i);
    } else {
      assert start + j == n * (q + 1) + i;
      ModIs(start + j, n, q + 1, i);
    }
  }

  lemma ModIs(x: nat, n: nat, q: nat, r: nat)
    requires x == n * q + r && r < n
    ensures x % n == r
  {
    Bits.ModUnique(x, n, q, r);
  }

  lemma ModShift(x: int, d: int)
    ensures (x % U32 + d) % U32 == (x + d) % U32
  {
    var q := x / U32;
    assert x == U32 * q + x % U32;
    assert x + d == U32 * q + (x % U32 + d);
  }

  /** A worker's own step: its queue and the producer's view of it stay. */
  lemma WorkerStep(s: State, i: nat, w: Worker)
    requires WorkersOk(s.workers, s.stopping) && ProbesOk(s) && i < |s.workers|
    requires WorkerOk(w) && (!w.mode.Serving? ==> s.stopping)
    requires w.jobs == s.workers[i].jobs && w.seenTail == s.workers[i].seenTail
    ensures WorkersOk(s.workers[i := w], s.stopping) && ProbesOk(s.(workers := s.workers[i := w]))
    ensures TotalOpen(s.workers[i := w]) == TotalOpen(s.workers) - Open(s.workers[i]) + Open(w)
  {
    TotalUpdate(s.workers, i, w);
  }

  lemma ProbeFull(s: State, w: Worker)
    requires Inv(s) && s.submit.Probing? && s.submit.tried < |s.workers|
    requires w == s.workers[Target(s)].(seenTail := w.seenTail) && Full(w) && WorkerOk(w)
    ensures Inv(s.(workers := s.workers[Target(s) := w], submit := s.submit.(tried := s.submit.tried + 1)))
  {
    TotalUpdate(s.workers, Target(s), w);
  }

  lemma ProbePush(s: State, w: Worker)
    requires Inv(s) && s.submit.Probing? && s.submit.tried < |s.workers|
    requires var t := s.workers[Target(s)];
      && WorkerOk(w) && w.mode == t.mode && w.phase == t.phase && w.ran == t.ran && |w.jobs| == |t.jobs| + 1
    ensures Inv(s.(workers := s.workers[Target(s) := w], submit := Pushed))
  {
    TotalUpdate(s.workers, Target(s), w);
    hide Bits.Pow2;
  }

  lemma ProbeKeeps(s: State, v: nat)
    requires Inv(s) && CanStep(s, Probe(v))
    ensures Inv(DoProbe(s, v))
  {
    var t := s.workers[Target(s)];
    assert WorkerOk(t) && t.mode.Serving?;
    var w := t.(seenTail := v);
    hide Inv;
    if Full(w) {
      ProbeFull(s, w);
    } else {
      ProbePush(s, w.(jobs := w.jobs + [s.submit.job]));
    }
  }

  lemma DiscountKeeps(s: State, i: nat)
    requires Inv(s) && CanStep(s, Discount(i))
    ensures Inv(DoStep(s, Discount(i)))
  {
    WorkerStep(s, i, s.workers[i].(phase := Idle));
    ModShift(TotalOpen(s.workers) - if s.submit.Pushed? then 1 else 0, -1);
    hide WorkersOk, ProbesOk;
  }

  lemma WorkerStepKeeps(s: State, i: nat, w: Worker)
    requires Inv(s) && i < |s.workers|
    requires WorkerOk(w) && (!w.mode.Serving? ==> s.stopping)
    requires w.jobs == s.workers[i].jobs && w.seenTail == s.workers[i].seenTail && Open(w) == Open(s.workers[i])
    ensures Inv(s.(workers := s.workers[i := w]))
  {
    WorkerStep(s, i, w);
    hide WorkersOk, ProbesOk;
  }

  lemma StepKeeps(s: State, step: Step)
    requires Inv(s) && CanStep(s, step)
    ensures Inv(DoStep(s, step))
  {
    match step
    case Probe(v) => hide Inv; ProbeKeeps(s, v);
    case Take(i, v) =>
      assert WorkerOk(s.workers[i]);
      hide WorkersOk, ProbesOk;
      WorkerStepKeeps(s, i, DoTake(s.workers[i], v));
    case RunJob(i) =>
      assert WorkerOk(s.workers[i]);
      hide WorkersOk, ProbesOk;
      WorkerStepKeeps(s, i, DoStep(s, step).workers[i]);
    case SeeStop(i) =>
      assert WorkerOk(s.workers[i]);
      hide WorkersOk, ProbesOk;
      WorkerStepKeeps(s, i, DoStep(s, step).workers[i]);
    case Discount(i) => hide Inv; DiscountKeeps(s, i);
    case Count => ModShift(TotalOpen(s.workers) - 1, 1);
    case SubmitCall(_) =>
    case Reject =>
    case RequestStop =>
  }
}
