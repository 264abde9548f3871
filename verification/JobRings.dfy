/**
  The job system on its real queues: each worker's queue is an SPSC ring, pushed to and popped from in separate atomic
  steps. Every run of it is matched by a run of the model in which a push and a pop are one step each, so what is
  proved there holds of the rings.
*/
module JobRings {
  import opened Options
  import opened Words
  import opened JobSystem
  import opened JobRuns
  import Bits
  import Spsc

  const CAPACITY_BITS := 12

  type Queue = Spsc.Ring<Job>

  /** What a worker thread has besides its queue. */
  datatype Thread = Thread(ran: seq<Job>, phase: Phase, mode: Mode)

  datatype System = System(
    rings: seq<Queue>,
    threads: seq<Thread>,
    nextQueue: nat,
    counter: nat,
    submit: Submit,
    stopping: bool)

  datatype Event =
    | Call(job: Job)
    | PushCheck(view: nat)
    | PushWrite
    | PushStore
    | RejectEvent
    | CountEvent
    | PopCheck(worker: nat, view: nat)
    | PopRead(worker: nat, write: nat)
    | PopStore(worker: nat)
    | RunEvent(worker: nat)
    | DiscountEvent(worker: nat)
    | StopEvent
    | SeeStopEvent(worker: nat)

  function Boot(n: nat): System {
    System(seq(n, _ => Spsc.Empty(CAPACITY_BITS)), seq(n, _ => Thread([], Idle, Serving)), 0, 0, Ready, false)
  }

  /** A submit is at a queue. */
  predicate AtQueue(s: System) {
    s.submit.Probing? && s.rings != [] && s.submit.tried < |s.rings|
  }

  function Current(s: System): (r: nat)
    requires AtQueue(s)
    ensures r < |s.rings|
  {
    Turn(s.submit.start, s.submit.tried, |s.rings|)
  }

  predicate CanHappen(s: System, e: Event) {
    |s.rings| == |s.threads| &&
    match e
    case Call(_) => s.submit.Ready? && !s.stopping && s.rings != []
    case PushCheck(v) => AtQueue(s) && Spsc.CanStep(s.rings[Current(s)], Spsc.PushCheck(s.submit.job, v))
    case PushWrite => AtQueue(s) && Spsc.CanStep(s.rings[Current(s)], Spsc.PushWrite)
    case PushStore => AtQueue(s) && Spsc.CanStep(s.rings[Current(s)], Spsc.PushStore)
    case RejectEvent => s.submit.Probing? && s.submit.tried == |s.rings|
    case CountEvent => s.submit.Pushed?
    case PopCheck(i, v) =>
      i < |s.rings| && s.threads[i].phase.Idle? && !s.threads[i].mode.Exited? && Spsc.CanStep(s.rings[i], Spsc.PopCheck(v))
    case PopRead(i, w) => i < |s.rings| && Spsc.CanStep(s.rings[i], Spsc.PopRead(w))
    case PopStore(i) => i < |s.rings| && Spsc.CanStep(s.rings[i], Spsc.PopStore)
    case RunEvent(i) => i < |s.rings| && s.threads[i].phase.Holding?
    case DiscountEvent(i) => i < |s.rings| && s.threads[i].phase.Finished?
    case StopEvent => s.submit.Ready?
    case SeeStopEvent(i) =>
      i < |s.rings| && s.stopping && s.threads[i].phase.Idle? && s.threads[i].mode.Serving? && s.rings[i].consumer.Waiting?
  }

  function Happen(s: System, e: Event): System
    requires CanHappen(s, e)
  {
    match e
    case Call(job) =>
      s.(submit := Probing(job, s.nextQueue % |s.rings|, 0), nextQueue := (s.nextQueue + 1) % U32)
    case PushCheck(v) =>
      var q := Spsc.DoStep(s.rings[Current(s)], Spsc.PushCheck(s.submit.job, v));
      var s1 := s.(rings := s.rings[Current(s) := q]);
      if q.producer.Idle? then s1.(submit := s.submit.(tried := s.submit.tried + 1)) else s1
    case PushWrite => s.(rings := s.rings[Current(s) := Spsc.DoStep(s.rings[Current(s)], Spsc.PushWrite)])
    case PushStore =>
      s.(rings := s.rings[Current(s) := Spsc.DoStep(s.rings[Current(s)], Spsc.PushStore)], submit := Pushed)
    case RejectEvent => s.(submit := Ready)
    case CountEvent => s.(counter := (s.counter + 1) % U32, submit := Ready)
    case PopCheck(i, v) =>
      var q := Spsc.DoStep(s.rings[i], Spsc.PopCheck(v));
      var s1 := s.(rings := s.rings[i := q]);
      if q.consumer.Waiting? && s.threads[i].mode.Draining? then s1.(threads := s.threads[i := s.threads[i].(mode := Exited)])
      else s1
    case PopRead(i, w) => s.(rings := s.rings[i := Spsc.DoStep(s.rings[i], Spsc.PopRead(w))])
    case PopStore(i) =>
      s.(rings := s.rings[i := Spsc.DoStep(s.rings[i], Spsc.PopStore)],
         threads := s.threads[i := s.threads[i].(phase := Holding(s.rings[i].consumer.item))])
    case RunEvent(i) =>
      var t := s.threads[i];
      s.(threads := s.threads[i := t.(ran := t.ran + [t.phase.job], phase := Finished)])
    case DiscountEvent(i) =>
      s.(threads := s.threads[i := s.threads[i].(phase := Idle)], counter := (s.counter - 1) % U32)
    case StopEvent => s.(stopping := true)
    case SeeStopEvent(i) =>
      // request_stop synchronises with the worker that observes it
      s.(threads := s.threads[i := s.threads[i].(mode := Draining)],
         rings := s.rings[i := s.rings[i].(seenHead := |s.rings[i].pushes|)])
  }

  // ---- The simulation ------------------------------------------------------------------------------------------

  /** A ring and its thread, against the model's worker. A side that is in the middle of an operation may have seen more. */
  ghost predicate Matches(q: Queue, t: Thread, w: Worker) {
    && Spsc.Inv(q) && q.bits == CAPACITY_BITS
    && w.jobs == q.pushes && w.taken == |q.pops|
    && w.ran == t.ran && w.phase == t.phase && w.mode == t.mode
    && (if q.producer.Idle? then w.seenTail == q.seenTail else w.seenTail <= q.seenTail)
    && (if q.consumer.Waiting? then w.seenHead == q.seenHead
        else w.seenHead <= q.seenHead && t.phase.Idle? && !t.mode.Exited?)
  }

  ghost predicate AllMatch(qs: seq<Queue>, ts: seq<Thread>, ws: seq<Worker>) {
    |qs| == |ts| == |ws| && forall i :: 0 <= i < |qs| ==> Matches(qs[i], ts[i], ws[i])
  }

  /** Only the queue the submit is at has a push under way, and that is a push of its job. */
  ghost predicate PushesOk(s: System) {
    forall i :: 0 <= i < |s.rings| && !s.rings[i].producer.Idle? ==>
      AtQueue(s) && i == Current(s) && s.rings[i].producer.item == s.submit.job
  }

  ghost predicate Simulates(s: System, m: State) {
    && AllMatch(s.rings, s.threads, m.workers) && PushesOk(s)
    && s.nextQueue == m.nextQueue && s.counter == m.counter && s.submit == m.submit && s.stopping == m.stopping
  }

  lemma Capacity()
    ensures Bits.Pow2(CAPACITY_BITS) == QUEUE_CAPACITY
  {
    assert Bits.Pow2(4) == 16;
    Bits.Pow2Add(4, 4);
    Bits.Pow2Add(8, 4);
  }

  lemma BootSimulates(n: nat)
    ensures Simulates(Boot(n), Start(n))
  {
    Spsc.InitialOk<Job>(CAPACITY_BITS);
  }

  lemma MatchUpdate(qs: seq<Queue>, ts: seq<Thread>, ws: seq<Worker>, i: nat, q: Queue, t: Thread, w: Worker)
    requires AllMatch(qs, ts, ws) && i < |qs| && Matches(q, t, w)
    ensures AllMatch(qs[i := q], ts[i := t], ws[i := w])
  {
  }

  // ---- One queue, one operation -----------------------------------------------------------------------------------

  /** The full test on the ring is the model's full test. */
  lemma PushCheckMatches(q: Queue, t: Thread, w: Worker, job: Job, v: nat)
    requires Matches(q, t, w) && Spsc.CanStep(q, Spsc.PushCheck(job, v))
    ensures var q1 := Spsc.DoStep(q, Spsc.PushCheck(job, v));
      && (q1.producer.Idle? <==> Full(w.(seenTail := v)))
      && Matches(q1, t, if q1.producer.Idle? then w.(seenTail := v) else w)
      && (q1.producer.Idle? || q1.producer == Spsc.Checked(job))
  {
    Capacity();
    Spsc.PushRefusedMeansFull(q, job, v);
    Spsc.StepKeeps(q, Spsc.PushCheck(job, v));
    hide Spsc.Inv;
  }

  lemma PushWriteMatches(q: Queue, t: Thread, w: Worker)
    requires Matches(q, t, w) && Spsc.CanStep(q, Spsc.PushWrite)
    ensures Matches(Spsc.DoStep(q, Spsc.PushWrite), t, w)
  {
    Spsc.StepKeeps(q, Spsc.PushWrite);
    hide Spsc.Inv;
  }

  /** The store publishes what the model pushes, and there was room for it. */
  lemma PushStoreMatches(q: Queue, t: Thread, w: Worker)
    requires Matches(q, t, w) && Spsc.CanStep(q, Spsc.PushStore)
    ensures w.seenTail <= q.seenTail <= w.taken && !Full(w.(seenTail := q.seenTail))
    ensures Matches(Spsc.DoStep(q, Spsc.PushStore), t, w.(seenTail := q.seenTail, jobs := w.jobs + [q.producer.item]))
  {
    Capacity();
    Spsc.StepKeeps(q, Spsc.PushStore);
  }

  /** A pop that finds nothing is the model's pop that finds nothing. */
  lemma PopCheckMatches(q: Queue, t: Thread, w: Worker, v: nat)
    requires Matches(q, t, w) && WorkerOk(w) && Spsc.CanStep(q, Spsc.PopCheck(v)) && t.phase.Idle? && !t.mode.Exited?
    ensures w.seenHead <= v <= |w.jobs| && w.taken <= v
    ensures var q1 := Spsc.DoStep(q, Spsc.PopCheck(v));
      if q1.consumer.Waiting?
      then w.taken == v && Matches(q1, if t.mode.Draining? then t.(mode := Exited) else t, DoTake(w, v))
      else Matches(q1, t, w)
  {
    Spsc.PopRefusedMeansEmpty(q, v);
    Spsc.StepKeeps(q, Spsc.PopCheck(v));
    hide Spsc.Inv;
  }

  lemma PopReadMatches(q: Queue, t: Thread, w: Worker, write: nat)
    requires Matches(q, t, w) && Spsc.CanStep(q, Spsc.PopRead(write))
    ensures Matches(Spsc.DoStep(q, Spsc.PopRead(write)), t, w)
  {
    Spsc.StepKeeps(q, Spsc.PopRead(write));
    hide Spsc.Inv;
  }

  /** The item taken off the ring is the model's next job. */
  lemma PopStoreMatches(q: Queue, t: Thread, w: Worker)
    requires Matches(q, t, w) && WorkerOk(w) && Spsc.CanStep(q, Spsc.PopStore)
    ensures w.seenHead <= q.seenHead <= |w.jobs| && w.taken < q.seenHead
    ensures Matches(Spsc.DoStep(q, Spsc.PopStore), t.(phase := Holding(q.consumer.item)), DoTake(w, q.seenHead))
  {
    Spsc.StepKeeps(q, Spsc.PopStore);
  }

  // ---- One event is one step of the model, or none ------------------------------------------------------------------

  /** The model's step at this event: a refused test, a store, or the event itself; the rest is invisible. */
  function Shadow(s: System, e: Event): Option<Step>
    requires CanHappen(s, e)
  {
    match e
    case Call(job) => Some(SubmitCall(job))
    case PushCheck(v) =>
      if Spsc.DoStep(s.rings[Current(s)], Spsc.PushCheck(s.submit.job, v)).producer.Idle? then Some(Probe(v)) else None
    case PushWrite => None
    case PushStore => Some(Probe(s.rings[Current(s)].seenTail))
    case RejectEvent => Some(Reject)
    case CountEvent => Some(Count)
    case PopCheck(i, v) => if Spsc.DoStep(s.rings[i], Spsc.PopCheck(v)).consumer.Waiting? then Some(Take(i, v)) else None
    case PopRead(_, _) => None
    case PopStore(i) => Some(Take(i, s.rings[i].seenHead))
    case RunEvent(i) => Some(RunJob(i))
    case DiscountEvent(i) => Some(Discount(i))
    case StopEvent => Some(RequestStop)
    case SeeStopEvent(i) => Some(SeeStop(i))
  }

  /** The model's state after the step, if there is one. */
  ghost function Follow(m: State, step: Option<Step>): State
    requires Inv(m) && (step.Some? ==> CanStep(m, step.value))
  {
    if step.None? then m else DoStep(m, step.value)
  }

  /** The event is matched: the model can take the step, and the states still correspond. */
  ghost predicate Matched(s: System, m: State, e: Event)
    requires Inv(m) && CanHappen(s, e)
  {
    (Shadow(s, e).Some? ==> CanStep(m, Shadow(s, e).value)) && Simulates(Happen(s, e), Follow(m, Shadow(s, e)))
  }

  /** What a worker does leaves the submit's push alone. */
  lemma SamePushes(s: System, i: nat, q: Queue)
    requires PushesOk(s) && i < |s.rings| && q.producer == s.rings[i].producer
    ensures PushesOk(s.(rings := s.rings[i := q]))
  {
  }

  lemma SubmitOnly(s: System, s1: System)
    requires PushesOk(s) && s1.rings == s.rings && s1.submit == s.submit
    ensures PushesOk(s1)
  {
  }

  lemma PushCheckMatched(s: System, m: State, v: nat)
    requires Simulates(s, m) && Inv(m) && CanHappen(s, PushCheck(v))
    ensures Matched(s, m, PushCheck(v))
  {
    var i := Current(s);
    var q, t, w := s.rings[i], s.threads[i], m.workers[i];
    PushCheckMatches(q, t, w, s.submit.job, v);
    assert WorkerOk(w);
    var q1 := Spsc.DoStep(q, Spsc.PushCheck(s.submit.job, v));
    MatchUpdate(s.rings, s.threads, m.workers, i, q1, t, if q1.producer.Idle? then w.(seenTail := v) else w);
    assert s.threads[i := t] == s.threads && m.workers[i := w] == m.workers;
    hide Inv, Matches, AllMatch, Spsc.DoStep, WorkerOk, Full;
  }

  lemma PushWriteMatched(s: System, m: State)
    requires Simulates(s, m) && Inv(m) && CanHappen(s, PushWrite)
    ensures Matched(s, m, PushWrite)
  {
    var i := Current(s);
    PushWriteMatches(s.rings[i], s.threads[i], m.workers[i]);
    MatchUpdate(s.rings, s.threads, m.workers, i, Spsc.DoStep(s.rings[i], Spsc.PushWrite), s.threads[i], m.workers[i]);
    assert s.threads[i := s.threads[i]] == s.threads && m.workers[i := m.workers[i]] == m.workers;
    hide Inv, Matches, AllMatch;
  }

  lemma PushStoreMatched(s: System, m: State)
    requires Simulates(s, m) && Inv(m) && CanHappen(s, PushStore)
    ensures Matched(s, m, PushStore)
  {
    var i := Current(s);
    var q, t, w := s.rings[i], s.threads[i], m.workers[i];
    PushStoreMatches(q, t, w);
    MatchUpdate(s.rings, s.threads, m.workers, i, Spsc.DoStep(q, Spsc.PushStore), t,
                w.(seenTail := q.seenTail, jobs := w.jobs + [q.producer.item]));
    assert s.threads[i := t] == s.threads;
    hide Inv, Matches, AllMatch, Full;
  }

  lemma PopCheckMatched(s: System, m: State, i: nat, v: nat)
    requires Simulates(s, m) && Inv(m) && CanHappen(s, PopCheck(i, v))
    ensures Matched(s, m, PopCheck(i, v))
  {
    var q, t, w := s.rings[i], s.threads[i], m.workers[i];
    assert WorkerOk(w) && Matches(q, t, w);
    PopCheckMatches(q, t, w, v);
    var q1 := Spsc.DoStep(q, Spsc.PopCheck(v));
    var t1 := if q1.consumer.Waiting? && t.mode.Draining? then t.(mode := Exited) else t;
    MatchUpdate(s.rings, s.threads, m.workers, i, q1, t1, if q1.consumer.Waiting? then DoTake(w, v) else w);
    assert s.threads[i := t] == s.threads && m.workers[i := w] == m.workers;
    assert w.phase == t.phase && w.mode == t.mode;
    SamePushes(s, i, q1);
    hide Inv, Matches, AllMatch, Spsc.DoStep, WorkerOk, DoTake, PushesOk;
    SubmitOnly(s.(rings := s.rings[i := q1]), Happen(s, PopCheck(i, v)));
  }

  lemma PopReadMatched(s: System, m: State, i: nat, write: nat)
    requires Simulates(s, m) && Inv(m) && CanHappen(s, PopRead(i, write))
    ensures Matched(s, m, PopRead(i, write))
  {
    var q, t, w := s.rings[i], s.threads[i], m.workers[i];
    PopReadMatches(q, t, w, write);
    var q1 := Spsc.DoStep(q, Spsc.PopRead(write));
    MatchUpdate(s.rings, s.threads, m.workers, i, q1, t, w);
    SamePushes(s, i, q1);
    assert s.threads[i := t] == s.threads && m.workers[i := w] == m.workers;
    hide Inv, Matches, AllMatch, PushesOk;
  }

  lemma PopStoreMatched(s: System, m: State, i: nat)
    requires Simulates(s, m) && Inv(m) && CanHappen(s, PopStore(i))
    ensures Matched(s, m, PopStore(i))
  {
    var q, t, w := s.rings[i], s.threads[i], m.workers[i];
    assert WorkerOk(w) && Matches(q, t, w);
    PopStoreMatches(q, t, w);
    var q1 := Spsc.DoStep(q, Spsc.PopStore);
    MatchUpdate(s.rings, s.threads, m.workers, i, q1, t.(phase := Holding(q.consumer.item)), DoTake(w, q.seenHead));
    assert w.phase.Idle? && !w.mode.Exited?;
    SamePushes(s, i, q1);
    hide Inv, Matches, AllMatch, WorkerOk, DoTake, PushesOk;
    SubmitOnly(s.(rings := s.rings[i := q1]), Happen(s, PopStore(i)));
  }

  lemma RunMatched(s: System, m: State, i: nat)
    requires Simulates(s, m) && Inv(m) && CanHappen(s, RunEvent(i))
    ensures Matched(s, m, RunEvent(i))
  {
    var t, w := s.threads[i], m.workers[i];
    assert Matches(s.rings[i], t, w);
    MatchUpdate(s.rings, s.threads, m.workers, i, s.rings[i], t.(ran := t.ran + [t.phase.job], phase := Finished),
                w.(ran := w.ran + [w.phase.job], phase := Finished));
    assert s.rings[i := s.rings[i]] == s.rings && w.phase == t.phase && w.ran == t.ran;
    hide Inv, Matches, AllMatch, PushesOk;
    SubmitOnly(s, Happen(s, RunEvent(i)));
  }

  lemma DiscountMatched(s: System, m: State, i: nat)
    requires Simulates(s, m) && Inv(m) && CanHappen(s, DiscountEvent(i))
    ensures Matched(s, m, DiscountEvent(i))
  {
    var t, w := s.threads[i], m.workers[i];
    assert Matches(s.rings[i], t, w);
    MatchUpdate(s.rings, s.threads, m.workers, i, s.rings[i], t.(phase := Idle), w.(phase := Idle));
    assert s.rings[i := s.rings[i]] == s.rings && w.phase == t.phase;
    hide Inv, Matches, AllMatch, PushesOk;
    SubmitOnly(s, Happen(s, DiscountEvent(i)));
  }

  lemma SeeStopMatched(s: System, m: State, i: nat)
    requires Simulates(s, m) && Inv(m) && CanHappen(s, SeeStopEvent(i))
    ensures Matched(s, m, SeeStopEvent(i))
  {
    var q, t, w := s.rings[i], s.threads[i], m.workers[i];
    assert Matches(q, t, w);
    var q1 := q.(seenHead := |q.pushes|);
    MatchUpdate(s.rings, s.threads, m.workers, i, q1, t.(mode := Draining), w.(mode := Draining, seenHead := |w.jobs|));
    assert w.phase == t.phase && w.mode == t.mode;
    SamePushes(s, i, q1);
    hide Inv, Matches, AllMatch, PushesOk;
    SubmitOnly(s.(rings := s.rings[i := q1]), Happen(s, SeeStopEvent(i)));
  }

  lemma ControlMatched(s: System, m: State, e: Event)
    requires Simulates(s, m) && Inv(m) && CanHappen(s, e)
    requires e.Call? || e.RejectEvent? || e.CountEvent? || e.StopEvent?
    ensures Matched(s, m, e)
  {
    hide Inv, Matches;
  }

  /** Every event of the real system is a step of the model or invisible to it. */
  lemma EventMatched(s: System, m: State, e: Event)
    requires Simulates(s, m) && Inv(m) && CanHappen(s, e)
    ensures Matched(s, m, e)
  {
    hide Inv, Matched, Simulates;
    match e
    case PushCheck(v) => PushCheckMatched(s, m, v);
    case PushWrite => PushWriteMatched(s, m);
    case PushStore => PushStoreMatched(s, m);
    case PopCheck(i, v) => PopCheckMatched(s, m, i, v);
    case PopRead(i, w) => PopReadMatched(s, m, i, w);
    case PopStore(i) => PopStoreMatched(s, m, i);
    case RunEvent(i) => RunMatched(s, m, i);
    case DiscountEvent(i) => DiscountMatched(s, m, i);
    case SeeStopEvent(i) => SeeStopMatched(s, m, i);
    case _ => ControlMatched(s, m, e);
  }

  // ---- Whole runs --------------------------------------------------------------------------------------------------

  /** The system after the events, or `None` if some event could not happen. */
  function Play(s: System, events: seq<Event>): Option<System> {
    if events == [] then Some(s)
    else
      var e := events[|events| - 1];
      match Play(s, events[..|events| - 1])
      case None => None
      case Some(r) => if CanHappen(r, e) then Some(Happen(r, e)) else None
  }

  /** The model's trace of the events. */
  function Shadows(s: System, events: seq<Event>): seq<Step>
    requires Play(s, events).Some?
  {
    if events == [] then []
    else
      var init, e := events[..|events| - 1], events[|events| - 1];
      var step := Shadow(Play(s, init).value, e);
      Shadows(s, init) + if step.Some? then [step.value] else []
  }

  /** The job of the latest call of `submit`. */
  function LastCall(events: seq<Event>): Job {
    if events == [] then 0
    else
      match events[|events| - 1]
      case Call(job) => job
      case _ => LastCall(events[..|events| - 1])
  }

  /** The jobs for which `submit` returned true, in the order of the calls. */
  function AcceptedBy(events: seq<Event>): seq<Job> {
    if events == [] then []
    else
      var init := events[..|events| - 1];
      AcceptedBy(init) + if events[|events| - 1] == CountEvent then [LastCall(init)] else []
  }

  lemma {:induction false} SameAccepted(s: System, events: seq<Event>)
    requires Play(s, events).Some?
    ensures Accepted(Shadows(s, events)) == AcceptedBy(events)
    ensures LastCalled(Shadows(s, events)) == LastCall(events)
  {
    hide Happen, CanHappen;
    if events != [] {
      var init, e := events[..|events| - 1], events[|events| - 1];
      SameAccepted(s, init);
      var trace, step := Shadows(s, init), Shadow(Play(s, init).value, e);
      if step.Some? { OneMoreStep(trace, step.value); }
      assert trace + [] == trace;
      hide Accepted, LastCalled;
    }
  }

  /** The model's trace of a run is a run, and it ends in a matching state. */
  lemma {:induction false} RunIsMatched(n: nat, events: seq<Event>) returns (m: State)
    requires Play(Boot(n), events).Some?
    ensures Inv(Start(n)) && Exec(Start(n), Shadows(Boot(n), events)) == Some(m)
    ensures Inv(m) && Simulates(Play(Boot(n), events).value, m)
  {
    InitialOk(n);
    hide Inv, Simulates, Happen, CanHappen, Boot, Shadow, CanStep, DoStep;
    if events == [] {
      BootSimulates(n);
      m := Start(n);
    } else {
      var init, e := events[..|events| - 1], events[|events| - 1];
      var before := RunIsMatched(n, init);
      var s := Play(Boot(n), init).value;
      EventMatched(s, before, e);
      var trace, step := Shadows(Boot(n), init), Shadow(s, e);
      if step.Some? {
        StepKeeps(before, step.value);
        m := StepTo(Start(n), trace, step.value);
      } else {
        assert trace + [] == trace;
        m := before;
      }
    }
  }

  /** The pushes of all rings. */
  function AllPushes(qs: seq<Queue>): multiset<Job> {
    if qs == [] then multiset{} else multiset(qs[0].pushes) + AllPushes(qs[1..])
  }

  lemma {:induction false} PushesAreJobs(qs: seq<Queue>, ws: seq<Worker>)
    requires |qs| == |ws| && forall i :: 0 <= i < |qs| ==> ws[i].jobs == qs[i].pushes
    ensures AllPushes(qs) == AllJobs(ws)
  {
    if qs != [] { PushesAreJobs(qs[1..], ws[1..]); }
  }

  /**
    On the real queues, in every run: between submits the rings have been pushed exactly the accepted jobs, each ring in the
    order of the calls, and a worker has run exactly what it popped, in order, but for the job in its hands.
  */
  lemma RingsDeliverOnceInOrder(n: nat, events: seq<Event>)
    requires Play(Boot(n), events).Some?
    ensures var s := Play(Boot(n), events).value;
      && |s.threads| == |s.rings|
      && (s.submit.Ready? ==> AllPushes(s.rings) == multiset(AcceptedBy(events)))
      && forall i :: 0 <= i < |s.rings| ==>
           && s.rings[i].pops <= s.rings[i].pushes
           && s.rings[i].pops == s.threads[i].ran + (if s.threads[i].phase.Holding? then [s.threads[i].phase.job] else [])
           && (s.submit.Ready? ==> Subsequence(s.rings[i].pushes, AcceptedBy(events)))
  {
    var s := Play(Boot(n), events).value;
    var m := RunIsMatched(n, events);
    SameAccepted(Boot(n), events);
    AcceptedOnceInOrder(n, Shadows(Boot(n), events));
    MatchedRings(s, m);
    hide Inv, Simulates, Boot, Play, Accepted, AcceptedBy, Subsequence;
    PushesAreJobs(s.rings, m.workers);
    assert s.submit.Ready? ==> PushedJobs(m, Shadows(Boot(n), events)) == AcceptedBy(events);
  }

  lemma MatchedRings(s: System, m: State)
    requires Simulates(s, m) && Inv(m)
    ensures |s.threads| == |s.rings| == |m.workers| && s.submit == m.submit
    ensures forall i :: 0 <= i < |s.rings| ==> m.workers[i].jobs == s.rings[i].pushes && s.rings[i].pops <= s.rings[i].pushes
    ensures forall i :: 0 <= i < |s.rings| ==>
      s.rings[i].pops == s.threads[i].ran + (if s.threads[i].phase.Holding? then [s.threads[i].phase.job] else [])
  {
    forall i | 0 <= i < |s.rings|
      ensures m.workers[i].jobs == s.rings[i].pushes && s.rings[i].pops <= s.rings[i].pushes
      ensures s.rings[i].pops == s.threads[i].ran + (if s.threads[i].phase.Holding? then [s.threads[i].phase.job] else [])
    {
      OneMatchedRing(s.rings[i], s.threads[i], m.workers[i]);
    }
  }

  lemma OneMatchedRing(q: Queue, t: Thread, w: Worker)
    requires Matches(q, t, w) && WorkerOk(w)
    ensures w.jobs == q.pushes && q.pops <= q.pushes
    ensures q.pops == t.ran + (if t.phase.Holding? then [t.phase.job] else [])
  {
    assert q.pops == w.jobs[..w.taken];
  }

  /** On the real queues, in every run: between submits the counter is zero exactly when every pushed job has run. */
  lemma RingsIdleMeansAllRan(n: nat, events: seq<Event>)
    requires n * QUEUE_CAPACITY < U32
    requires Play(Boot(n), events).Some? && Play(Boot(n), events).value.submit.Ready?
    ensures var s := Play(Boot(n), events).value;
      && |s.threads| == |s.rings|
      && (s.counter == 0 <==> forall i :: 0 <= i < |s.rings| ==> s.threads[i].ran == s.rings[i].pushes && s.threads[i].phase.Idle?)
  {
    var s := Play(Boot(n), events).value;
    var m := RunIsMatched(n, events);
    assert s.counter == m.counter && s.submit == m.submit;
    IdleMeansAllRan(n, Shadows(Boot(n), events));
    assert |s.threads| == |s.rings| == |m.workers|;
    forall i | 0 <= i < |s.rings|
      ensures m.workers[i].jobs == s.rings[i].pushes && m.workers[i].ran == s.threads[i].ran && m.workers[i].phase == s.threads[i].phase
    {
      assert Matches(s.rings[i], s.threads[i], m.workers[i]);
    }
    hide Inv, Simulates, Boot, Play;
  }
}
