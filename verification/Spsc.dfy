/**
  The single-producer single-consumer ring as interleaved atomic steps. Each side may read an old value of the other
  side's index, as long as its reads never go backwards, and a slot read may return any write the memory model leaves
  visible. `pushes` and `pops` record every item published and every item taken since the start.
*/
module Spsc {
  import opened Bits

  datatype Producer<T> = Idle | Checked(item: T) | Wrote(item: T)
  datatype Consumer<T> = Waiting | Ready | Read(item: T)

  datatype Ring<T> = Ring(
    bits: nat,               // the capacity is 2^bits
    head: nat,               // m_head
    tail: nat,               // m_tail
    producer: Producer<T>,
    consumer: Consumer<T>,
    pushes: seq<T>,
    pops: seq<T>,
    seenTail: nat,           // how many pops the producer has seen
    seenHead: nat)           // how many pushes the consumer has seen
  {
    function Cap(): nat { Pow2(bits) }

    /** Every write to the buffer so far; write number `w` went to slot `w % Cap()`. */
    function Writes(): seq<T> { if producer.Wrote? then pushes + [producer.item] else pushes }

    /** The abstract queue. */
    function Contents(): seq<T>
      requires |pops| <= |pushes|
    {
      pushes[|pops|..]
    }
  }

  function Empty<T>(bits: nat): Ring<T> {
    Ring(bits, 0, 0, Idle, Waiting, [], [], 0, 0)
  }

  /** The source's `(index + 1) & (Capacity - 1)`. */
  function Next<T>(s: Ring<T>, index: nat): nat {
    And(index + 1, s.Cap() - 1)
  }

  datatype Step<T> =
    | PushCheck(item: T, view: nat)  // try_push up to the load of m_tail, which returns the index after `view` pops
    | PushWrite
    | PushStore
    | PopCheck(view: nat)            // try_pop up to the load of m_head
    | PopRead(write: nat)            // the read of the slot returns write number `write`
    | PopStore

  /** Write `w` may be what a read of the consumer's slot returns: not older than what the consumer synchronised with. */
  predicate Visible<T>(s: Ring<T>, w: nat) {
    && w < |s.Writes()| && w % s.Cap() == s.tail
    && forall u :: w < u < s.seenHead ==> u % s.Cap() != s.tail
  }

  predicate CanStep<T>(s: Ring<T>, step: Step<T>) {
    match step
    case PushCheck(_, v) => s.producer.Idle? && s.seenTail <= v <= |s.pops|
    case PushWrite => s.producer.Checked?
    case PushStore => s.producer.Wrote?
    case PopCheck(v) => s.consumer.Waiting? && s.seenHead <= v <= |s.pushes|
    case PopRead(w) => s.consumer.Ready? && Visible(s, w)
    case PopStore => s.consumer.Read?
  }

  function DoStep<T>(s: Ring<T>, step: Step<T>): Ring<T>
    requires CanStep(s, step)
  {
    match step
    case PushCheck(item, v) =>
      var s1 := s.(seenTail := v);
      if Next(s, s.head) == v % s.Cap() then s1 else s1.(producer := Checked(item))
    case PushWrite => s.(producer := Wrote(s.producer.item))
    case PushStore => s.(head := Next(s, s.head), pushes := s.pushes + [s.producer.item], producer := Idle)
    case PopCheck(v) =>
      var s1 := s.(seenHead := v);
      if s.tail == v % s.Cap() then s1 else s1.(consumer := Ready)
    case PopRead(w) => s.(consumer := Read(s.Writes()[w]))
    case PopStore => s.(tail := Next(s, s.tail), pops := s.pops + [s.consumer.item], consumer := Waiting)
  }

  // ---- The invariant ---------------------------------------------------------------------------------------

  ghost predicate Inv<T>(s: Ring<T>) {
    && s.head == |s.pushes| % s.Cap() && s.tail == |s.pops| % s.Cap()
    && s.seenTail <= |s.pops| <= s.seenHead <= |s.pushes|
    && (if s.producer.Idle? then |s.pushes| - s.seenTail < s.Cap() else |s.pushes| + 1 - s.seenTail < s.Cap())
    && (!s.consumer.Waiting? ==> |s.pops| < s.seenHead)
    && (s.consumer.Read? ==> s.consumer.item == s.pushes[|s.pops|])
    && s.pops == s.pushes[..|s.pops|]
  }

  lemma InitialOk<T>(bits: nat)
    ensures Inv(Empty<T>(bits))
  {
    ModUnique(0, Pow2(bits), 0, 0);
  }

  /** Indices less than a capacity apart fall on the same slot only if equal. */
  lemma SameSlot(a: nat, b: nat, cap: nat)
    requires cap > 0 && b <= a <= b + cap
    ensures a % cap == b % cap <==> a == b || a == b + cap
  {
    var q, r := b / cap, b % cap;
    assert b == cap * q + r;
    if a < cap * q + cap {
      ModUnique(a, cap, q, r + (a - b));
    } else {
      assert a == cap * (q + 1) + (r + (a - b) - cap);
      if a == b + cap || r + (a - b) - cap < cap {
        ModUnique(a, cap, q + 1, r + (a - b) - cap);
      }
    }
  }

  lemma NextIndex<T>(s: Ring<T>, index: nat, count: nat)
    requires index == count % s.Cap()
    ensures Next(s, index) == (count + 1) % s.Cap()
  {
    AndLowMask(index + 1, s.bits);
    ModSucc(count, s.Cap());
  }

  /** A read of the slot can only return the oldest item not yet taken. */
  lemma ReadIsOldest<T>(s: Ring<T>, w: nat)
    requires Inv(s) && s.consumer.Ready? && Visible(s, w)
    ensures w == |s.pops| && s.Writes()[w] == s.pushes[|s.pops|]
  {
    var t := |s.pops|;
    assert t < s.seenHead && t % s.Cap() == s.tail;
    if t <= w { SameSlot(w, t, s.Cap()); }
  }

  /** Each side's comparison means what it should, in the view that side has. */
  lemma FullAndEmptyTests<T>(s: Ring<T>, v: nat)
    requires Inv(s)
    ensures s.producer.Idle? && s.seenTail <= v <= |s.pops| ==>
      (Next(s, s.head) == v % s.Cap() <==> |s.pushes| - v == s.Cap() - 1)
    ensures s.seenHead <= v <= |s.pushes| ==> (s.tail == v % s.Cap() <==> v == |s.pops|)
  {
    NextIndex(s, s.head, |s.pushes|);
    if s.producer.Idle? && s.seenTail <= v <= |s.pops| {
      SameSlot(|s.pushes| + 1, v, s.Cap());
    }
    if s.seenHead <= v <= |s.pushes| {
      SameSlot(v, |s.pops|, s.Cap());
    }
  }

  lemma StepKeeps<T>(s: Ring<T>, step: Step<T>)
    requires Inv(s) && CanStep(s, step)
    ensures Inv(DoStep(s, step))
  {
    match step
    case PushCheck(_, v) => FullAndEmptyTests(s, v);
    case PushStore => NextIndex(s, s.head, |s.pushes|);
    case PopCheck(v) => FullAndEmptyTests(s, v);
    case PopRead(w) => ReadIsOldest(s, w);
    case PopStore => NextIndex(s, s.tail, |s.pops|);
    case PushWrite =>
  }

  // ---- Refinement of a bounded FIFO queue ----------------------------------------------------------------------

  /** Publishing appends, taking removes the front, every other step is invisible; at most `Cap() - 1` items are held. */
  lemma StepRefinesFifo<T>(s: Ring<T>, step: Step<T>)
    requires Inv(s) && CanStep(s, step)
    ensures var r := DoStep(s, step);
      && |r.pops| <= |r.pushes|
      && |r.Contents()| <= r.Cap() - 1
      && match step
         case PushStore => r.Contents() == s.Contents() + [s.producer.item]
         case PopStore => s.Contents() == [s.consumer.item] + r.Contents()
         case _ => r.Contents() == s.Contents()
  {
    StepKeeps(s, step);
  }

  /** The producer's test fails exactly when the ring is full in its view; so with the newest view, exactly when it is full. */
  lemma PushRefusedMeansFull<T>(s: Ring<T>, item: T, v: nat)
    requires Inv(s) && CanStep(s, PushCheck(item, v))
    ensures DoStep(s, PushCheck(item, v)).producer.Idle? <==> |s.pushes| - v == s.Cap() - 1
    ensures v == |s.pops| ==> (DoStep(s, PushCheck(item, v)).producer.Idle? <==> |s.Contents()| == s.Cap() - 1)
  {
    FullAndEmptyTests(s, v);
  }

  lemma PopRefusedMeansEmpty<T>(s: Ring<T>, v: nat)
    requires Inv(s) && CanStep(s, PopCheck(v))
    ensures DoStep(s, PopCheck(v)).consumer.Waiting? <==> v == |s.pops|
    ensures v == |s.pushes| ==> (DoStep(s, PopCheck(v)).consumer.Waiting? <==> s.Contents() == [])
  {
    FullAndEmptyTests(s, v);
  }

  /** The slot being written is never the slot being read. */
  lemma SlotsNeverShared<T>(s: Ring<T>)
    requires Inv(s) && !s.producer.Idle? && !s.consumer.Waiting?
    ensures s.head != s.tail
  {
    SameSlot(|s.pushes|, |s.pops|, s.Cap());
  }

  /** A consumer that passed its test is never stuck: the item it needs is visible. */
  lemma ReadAlwaysPossible<T>(s: Ring<T>)
    requires Inv(s) && s.consumer.Ready?
    ensures CanStep(s, PopRead(|s.pops|))
  {
    forall u | |s.pops| < u < s.seenHead ensures u % s.Cap() != s.tail {
      SameSlot(u, |s.pops|, s.Cap());
    }
  }

  // ---- Whole runs ------------------------------------------------------------------------------------------------

  predicate IsRun<T>(s: Ring<T>, steps: seq<Step<T>>)
    decreases |steps|
  {
    steps == [] || (CanStep(s, steps[0]) && IsRun(DoStep(s, steps[0]), steps[1..]))
  }

  function Exec<T>(s: Ring<T>, steps: seq<Step<T>>): Ring<T>
    requires IsRun(s, steps)
    decreases |steps|
  {
    if steps == [] then s else Exec(DoStep(s, steps[0]), steps[1..])
  }

  /** Over every interleaving of any length, items come out exactly once, in order, and at most `Cap() - 1` wait. */
  lemma {:induction false} RunIsFifo<T>(s: Ring<T>, steps: seq<Step<T>>)
    requires Inv(s) && IsRun(s, steps)
    ensures var r := Exec(s, steps);
      && Inv(r) && r.Cap() == s.Cap()
      && s.pushes <= r.pushes && s.pops <= r.pops
      && r.pops <= r.pushes && |r.pushes| - |r.pops| <= s.Cap() - 1
    decreases |steps|
  {
    hide Next;
    if steps != [] {
      StepKeeps(s, steps[0]);
      RunIsFifo(DoStep(s, steps[0]), steps[1..]);
    }
  }
}
