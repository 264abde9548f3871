/** Generational handles: the index allocator and the sparse vector, against the plain map a client thinks of. */
module Generational {
  import opened Options
  import opened Words

  datatype Handle = Handle(index: nat, generation: nat)

  datatype Slot = Slot(alive: bool, generation: nat)

  /** The free indices form a stack whose top is the end of the sequence. */
  datatype Allocator = Allocator(slots: seq<Slot>, free: seq<nat>)

  predicate IsAlive(a: Allocator, h: Handle) {
    h.index < |a.slots| && a.slots[h.index].generation == h.generation && a.slots[h.index].alive
  }

  predicate FreeInRange(a: Allocator) {
    forall i :: 0 <= i < |a.free| ==> a.free[i] < |a.slots|
  }

  function Allocate(a: Allocator): (Allocator, Handle)
    requires FreeInRange(a)
  {
    if a.free != [] then
      var i := a.free[|a.free| - 1];
      var g := (a.slots[i].generation + 1) % U32;
      (Allocator(a.slots[i := Slot(true, g)], a.free[..|a.free| - 1]), Handle(i, g))
    else (Allocator(a.slots + [Slot(true, 0)], []), Handle(|a.slots|, 0))
  }

  function Deallocate(a: Allocator, h: Handle): Allocator {
    if IsAlive(a, h) then
      Allocator(a.slots[h.index := a.slots[h.index].(alive := false)], a.free + [h.index])
    else a
  }

  // ---- The vector -------------------------------------------------------------------------------------------

  datatype Cell<T> = Cell(generation: nat, value: T)

  type Cells<T> = seq<Option<Cell<T>>>

  /** At least `n` cells, new ones empty. */
  function Grown<T>(v: Cells<T>, n: nat): (r: Cells<T>)
    ensures |r| == (if |v| < n then n else |v|)
    ensures forall i :: 0 <= i < |r| ==> r[i] == if i < |v| then v[i] else None
  {
    if |v| >= n then v else v + seq(n - |v|, _ => None)
  }

  /** The generation a write has to reach. */
  function Floor<T>(v: Cells<T>, i: nat): nat {
    if i < |v| && v[i].Some? then v[i].value.generation else 0
  }

  /** `set` refuses, leaving only the growth, when the cell holds a later generation. */
  function Set<T>(v: Cells<T>, h: Handle, x: T): Cells<T> {
    var g := Grown(v, h.index + 1);
    if Floor(v, h.index) > h.generation then g else g[h.index := Some(Cell(h.generation, x))]
  }

  function Remove<T>(v: Cells<T>, h: Handle): Cells<T> {
    if h.index < |v| then v[h.index := None] else v
  }

  function Get<T>(v: Cells<T>, h: Handle): Option<T> {
    if h.index < |v| && v[h.index].Some? && v[h.index].value.generation == h.generation
    then Some(v[h.index].value.value) else None
  }

  // ---- Both together, against a plain map --------------------------------------------------------------------

  /** `model` is what a client has stored; `issued` is every handle the allocator ever returned. */
  datatype World<T> = World(a: Allocator, v: Cells<T>, model: map<Handle, T>, issued: set<Handle>)

  function Start<T>(): World<T> { World(Allocator([], []), [], map[], {}) }

  datatype Step<T> =
    | AllocateStep
    | DeallocateStep(handle: Handle)
    | SetStep(handle: Handle, value: T)
    | RemoveStep(handle: Handle)

  /** Writes and removals use live handles, and no slot is reused so often that its generation wraps. */
  predicate CanStep<T>(w: World<T>, step: Step<T>) {
    match step
    case AllocateStep =>
      FreeInRange(w.a) &&
      if w.a.free != [] then w.a.slots[w.a.free[|w.a.free| - 1]].generation + 1 < U32 else |w.a.slots| < U32
    case DeallocateStep(_) => true
    case SetStep(h, _) => IsAlive(w.a, h)
    case RemoveStep(h) => IsAlive(w.a, h)
  }

  function DoStep<T>(w: World<T>, step: Step<T>): World<T>
    requires CanStep(w, step)
  {
    match step
    case AllocateStep => var (a, h) := Allocate(w.a); w.(a := a, issued := w.issued + {h})
    case DeallocateStep(h) => w.(a := Deallocate(w.a, h))
    case SetStep(h, x) => w.(v := Set(w.v, h, x), model := w.model[h := x])
    case RemoveStep(h) => w.(v := Remove(w.v, h), model := w.model - {h})
  }

  // ---- The invariant --------------------------------------------------------------------------------------------

  /** The free list is exactly the dead slots, each once. */
  ghost predicate FreeOk(a: Allocator) {
    && Distinct(a.free)
    && FreeInRange(a)
    && (forall i :: 0 <= i < |a.slots| ==> (i in a.free <==> !a.slots[i].alive))
  }

  /** No handle is ahead of its slot, and every slot's present generation was issued. */
  ghost predicate IssuedOk(slots: seq<Slot>, issued: set<Handle>) {
    && (forall h :: h in issued ==> h.index < |slots| && h.generation <= slots[h.index].generation)
    && (forall i :: 0 <= i < |slots| ==> Handle(i, slots[i].generation) in issued)
  }

  /** No cell is ahead of its slot, and a live handle finds in the vector what the map holds. */
  ghost predicate StoreOk<T>(slots: seq<Slot>, v: Cells<T>, model: map<Handle, T>) {
    && (forall i :: 0 <= i < |v| && v[i].Some? ==> i < |slots| && v[i].value.generation <= slots[i].generation)
    && (forall i :: 0 <= i < |slots| && slots[i].alive ==>
      var h := Handle(i, slots[i].generation);
      Get(v, h) == if h in model then Some(model[h]) else None)
  }

  ghost predicate Inv<T>(w: World<T>) {
    && FreeOk(w.a) && IssuedOk(w.a.slots, w.issued) && StoreOk(w.a.slots, w.v, w.model)
    && w.model.Keys <= w.issued
  }

  lemma InitialOk<T>()
    ensures Inv(Start<T>())
  {
  }

  lemma AllocateFree(a: Allocator)
    requires FreeOk(a)
    ensures FreeOk(Allocate(a).0)
  {
    if a.free != [] {
      var n := |a.free| - 1;
      assert a.free == a.free[..n] + [a.free[n]];
      assert a.free[n] !in a.free[..n];
    }
  }

  lemma AllocateKeeps<T>(w: World<T>)
    requires Inv(w) && CanStep(w, AllocateStep)
    ensures Inv(DoStep(w, AllocateStep)) && Allocate(w.a).1 !in w.issued && IsAlive(Allocate(w.a).0, Allocate(w.a).1)
  {
    AllocateFree(w.a);
    var (a, h) := Allocate(w.a);
    hide FreeOk;
    assert StoreOk(a.slots, w.v, w.model) by {
      assert Get(w.v, h) == None && h !in w.model;
    }
  }

  lemma DeallocateKeeps<T>(w: World<T>, h: Handle)
    requires Inv(w)
    ensures Inv(DoStep(w, DeallocateStep(h)))
  {
  }

  lemma SetKeeps<T>(w: World<T>, h: Handle, x: T)
    requires Inv(w) && IsAlive(w.a, h)
    ensures Inv(DoStep(w, SetStep(h, x)))
  {
    assert Floor(w.v, h.index) <= h.generation;
  }

  lemma RemoveKeeps<T>(w: World<T>, h: Handle)
    requires Inv(w) && IsAlive(w.a, h)
    ensures Inv(DoStep(w, RemoveStep(h)))
  {
  }

  lemma StepKeeps<T>(w: World<T>, step: Step<T>)
    requires Inv(w) && CanStep(w, step)
    ensures Inv(DoStep(w, step))
  {
    hide Inv;
    match step
    case AllocateStep => AllocateKeeps(w);
    case DeallocateStep(h) => DeallocateKeeps(w, h);
    case SetStep(h, x) => SetKeeps(w, h, x);
    case RemoveStep(h) => RemoveKeeps(w, h);
  }

  // ---- Whole runs ---------------------------------------------------------------------------------------------------

  predicate IsRun<T>(w: World<T>, steps: seq<Step<T>>)
    decreases |steps|
  {
    steps == [] || (CanStep(w, steps[0]) && IsRun(DoStep(w, steps[0]), steps[1..]))
  }

  function Exec<T>(w: World<T>, steps: seq<Step<T>>): World<T>
    requires IsRun(w, steps)
    decreases |steps|
  {
    if steps == [] then w else Exec(DoStep(w, steps[0]), steps[1..])
  }

  lemma StepRetires<T>(w: World<T>, step: Step<T>, h: Handle)
    requires Inv(w) && CanStep(w, step) && h in w.issued && !IsAlive(w.a, h)
    ensures h in DoStep(w, step).issued && !IsAlive(DoStep(w, step).a, h)
  {
  }

  /** A handle that was given back is never alive again, whatever is allocated later. */
  lemma {:induction false} RetiredStaysDead<T>(w: World<T>, steps: seq<Step<T>>, h: Handle)
    requires Inv(w) && IsRun(w, steps) && h in w.issued && !IsAlive(w.a, h)
    ensures Inv(Exec(w, steps)) && !IsAlive(Exec(w, steps).a, h)
    decreases |steps|
  {
    hide Inv, DoStep, CanStep;
    if steps != [] {
      StepKeeps(w, steps[0]);
      StepRetires(w, steps[0], h);
      RetiredStaysDead(DoStep(w, steps[0]), steps[1..], h);
    }
  }

  lemma {:induction false} RunKeeps<T>(w: World<T>, steps: seq<Step<T>>)
    requires Inv(w) && IsRun(w, steps)
    ensures Inv(Exec(w, steps))
    decreases |steps|
  {
    hide Inv, DoStep, CanStep;
    if steps != [] {
      StepKeeps(w, steps[0]);
      RunKeeps(DoStep(w, steps[0]), steps[1..]);
    }
  }

  /** In every run, a live handle reads what the client last stored under it, and its own slot accepts its writes. */
  lemma LiveHandleIsMapKey<T>(steps: seq<Step<T>>, h: Handle, x: T)
    requires IsRun(Start<T>(), steps) && IsAlive(Exec(Start<T>(), steps).a, h)
    ensures var w := Exec(Start<T>(), steps);
      && Get(w.v, h) == (if h in w.model then Some(w.model[h]) else None)
      && Get(Set(w.v, h, x), h) == Some(x)
  {
    InitialOk<T>();
    RunKeeps(Start<T>(), steps);
    var w := Exec(Start<T>(), steps);
    assert Floor(w.v, h.index) <= h.generation;
  }

  // ---- What each call does, on any allocator and any cells --------------------------------------------------------------

  /** A write through a handle older than the cell's value leaves every read as it was. */
  lemma StaleSetIsRefused<T>(v: Cells<T>, h: Handle, x: T, k: Handle)
    requires h.index < |v| && v[h.index].Some? && v[h.index].value.generation > h.generation
    ensures Get(Set(v, h, x), k) == Get(v, k)
  {
  }

  /** Any other write is read back through its handle, hides the slot from other generations, and touches no other slot. */
  lemma SetIsReadBack<T>(v: Cells<T>, h: Handle, x: T, k: Handle)
    requires !(h.index < |v| && v[h.index].Some? && v[h.index].value.generation > h.generation)
    ensures Get(Set(v, h, x), k) == if k == h then Some(x) else if k.index == h.index then None else Get(v, k)
  {
  }

  /** A removal empties its slot for every generation and touches no other slot. */
  lemma RemoveHides<T>(v: Cells<T>, h: Handle, k: Handle)
    ensures Get(Remove(v, h), k) == if k.index == h.index then None else Get(v, k)
  {
  }

  /** Giving back a live handle kills that handle and no other; giving back a dead one does nothing. */
  lemma DeallocateKillsOne(a: Allocator, h: Handle, k: Handle)
    ensures IsAlive(Deallocate(a, h), k) <==> IsAlive(a, k) && k != h
    ensures !IsAlive(a, h) ==> Deallocate(a, h) == a
  {
  }

  /** An allocation brings exactly its own handle to life; it reuses the slot freed last, and grows only if none is free. */
  lemma AllocateRaisesOne(a: Allocator, k: Handle)
    requires FreeOk(a)
    ensures var (r, h) := Allocate(a);
      && (IsAlive(r, k) <==> IsAlive(a, k) || k == h)
      && (if a.free == [] then h == Handle(|a.slots|, 0) && |r.slots| == |a.slots| + 1
          else h.index == a.free[|a.free| - 1] && |r.slots| == |a.slots|)
  {
    if a.free != [] { assert a.free[|a.free| - 1] in a.free; }
  }

  /** Giving a handle back and allocating again returns its slot, one generation on. */
  lemma FreedSlotComesBack(a: Allocator, h: Handle)
    requires FreeOk(a) && IsAlive(a, h)
    ensures FreeOk(Deallocate(a, h)) && Allocate(Deallocate(a, h)).1 == Handle(h.index, (h.generation + 1) % U32)
  {
    CallKeeps(a, DeallocateCall(h));
  }

  // ---- Without the bound on reuse -------------------------------------------------------------------------------------

  datatype Call = AllocateCall | DeallocateCall(handle: Handle)

  /** The slot the next allocation reuses. */
  predicate ReusesNext(a: Allocator, i: nat) {
    a.free != [] && a.free[|a.free| - 1] == i
  }

  lemma CallKeeps(a: Allocator, call: Call)
    requires FreeOk(a)
    ensures FreeOk(DoCall(a, call))
  {
    if call.AllocateCall? { AllocateFree(a); }
  }

  function DoCall(a: Allocator, call: Call): Allocator
    requires FreeInRange(a)
  {
    match call
    case AllocateCall => Allocate(a).0
    case DeallocateCall(h) => Deallocate(a, h)
  }

  /** The allocator after any calls at all, stale and repeated handles included. */
  ghost function After(a: Allocator, calls: seq<Call>): (r: Allocator)
    requires FreeOk(a)
    ensures FreeOk(r)
  {
    if calls == [] then a
    else
      var m := After(a, calls[..|calls| - 1]);
      CallKeeps(m, calls[|calls| - 1]);
      DoCall(m, calls[|calls| - 1])
  }

  /** How often the calls reused slot `i`. */
  ghost function Reuses(a: Allocator, calls: seq<Call>, i: nat): nat
    requires FreeOk(a)
  {
    if calls == [] then 0
    else
      var init := calls[..|calls| - 1];
      Reuses(a, init, i) + if calls[|calls| - 1].AllocateCall? && ReusesNext(After(a, init), i) then 1 else 0
  }

  lemma ModShift(x: nat, y: nat)
    requires y < U32
    ensures ((x + y) % U32 + 1) % U32 == (x + y + 1) % U32
    ensures (y + x) % U32 == y <==> x % U32 == 0
  {
  }

  lemma CallGeneration(a: Allocator, call: Call, i: nat)
    requires FreeOk(a) && i < |a.slots|
    ensures i < |DoCall(a, call).slots|
    ensures DoCall(a, call).slots[i].generation ==
      if call.AllocateCall? && ReusesNext(a, i) then (a.slots[i].generation + 1) % U32 else a.slots[i].generation
  {
    assert FreeInRange(a);
    hide FreeOk;
  }

  /** Every slot's generation counts its reuses, modulo 2^32. */
  lemma {:induction false} GenerationCountsReuses(a: Allocator, calls: seq<Call>, i: nat)
    requires FreeOk(a) && i < |a.slots| && a.slots[i].generation < U32
    ensures i < |After(a, calls).slots|
    ensures After(a, calls).slots[i].generation == (a.slots[i].generation + Reuses(a, calls, i)) % U32
  {
    hide FreeOk, DoCall, ReusesNext;
    ModShift(0, a.slots[i].generation);
    if calls != [] {
      var init := calls[..|calls| - 1];
      GenerationCountsReuses(a, init, i);
      CallGeneration(After(a, init), calls[|calls| - 1], i);
      ModShift(Reuses(a, init, i), a.slots[i].generation);
    }
  }

  /** After any calls, a handle that was alive is alive if and only if its slot is and was reused a multiple of 2^32 times. */
  lemma AliveIffWholeTurns(a: Allocator, calls: seq<Call>, h: Handle)
    requires FreeOk(a) && IsAlive(a, h) && h.generation < U32
    ensures h.index < |After(a, calls).slots|
    ensures IsAlive(After(a, calls), h) <==>
      After(a, calls).slots[h.index].alive && Reuses(a, calls, h.index) % U32 == 0
  {
    hide FreeOk, After, Reuses;
    GenerationCountsReuses(a, calls, h.index);
    ModShift(Reuses(a, calls, h.index), h.generation);
  }

  /** Giving slot 0 back and allocating again, `n` times. */
  function Turns(n: nat): seq<Call> {
    if n == 0 then [] else Turns(n - 1) + [DeallocateCall(Handle(0, Wrapped(n - 1)))] + [AllocateCall]
  }

  /** A count as the source stores it. */
  function Wrapped(n: nat): (r: nat)
    ensures r < U32
  {
    n % U32
  }

  /** An allocator with one slot, in use or free. */
  function OneSlot(alive: bool, g: nat): Allocator {
    Allocator([Slot(alive, g)], if alive then [] else [0])
  }

  lemma NextWrapped(n: nat)
    ensures Wrapped(Wrapped(n) + 1) == Wrapped(n + 1)
  {
  }

  lemma AfterOneMore(a: Allocator, calls: seq<Call>, call: Call)
    requires FreeOk(a)
    ensures After(a, calls + [call]) == DoCall(After(a, calls), call)
  {
    hide FreeOk, DoCall;
    assert (calls + [call])[..|calls|] == calls;
  }

  lemma GivenBack(g: nat)
    ensures DoCall(OneSlot(true, g), DeallocateCall(Handle(0, g))) == OneSlot(false, g)
  {
    assert OneSlot(true, g).slots[0 := Slot(false, g)] == [Slot(false, g)];
  }

  lemma TakenAgain(g: nat)
    ensures DoCall(OneSlot(false, g), AllocateCall) == OneSlot(true, Wrapped(g + 1))
  {
    var a, w := OneSlot(false, g), Wrapped(g + 1);
    assert w == (g + 1) % U32;
    assert a.free[|a.free| - 1] == 0 && a.free[..|a.free| - 1] == [];
    assert a.slots[0 := Slot(true, w)] == [Slot(true, w)];
  }

  lemma AfterOneTurn(a: Allocator, calls: seq<Call>, g: nat)
    requires FreeOk(a) && g < U32 && After(a, calls) == OneSlot(true, g)
    ensures After(a, calls + [DeallocateCall(Handle(0, g))] + [AllocateCall]) == OneSlot(true, Wrapped(g + 1))
  {
    hide *;
    AfterOneMore(a, calls, DeallocateCall(Handle(0, g)));
    AfterOneMore(a, calls + [DeallocateCall(Handle(0, g))], AllocateCall);
    GivenBack(g);
    TakenAgain(g);
  }

  lemma {:induction false} AfterTurns(n: nat)
    requires FreeOk(OneSlot(true, 0))
    ensures After(OneSlot(true, 0), Turns(n)) == OneSlot(true, Wrapped(n))
  {
    hide FreeOk, OneSlot, DoCall;
    if n > 0 {
      hide After, Wrapped;
      AfterTurns(n - 1);
      AfterOneTurn(OneSlot(true, 0), Turns(n - 1), Wrapped(n - 1));
      NextWrapped(n - 1);
    }
  }

  /** So the bound is needed: a handle given back by the first call is alive again after 2^32 turns, and after no fewer. */
  lemma RetiredHandleReturns(n: nat)
    ensures FreeOk(OneSlot(true, 0))
    ensures n > 0 ==> Turns(n)[0] == DeallocateCall(Handle(0, 0))
    ensures IsAlive(After(OneSlot(true, 0), Turns(n)), Handle(0, 0)) <==> n % U32 == 0
  {
    AfterTurns(n);
    FirstTurn(n);
  }

  lemma {:induction false} FirstTurn(n: nat)
    ensures n > 0 ==> |Turns(n)| > 0 && Turns(n)[0] == DeallocateCall(Handle(0, 0))
  {
    if n > 1 { FirstTurn(n - 1); }
  }

  // ---- The valid-index scan -------------------------------------------------------------------------------------------

  /** The live handles whose cell holds a value of their generation, among the first `n` cells, in index order. */
  function Valid<T>(v: Cells<T>, a: Allocator, n: nat): (r: seq<Handle>)
    requires n <= |v|
    ensures forall h :: h in r ==> h.index < n && IsAlive(a, h) && Get(v, h).Some?
    ensures forall i, j :: 0 <= i < j < |r| ==> r[i].index < r[j].index
  {
    if n == 0 then []
    else
      var r := Valid(v, a, n - 1);
      if v[n - 1].Some? && IsAlive(a, Handle(n - 1, v[n - 1].value.generation))
      then r + [Handle(n - 1, v[n - 1].value.generation)] else r
  }

  lemma {:induction false} ScanIsComplete<T>(v: Cells<T>, a: Allocator, n: nat, h: Handle)
    requires n <= |v| && h.index < n && IsAlive(a, h) && Get(v, h).Some?
    ensures h in Valid(v, a, n)
  {
    if h.index < n - 1 { ScanIsComplete(v, a, n - 1, h); }
  }

  /** The scan lists exactly the live keys of the client's map, in ascending order. */
  lemma ScanListsLiveKeys<T>(w: World<T>)
    requires Inv(w)
    ensures forall h :: h in Valid(w.v, w.a, |w.v|) <==> h in w.model && IsAlive(w.a, h)
  {
    forall h ensures h in Valid(w.v, w.a, |w.v|) <==> h in w.model && IsAlive(w.a, h) {
      if IsAlive(w.a, h) {
        assert Get(w.v, h) == if h in w.model then Some(w.model[h]) else None;
        if h in w.model { ScanIsComplete(w.v, w.a, |w.v|, h); }
      }
    }
  }
}
