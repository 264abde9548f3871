/** The allocator and the vector as the mutable objects the source has, with their loops. */
module GenerationalClasses {
  import opened Options
  import opened Words
  import opened Generational

  class IndexAllocator {
    var slots: seq<Slot>
    var free: seq<nat>

    function Abs(): Allocator
      reads this
    {
      Allocator(slots, free)
    }

    constructor ()
      ensures Abs() == Allocator([], [])
    {
      slots, free := [], [];
    }

    method Allocate() returns (h: Handle)
      requires FreeInRange(Abs())
      modifies this
      ensures (Abs(), h) == Generational.Allocate(old(Abs()))
    {
      if free != [] {
        var i := free[|free| - 1];
        free := free[..|free| - 1];
        slots := slots[i := Slot(slots[i].alive, (slots[i].generation + 1) % U32)];
        slots := slots[i := slots[i].(alive := true)];
        assert slots == old(slots)[i := slots[i]];
        return Handle(i, slots[i].generation);
      }
      slots := slots + [Slot(true, 0)];
      return Handle(|slots| - 1, 0);
    }

    method Deallocate(h: Handle)
      modifies this
      ensures Abs() == Generational.Deallocate(old(Abs()), h)
    {
      if IsAlive(Abs(), h) {
        slots := slots[h.index := slots[h.index].(alive := false)];
        free := free + [h.index];
      }
    }
  }

  class GenerationalVector<T> {
    var cells: Cells<T>

    constructor ()
      ensures cells == []
    {
      cells := [];
    }

    /** Grows to the index, then writes unless the cell holds a later generation. */
    method Set(h: Handle, x: T) returns (accepted: bool)
      modifies this
      ensures cells == Generational.Set(old(cells), h, x)
      ensures accepted <==> Floor(old(cells), h.index) <= h.generation
    {
      while |cells| <= h.index
        invariant |old(cells)| <= |cells| && (|cells| <= h.index + 1 || cells == old(cells))
        invariant cells == Grown(old(cells), |cells|)
      {
        cells := cells + [None];
      }
      assert cells == Grown(old(cells), h.index + 1);
      var prev := 0;
      if cells[h.index].Some? {
        prev := cells[h.index].value.generation;
      }
      if prev > h.generation {
        return false;
      }
      cells := cells[h.index := Some(Cell(h.generation, x))];
      return true;
    }

    method Remove(h: Handle)
      modifies this
      ensures cells == Generational.Remove(old(cells), h)
    {
      if h.index < |cells| {
        cells := cells[h.index := None];
      }
    }

    method GetAllValidIndices(a: IndexAllocator) returns (result: seq<Handle>)
      ensures result == Valid(cells, a.Abs(), |cells|)
    {
      result := [];
      for i := 0 to |cells|
        invariant result == Valid(cells, a.Abs(), i)
      {
        if cells[i].None? {
          continue;
        }
        var h := Handle(i, cells[i].value.generation);
        if IsAlive(a.Abs(), h) {
          result := result + [h];
        }
      }
    }

    /** The first valid entry is the head of the full scan. */
    method GetFirstValidEntry(a: IndexAllocator) returns (r: Option<(Handle, T)>)
      ensures r.None? <==> Valid(cells, a.Abs(), |cells|) == []
      ensures r.Some? ==> Valid(cells, a.Abs(), |cells|)[0] == r.value.0 && Get(cells, r.value.0) == Some(r.value.1)
    {
      for i := 0 to |cells|
        invariant Valid(cells, a.Abs(), i) == []
      {
        if cells[i].Some? {
          var h := Handle(i, cells[i].value.generation);
          if IsAlive(a.Abs(), h) {
            ScanPrefix(cells, a.Abs(), i + 1, |cells|);
            return Some((h, cells[i].value.value));
          }
        }
      }
      return None;
    }
  }

  lemma {:induction false} ScanPrefix<T>(v: Cells<T>, a: Allocator, n: nat, m: nat)
    requires n <= m <= |v|
    ensures Valid(v, a, n) <= Valid(v, a, m)
    decreases m
  {
    if n < m { ScanPrefix(v, a, n, m - 1); }
  }
}
