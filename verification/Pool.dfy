/** The fixed-block pool: its free-list links live in the first bytes of the free blocks themselves. */
module Pools {
  import opened Options
  import opened Words
  import opened Bits
  import opened Bytes
  import opened Arenas

  const POINTER_SIZE := 8
  const MAX_ALIGN := 16

  // ---- Pointers in memory ------------------------------------------------------------------------------------

  predicate InMem(mem: seq<Byte>, base: nat, a: nat, n: nat) {
    base <= a && a + n <= base + |mem|
  }

  function Load(mem: seq<Byte>, base: nat, a: nat): nat
    requires InMem(mem, base, a, POINTER_SIZE)
  {
    FromLittle(mem[a - base..a - base + POINTER_SIZE])
  }

  /** `data` written over the bytes at `a`. */
  function Write(mem: seq<Byte>, base: nat, a: nat, data: seq<Byte>): (r: seq<Byte>)
    requires InMem(mem, base, a, |data|)
    ensures |r| == |mem|
  {
    mem[..a - base] + data + mem[a - base + |data|..]
  }

  function Store(mem: seq<Byte>, base: nat, a: nat, v: nat): (r: seq<Byte>)
    requires InMem(mem, base, a, POINTER_SIZE)
    ensures |r| == |mem|
  {
    Write(mem, base, a, ToLittle(v, POINTER_SIZE))
  }

  lemma LoadStored(mem: seq<Byte>, base: nat, a: nat, v: nat)
    requires InMem(mem, base, a, POINTER_SIZE) && v < WORD
    ensures Load(Store(mem, base, a, v), base, a) == v
  {
    Powers();
    LittleRoundTrip(v, POINTER_SIZE);
    var i := a - base;
    hide FromLittle, ToLittle;
    assert Store(mem, base, a, v)[i..i + POINTER_SIZE] == ToLittle(v, POINTER_SIZE);
  }

  lemma LoadElsewhere(mem: seq<Byte>, base: nat, a: nat, data: seq<Byte>, b: nat)
    requires InMem(mem, base, a, |data|) && InMem(mem, base, b, POINTER_SIZE)
    requires a + |data| <= b || b + POINTER_SIZE <= a
    ensures Load(Write(mem, base, a, data), base, b) == Load(mem, base, b)
  {
    var j := b - base;
    hide FromLittle;
    assert Write(mem, base, a, data)[j..j + POINTER_SIZE] == mem[j..j + POINTER_SIZE];
  }

  // ---- The free list ---------------------------------------------------------------------------------------------

  /** Following the links from `free` visits exactly `list` and ends in null. */
  predicate Chained(mem: seq<Byte>, base: nat, free: nat, list: seq<nat>)
    decreases |list|
  {
    if list == [] then free == 0
    else
      && free == list[0] && free != 0 && InMem(mem, base, free, POINTER_SIZE)
      && Chained(mem, base, Load(mem, base, free), list[1..])
  }

  /** A write that touches no block of the list leaves the list alone. */
  lemma {:induction false} WriteKeepsChain(mem: seq<Byte>, base: nat, free: nat, list: seq<nat>, a: nat, data: seq<Byte>)
    requires Chained(mem, base, free, list) && InMem(mem, base, a, |data|)
    requires forall b :: b in list ==> a + |data| <= b || b + POINTER_SIZE <= a
    ensures Chained(Write(mem, base, a, data), base, free, list)
    decreases |list|
  {
    if list != [] {
      assert list[0] in list;
      LoadElsewhere(mem, base, a, data, free);
      forall b | b in list[1..] ensures b in list {}
      WriteKeepsChain(mem, base, Load(mem, base, free), list[1..], a, data);
    }
  }

  /** Pushing a block: its link takes the old head. */
  lemma PushKeepsChain(mem: seq<Byte>, base: nat, free: nat, list: seq<nat>, p: nat)
    requires Chained(mem, base, free, list) && InMem(mem, base, p, POINTER_SIZE) && p != 0 && free < WORD
    requires forall b :: b in list ==> p + POINTER_SIZE <= b || b + POINTER_SIZE <= p
    ensures Chained(Store(mem, base, p, free), base, p, [p] + list)
  {
    LoadStored(mem, base, p, free);
    WriteKeepsChain(mem, base, free, list, p, ToLittle(free, POINTER_SIZE));
    hide Load, Write;
    assert ([p] + list)[1..] == list;
  }

  // ---- Blocks ------------------------------------------------------------------------------------------------------

  /** Blocks of `size` bytes inside `[lo, hi)`, no two overlapping. */
  ghost predicate BlocksOk(blocks: set<nat>, size: nat, lo: nat, hi: nat) {
    && (forall b :: b in blocks ==> lo <= b && b + size <= hi)
    && (forall a, b :: a in blocks && b in blocks && a != b ==> a + size <= b || b + size <= a)
  }

  lemma AddBlock(blocks: set<nat>, size: nat, lo: nat, hi: nat, p: nat)
    requires BlocksOk(blocks, size, lo, hi) && lo <= hi <= p && size > 0
    ensures p !in blocks && BlocksOk(blocks + {p}, size, lo, p + size)
  {
  }

  function Listed(list: seq<nat>): set<nat> {
    set b | b in list
  }

  /**
    The pool of the arena's fixed-size blocks. The caller keeps to what the source relies on: the arena is not reset,
    a block is given back at most once, and a chunk holds at least one block.
  */
  class FixedBlockPool {
    const arena: LinearArena
    const blkSize: nat
    const perChunk: nat
    var free: nat
    var chunks: nat
    ghost var list: seq<nat>      // the free blocks, head first
    ghost var held: set<nat>      // the blocks clients hold
    ghost var carved: set<nat>    // every block ever cut from the arena

    /** Free and held blocks partition the carved ones, blocks do not overlap, and memory spells the free list. */
    ghost predicate Valid()
      reads this, arena
    {
      && arena.Valid() && 0 < arena.begin
      && blkSize >= POINTER_SIZE && perChunk >= 1
      && Chained(arena.bytes, arena.begin, free, list) && Distinct(list)
      && Listed(list) !! held && carved == Listed(list) + held
      && BlocksOk(carved, blkSize, arena.begin, arena.cur)
    }

    constructor (arena: LinearArena, blockSize: nat, blocksPerChunk: nat)
      requires arena.Valid() && 0 < arena.begin && blocksPerChunk >= 1
      ensures Valid() && this.arena == arena && list == [] && held == {} && carved == {}
      ensures blkSize == if blockSize < POINTER_SIZE then POINTER_SIZE else blockSize
    {
      this.arena := arena;
      blkSize := if blockSize < POINTER_SIZE then POINTER_SIZE else blockSize;
      perChunk := blocksPerChunk;
      free, chunks, list, held, carved := 0, 0, [], {}, {};
    }

    /** Links one block of a new chunk into the list; `p` lies behind every block so far. */
    method LinkBlock(p: nat, ghost top: nat)
      requires arena.begin <= top <= p && p + blkSize <= arena.cur
      requires arena.Valid() && 0 < arena.begin && blkSize >= POINTER_SIZE
      requires Chained(arena.bytes, arena.begin, free, list) && Distinct(list) && free < WORD
      requires Listed(list) !! held && carved == Listed(list) + held
      requires BlocksOk(carved, blkSize, arena.begin, top)
      modifies this`free, this`list, this`carved, arena`bytes
      ensures arena.Valid() && Chained(arena.bytes, arena.begin, free, list) && Distinct(list) && free == p
      ensures list == [p] + old(list) && carved == old(carved) + {p} && p !in old(carved)
      ensures Listed(list) !! held && carved == Listed(list) + held
      ensures BlocksOk(carved, blkSize, arena.begin, p + blkSize)
    {
      AddBlock(carved, blkSize, arena.begin, top, p);
      forall b | b in list ensures b + POINTER_SIZE <= p { assert b in carved; }
      PushKeepsChain(arena.bytes, arena.begin, free, list, p);
      hide Chained, BlocksOk, Store;
      arena.bytes := Store(arena.bytes, arena.begin, p, free);
      free := p;
      list := [p] + list;
      carved := carved + {p};
    }

    /** The loop of `add_chunk`: cuts the chunk at `raw` into blocks, linking each. */
    method CutChunk(raw: nat)
      requires arena.begin <= raw && arena.cur == raw + perChunk * blkSize
      requires arena.Valid() && 0 < arena.begin && blkSize >= POINTER_SIZE
      requires Chained(arena.bytes, arena.begin, free, list) && Distinct(list) && free < WORD
      requires Listed(list) !! held && carved == Listed(list) + held
      requires BlocksOk(carved, blkSize, arena.begin, raw)
      modifies this`free, this`list, this`carved, arena`bytes
      ensures arena.Valid() && Chained(arena.bytes, arena.begin, free, list) && Distinct(list)
      ensures Listed(list) !! held && carved == Listed(list) + held
      ensures BlocksOk(carved, blkSize, arena.begin, arena.cur)
      ensures carved == old(carved) + set i | 0 <= i < perChunk :: raw + i * blkSize
      ensures |list| == |old(list)| + perChunk && list[perChunk..] == old(list)
    {
      hide Chained, BlocksOk, Arenas.RegionsOk;
      var i := 0;
      while i < perChunk
        invariant 0 <= i <= perChunk && arena.Valid()
        invariant Chained(arena.bytes, arena.begin, free, list) && Distinct(list) && free < WORD
        invariant Listed(list) !! held && carved == Listed(list) + held
        invariant BlocksOk(carved, blkSize, arena.begin, raw + i * blkSize)
        invariant carved == old(carved) + set j | 0 <= j < i :: raw + j * blkSize
        invariant |list| == |old(list)| + i && list[i..] == old(list)
      {
        BlockInChunk(raw, i, perChunk, blkSize);
        var p := raw + i * blkSize;
        LinkBlock(p, p);
        assert (set j | 0 <= j < i + 1 :: raw + j * blkSize) == (set j | 0 <= j < i :: raw + j * blkSize) + {p};
        i := i + 1;
      }
    }

    /** Cuts a fresh chunk into blocks. Fails only if the arena has no room, and then nothing changed. */
    method AddChunk() returns (ok: bool)
      requires Valid()
      requires arena.cur + MAX_ALIGN + perChunk * blkSize <= WORD
      modifies this, arena
      ensures Valid() && held == old(held) && old(carved) <= carved
      ensures ok <==> AlignUp(old(arena.cur), MAX_ALIGN) + perChunk * blkSize <= arena.end
      ensures ok ==> |list| == |old(list)| + perChunk && list[perChunk..] == old(list)
      ensures chunks == old(chunks) + if ok then 1 else 0
      ensures !ok ==> list == old(list) && free == old(free) && carved == old(carved)
      ensures arena.begin == old(arena.begin) && arena.end == old(arena.end)
    {
      hide Chained, BlocksOk, AlignUp, Pow2, Arenas.RegionsOk;
      SixteenIsPow2();
      ghost var top := arena.cur;
      FreeIsAddress(arena.bytes, arena.begin, free, list);
      var mem := arena.Allocate(perChunk * blkSize, 4, MAX_ALIGN);
      if mem.None? {
        return false;
      }
      GrowBlocks(carved, blkSize, arena.begin, top, mem.value);
      CutChunk(mem.value);
      chunks := chunks + 1;
      return true;
    }

    /** Hands out the head of the free list, or fails for want of arena space with the pool unchanged. */
    method Allocate() returns (p: Option<nat>)
      requires Valid()
      requires free == 0 ==> arena.cur + MAX_ALIGN + perChunk * blkSize <= WORD
      modifies this, arena
      ensures Valid() && old(carved) <= carved
      ensures p.Some? ==> p.value in carved && p.value !in old(held) && held == old(held) + {p.value}
      ensures p.Some? && old(list) != [] ==> p.value == old(list)[0] && list == old(list)[1..] && carved == old(carved)
      ensures p.None? <==>
        old(list) == [] && AlignUp(old(arena.cur), MAX_ALIGN) + perChunk * blkSize > arena.end
      ensures p.None? ==> held == old(held) && list == old(list) && free == old(free) && carved == old(carved)
    {
      if free == 0 {
        var ok := AddChunk();
        if !ok {
          return None;
        }
      }
      hide BlocksOk, AlignUp;
      assert list == [list[0]] + list[1..];
      var n := free;
      free := Load(arena.bytes, arena.begin, n);
      list, held := list[1..], held + {n};
      return Some(n);
    }

    /** Takes a held block back; null is ignored. */
    method Deallocate(p: nat)
      requires Valid() && (p == 0 || p in held)
      modifies this, arena`bytes
      ensures Valid() && carved == old(carved)
      ensures p == 0 ==> unchanged(this) && unchanged(arena)
      ensures p != 0 ==> held == old(held) - {p} && list == [p] + old(list) && free == p
    {
      if p == 0 {
        return;
      }
      assert p in carved;
      forall b | b in list ensures p + POINTER_SIZE <= b || b + POINTER_SIZE <= p { assert b in carved; }
      FreeIsAddress(arena.bytes, arena.begin, free, list);
      PushKeepsChain(arena.bytes, arena.begin, free, list, p);
      hide Chained, BlocksOk, Store, Arenas.RegionsOk;
      arena.bytes := Store(arena.bytes, arena.begin, p, free);
      free := p;
      list, held := [p] + list, held - {p};
    }

    /** Whatever a client writes into a block it holds, the pool's lists stay as they are. */
    method ClientWrites(p: nat, data: seq<Byte>)
      requires Valid() && p in held && |data| == blkSize
      modifies arena`bytes
      ensures Valid()
      ensures arena.bytes == Write(old(arena.bytes), arena.begin, p, data)
    {
      assert p in carved;
      forall b | b in list ensures p + blkSize <= b || b + POINTER_SIZE <= p { assert b in carved; }
      WriteKeepsChain(arena.bytes, arena.begin, free, list, p, data);
      hide Chained, BlocksOk, Arenas.RegionsOk;
      arena.bytes := Write(arena.bytes, arena.begin, p, data);
    }
  }

  lemma SixteenIsPow2()
    ensures Pow2(4) == MAX_ALIGN
  {
  }

  lemma FreeIsAddress(mem: seq<Byte>, base: nat, free: nat, list: seq<nat>)
    requires Chained(mem, base, free, list) && base + |mem| < WORD
    ensures free < WORD && (free == 0 <==> list == [])
  {
  }

  lemma GrowBlocks(blocks: set<nat>, size: nat, lo: nat, hi: nat, hi': nat)
    requires BlocksOk(blocks, size, lo, hi) && hi <= hi'
    ensures BlocksOk(blocks, size, lo, hi')
  {
  }

  lemma BlockInChunk(raw: nat, i: nat, n: nat, size: nat)
    requires i < n
    ensures raw <= raw + i * size && raw + i * size + size <= raw + n * size
    ensures raw + (i + 1) * size == raw + i * size + size
  {
    MulStep(size, i, n);
  }
}
