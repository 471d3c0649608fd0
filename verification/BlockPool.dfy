/** The recycling pool of weight buffers (tools/memra_cpu_experts.cpp): per-size free lists in
    front of the shared arena and private allocations. */
module BlockPool {
  import opened Blocks
  import opened Sorting
  import ShmArena

  /** The blocks waiting for reuse in the order they were released. The source keeps one vector per
      size; taking the last of a vector is taking the last released block of that size. */
  datatype Pool = Pool(free: seq<Block>, pooledBytes: nat)

  datatype Taken = Nothing | Taken(block: Block, rest: seq<Block>)

  const MAX_POOLED_BYTES: nat := 0x8000_0000
  const HUGE: nat := 0x20_0000
  const PAGE: nat := 0x1000

  function OfSize(free: seq<Block>, size: nat): seq<Block> {
    if free == [] then []
    else
      var n := |free| - 1;
      OfSize(free[..n], size) + if free[n].size == size then [free[n]] else []
  }

  /** The last released block of a size. */
  function Take(free: seq<Block>, size: nat): Taken {
    if free == [] then Nothing
    else
      var n := |free| - 1;
      if free[n].size == size then Taken(free[n], free[..n])
      else
        match Take(free[..n], size)
        case Nothing => Nothing
        case Taken(block, rest) => Taken(block, rest + [free[n]])
  }

  /** It comes off the end of its own size's list, and the other lists keep their order. */
  lemma {:induction false} TakeIsLast(free: seq<Block>, size: nat)
    ensures Take(free, size).Nothing? <==> OfSize(free, size) == []
    ensures Take(free, size).Taken? ==>
              && Take(free, size).block.size == size
              && OfSize(free, size) == OfSize(Take(free, size).rest, size) + [Take(free, size).block]
              && (forall other | other != size :: OfSize(Take(free, size).rest, other) == OfSize(free, other))
  {
    if free == [] {
    } else {
      var n := |free| - 1;
      if free[n].size != size {
        TakeIsLast(free[..n], size);
        match Take(free[..n], size)
        case Nothing =>
        case Taken(block, rest) =>
          assert (rest + [free[n]])[..|rest|] == rest;
          assert OfSize(rest + [free[n]], size) == OfSize(rest, size);
      }
    }
  }

  lemma {:induction false} TakeConserves(free: seq<Block>, size: nat)
    requires Take(free, size).Taken?
    ensures multiset(free) == multiset(Take(free, size).rest) + multiset{Take(free, size).block}
  {
    var n := |free| - 1;
    assert free == free[..n] + [free[n]];
    if free[n].size != size {
      TakeConserves(free[..n], size);
    }
  }

  function SizeOf(b: Block): nat {
    b.size
  }

  function PrivateSize(b: Block): nat {
    if b.shared then 0 else b.size
  }

  /** Arena blocks always return to the pool; a private one only while the pool stays below its cap. */
  predicate Keeps(p: Pool, block: Block) {
    block.shared || p.pooledBytes + block.size <= MAX_POOLED_BYTES
  }

  function Put(p: Pool, block: Block): Pool {
    if Keeps(p, block) then Pool(p.free + [block], p.pooledBytes + block.size) else p
  }

  /** The byte count is that of the list, and private blocks never exceed the cap. */
  ghost predicate Counted(p: Pool) {
    p.pooledBytes == Sum(SizeOf, p.free) && Sum(PrivateSize, p.free) <= MAX_POOLED_BYTES
  }

  lemma {:induction false} PrivateIsPart(free: seq<Block>)
    ensures Sum(PrivateSize, free) <= Sum(SizeOf, free)
  {
    if free == [] {
    } else {
      PrivateIsPart(free[..|free| - 1]);
    }
  }

  lemma PutKeepsCount(p: Pool, block: Block)
    requires Counted(p)
    ensures Counted(Put(p, block))
  {
    SumSnoc(SizeOf, p.free, block);
    SumSnoc(PrivateSize, p.free, block);
    PrivateIsPart(p.free);
  }

  lemma TakeKeepsCount(p: Pool, size: nat)
    requires Counted(p) && Take(p.free, size).Taken?
    ensures var t := Take(p.free, size);
            p.pooledBytes >= size && Counted(Pool(t.rest, p.pooledBytes - size))
  {
    hide Take, Sum;
    var t := Take(p.free, size);
    TakeConserves(p.free, size);
    TakeIsLast(p.free, size);
    SumSnoc(SizeOf, t.rest, t.block);
    SumSnoc(PrivateSize, t.rest, t.block);
    SumPermutation(SizeOf, p.free, t.rest + [t.block]);
    SumPermutation(PrivateSize, p.free, t.rest + [t.block]);
  }

  function Alignment(size: nat): nat {
    if size >= HUGE then HUGE else PAGE
  }

  /** A buffer's block: its length rounded up to whole pages. */
  function PoolBytes(length: nat): nat {
    ShmArena.AlignUp(length, PAGE)
  }

  class RawBlockPool {
    var free: map<nat, seq<Block>>
    var pooledBytes: nat
    /** All free lists in one, in the order of release. */
    ghost var released: seq<Block>

    ghost function State(): Pool
      reads this
    {
      Pool(released, pooledBytes)
    }

    ghost predicate Valid()
      reads this
    {
      && Counted(State())
      && forall size: nat :: OfSize(released, size) == if size in free then free[size] else []
    }

    constructor ()
      ensures Valid() && State() == Pool([], 0)
    {
      free, pooledBytes, released := map[], 0, [];
    }

    /** A recycled block of this very size, else one from the arena, else the private allocation given.
        `arena` is null when the shared segment is not in use. */
    method Acquire(size: nat, arena: ShmArena.SharedArena?, allocation: Block) returns (block: Block)
      requires Valid() && size > 0 && (arena != null ==> arena.Valid())
      requires !allocation.shared && allocation.size == size
      modifies this, arena
      ensures Valid() && (arena != null ==> arena.Valid()) && block.size == size
      ensures Take(old(State()).free, size).Nothing? && block.shared ==>
                ShmArena.Aligned(block.addr, if size >= 2 * 1024 * 1024 then 2 * 1024 * 1024 else 4096)
      ensures match Take(old(State()).free, size)
              case Taken(recycled, rest) =>
                && block == recycled && released == rest && pooledBytes + size == old(pooledBytes)
                && (arena != null ==> arena.State() == old(arena.State()))
              case Nothing =>
                && State() == old(State())
                && (if arena != null && ShmArena.Acquired(old(arena.State()), size, Alignment(size)).Some? then
                      ShmArena.Acquired(old(arena.State()), size, Alignment(size)).value == (block, arena.State())
                    else block == allocation && (arena != null ==> arena.State() == old(arena.State())))
    {
      hide Take, Counted, OfSize, ShmArena.Acquired, ShmArena.Sound, ShmArena.Aligned;
      TakeIsLast(released, size);
      if size in free && free[size] != [] {
        var list := free[size];
        ghost var t := Take(released, size);
        TakeKeepsCount(State(), size);
        assert list == OfSize(t.rest, size) + [t.block];
        block := list[|list| - 1];
        free := free[size := list[..|list| - 1]];
        pooledBytes := pooledBytes - size;
        released := t.rest;
        return;
      }
      if arena != null {
        var found := arena.Acquire(size, Alignment(size));
        if found.Some? {
          return found.value;
        }
      }
      block := allocation;
    }

    /** Back to the free list of its size, or freed. */
    method Release(block: Block) returns (kept: bool)
      requires Valid()
      modifies this
      ensures Valid() && State() == Put(old(State()), block)
      ensures kept <==> block.shared || old(pooledBytes) + block.size <= 2 * 1024 * 1024 * 1024
      ensures released == if kept then old(released) + [block] else old(released)
    {
      hide Counted, OfSize;
      PutKeepsCount(State(), block);
      kept := block.shared || pooledBytes + block.size <= MAX_POOLED_BYTES;
      if kept {
        ListsAfterPut(released, block);
        var list := if block.size in free then free[block.size] else [];
        free := free[block.size := list + [block]];
        pooledBytes := pooledBytes + block.size;
        released := released + [block];
      }
    }
  }

  lemma ListsAfterPut(free: seq<Block>, block: Block)
    ensures forall size :: OfSize(free + [block], size)
                        == OfSize(free, size) + if block.size == size then [block] else []
  {
    assert (free + [block])[..|free|] == free;
  }
}
