/** Byte ranges, and what it means that no byte has two owners. */
module Blocks {

  /** A range of bytes, in the shared segment or in private memory. */
  datatype Block = Block(shared: bool, addr: nat, size: nat)

  predicate Overlap(a: Block, b: Block) {
    a.shared == b.shared && a.addr < b.addr + b.size && b.addr < a.addr + a.size
  }

  predicate Inside(a: Block, b: Block) {
    a.shared == b.shared && b.addr <= a.addr && a.addr + a.size <= b.addr + b.size
  }

  /** No byte belongs to two of these blocks, nor to one listed twice. */
  ghost predicate Separate(m: multiset<Block>) {
    && (forall b | b in m :: b.size > 0 && m[b] == 1)
    && (forall a, b | a in m && b in m && a != b :: !Overlap(a, b))
  }

  lemma Regroup<T>(a: multiset<T>, b: multiset<T>, c: multiset<T>)
    ensures a + b + c == a + (b + c)
    ensures a + b + c == a + c + b
  {
  }

  lemma Joined<T>(xs: seq<T>, ys: seq<T>)
    ensures multiset(xs + ys) == multiset(xs) + multiset(ys)
  {
  }

  lemma SeparateAdd(m: multiset<Block>, b: Block)
    requires Separate(m) && b.size > 0 && forall a | a in m :: !Overlap(a, b)
    ensures Separate(m + multiset{b})
  {
    assert b !in m by {
      assert Overlap(b, b);
    }
  }

  lemma SeparatePart(m: multiset<Block>, n: multiset<Block>)
    requires Separate(m + n)
    ensures Separate(m)
  {
    forall b | b in m ensures b.size > 0 && m[b] == 1 {
      assert b in m + n;
    }
    forall a, b | a in m && b in m && a != b ensures !Overlap(a, b) {
      assert a in m + n && b in m + n;
    }
  }

  /** Replacing a block by a piece of it, and possibly a second piece apart from the first. */
  lemma SeparateShrink(m: multiset<Block>, whole: Block, part: Block)
    requires Separate(m + multiset{whole}) && Inside(part, whole) && part.size > 0
    ensures Separate(m + multiset{part})
    ensures forall a | a in m :: !Overlap(a, part)
  {
    SeparatePart(m, multiset{whole});
    forall a | a in m ensures !Overlap(a, part) {
      assert a in m + multiset{whole} && whole in m + multiset{whole};
      assert (m + multiset{whole})[whole] == 1;
      assert a != whole;
    }
    SeparateAdd(m, part);
  }
}

/** The first-fit arena over the shared segment (tools/memra_cpu_experts.cpp): holes, a bump pointer,
    and the reload sweep that rebuilds them from the persisted ranges. */
module ShmArena {
  import opened Options
  import opened Blocks
  import opened Sorting

  /** `data` and `bump` are offsets into the segment; `data` is where blocks start. */
  datatype Arena = Arena(segment: nat, data: nat, bump: nat, holes: seq<Block>)

  function Multiple(n: nat, alignment: nat): nat {
    n * alignment
  }

  ghost predicate Aligned(value: nat, alignment: nat) {
    exists n: nat :: value == Multiple(n, alignment)
  }

  /** The first multiple of the alignment at or above the value. */
  function AlignUp(value: nat, alignment: nat): (r: nat)
    requires alignment > 0
    ensures value <= r < value + alignment && Aligned(r, alignment)
  {
    Multiple((value + alignment - 1) / alignment, alignment)
  }

  // ----- acquire -----

  predicate Fits(hole: Block, size: nat, alignment: nat)
    requires alignment > 0
  {
    AlignUp(hole.addr, alignment) + size <= hole.addr + hole.size
  }

  /** The first hole that fits, or the number of holes. */
  function FirstFit(holes: seq<Block>, size: nat, alignment: nat): (i: nat)
    requires alignment > 0
    ensures i <= |holes|
    ensures i < |holes| ==> Fits(holes[i], size, alignment)
    ensures forall j | 0 <= j < i :: !Fits(holes[j], size, alignment)
  {
    if holes == [] || Fits(holes[0], size, alignment) then 0
    else FirstFit(holes[1..], size, alignment) + 1
  }

  lemma FirstFitIs(holes: seq<Block>, size: nat, alignment: nat, i: nat)
    requires alignment > 0 && i <= |holes|
    requires i < |holes| ==> Fits(holes[i], size, alignment)
    requires forall j | 0 <= j < i :: !Fits(holes[j], size, alignment)
    ensures FirstFit(holes, size, alignment) == i
  {
  }

  /** What remains of a hole around the block cut from it, in the order it is put back. */
  function Remainders(hole: Block, at: nat, size: nat): seq<Block>
    requires hole.addr <= at && at + size <= hole.addr + hole.size
  {
    (if at > hole.addr then [Block(true, hole.addr, at - hole.addr)] else [])
    + (if at + size < hole.addr + hole.size
       then [Block(true, at + size, hole.addr + hole.size - at - size)] else [])
  }

  function Acquired(a: Arena, size: nat, alignment: nat): Option<(Block, Arena)>
    requires alignment > 0
  {
    var i := FirstFit(a.holes, size, alignment);
    if i < |a.holes| then
      var at := AlignUp(a.holes[i].addr, alignment);
      Some((Block(true, at, size), a.(holes := a.holes[..i] + a.holes[i + 1..] + Remainders(a.holes[i], at, size))))
    else
      var at := AlignUp(a.bump, alignment);
      if at + size > a.segment then None else Some((Block(true, at, size), a.(bump := at + size)))
  }

  /** Live blocks and holes share no byte and lie between the start of the data and the bump pointer. */
  ghost predicate Sound(a: Arena, live: multiset<Block>) {
    && a.data <= a.bump <= a.segment
    && Separate(live + multiset(a.holes))
    && (forall b | b in live || b in a.holes :: b.shared ==> a.data <= b.addr && b.addr + b.size <= a.bump)
    && (forall b | b in a.holes :: b.shared)
  }

  lemma TakeOut(holes: seq<Block>, i: nat)
    requires i < |holes|
    ensures multiset(holes) == multiset(holes[..i] + holes[i + 1..]) + multiset{holes[i]}
  {
    assert holes == holes[..i] + [holes[i]] + holes[i + 1..];
  }

  /** One more piece of a cut block beside the pieces already there. */
  lemma AddPiece(m: multiset<Block>, whole: Block, pieces: seq<Block>, piece: Block)
    requires Separate(m + multiset{whole}) && Separate(m + multiset(pieces))
    requires Inside(piece, whole) && piece.size > 0
    requires forall p | p in pieces :: !Overlap(p, piece)
    ensures Separate(m + multiset(pieces + [piece]))
  {
    hide Separate, Inside, Overlap;
    SeparateShrink(m, whole, piece);
    forall a | a in m + multiset(pieces) ensures !Overlap(a, piece) {
      assert a in m || a in pieces;
    }
    SeparateAdd(m + multiset(pieces), piece);
    Joined(pieces, [piece]);
    Regroup(m, multiset(pieces), multiset{piece});
  }

  /** Cutting a hole into the remainders and the block keeps everything separate. */
  lemma CutHole(m: multiset<Block>, hole: Block, at: nat, size: nat)
    requires Separate(m + multiset{hole}) && hole.shared && size > 0
    requires hole.addr <= at && at + size <= hole.addr + hole.size
    ensures Separate(m + multiset([Block(true, at, size)] + Remainders(hole, at, size)))
  {
    hide Separate;
    var pieces := [Block(true, at, size)];
    SeparatePart(m, multiset{hole});
    var none: seq<Block> := [];
    assert m + multiset(none) == m;
    AddPiece(m, hole, none, pieces[0]);
    assert none + [pieces[0]] == pieces;
    if at > hole.addr {
      var left := Block(true, hole.addr, at - hole.addr);
      AddPiece(m, hole, pieces, left);
      pieces := pieces + [left];
    }
    if at + size < hole.addr + hole.size {
      var right := Block(true, at + size, hole.addr + hole.size - at - size);
      AddPiece(m, hole, pieces, right);
      pieces := pieces + [right];
    }
    assert pieces == [Block(true, at, size)] + Remainders(hole, at, size);
  }

  lemma AcquireFromHole(a: Arena, live: multiset<Block>, size: nat, alignment: nat)
    requires Sound(a, live) && size > 0 && alignment > 0 && FirstFit(a.holes, size, alignment) < |a.holes|
    ensures var (b, next) := Acquired(a, size, alignment).value;
            Sound(next, live + multiset{b}) && a.data <= b.addr && b.addr + b.size <= next.bump
  {
    hide Sound, FirstFit, AlignUp, Remainders;
    var i := FirstFit(a.holes, size, alignment);
    SoundAfterCut(a, live, i, AlignUp(a.holes[i].addr, alignment), size);
  }

  lemma SoundAfterCut(a: Arena, live: multiset<Block>, i: nat, at: nat, size: nat)
    requires Sound(a, live) && size > 0 && i < |a.holes|
    requires a.holes[i].addr <= at && at + size <= a.holes[i].addr + a.holes[i].size
    ensures Sound(a.(holes := a.holes[..i] + a.holes[i + 1..] + Remainders(a.holes[i], at, size)),
                  live + multiset{Block(true, at, size)})
    ensures a.data <= at && at + size <= a.bump
  {
    hide Separate, Remainders, Overlap;
    var b := Block(true, at, size);
    assert a.holes[i] in a.holes;
    SeparateAfterCut(live, a.holes, i, at, size);
    HolesStayInside(a, live, i, at, size);
    forall x | x in live + multiset{b} ensures x.shared ==> a.data <= x.addr && x.addr + x.size <= a.bump {
      assert x in live || x == b;
    }
  }

  lemma HolesStayInside(a: Arena, live: multiset<Block>, i: nat, at: nat, size: nat)
    requires Sound(a, live) && i < |a.holes|
    requires a.holes[i].addr <= at && at + size <= a.holes[i].addr + a.holes[i].size
    ensures forall x | x in a.holes[..i] + a.holes[i + 1..] + Remainders(a.holes[i], at, size) ::
              x.shared && a.data <= x.addr && x.addr + x.size <= a.bump
  {
    hide Separate, Remainders;
    var rest, parts := a.holes[..i] + a.holes[i + 1..], Remainders(a.holes[i], at, size);
    assert a.holes[i] in a.holes;
    forall x: Block | x in rest + parts ensures x.shared && a.data <= x.addr && x.addr + x.size <= a.bump {
      RemaindersInside(a.holes[i], at, size, x);
      assert x in rest || x in parts;
      assert x in rest ==> x in a.holes;
    }
  }

  lemma RemaindersInside(hole: Block, at: nat, size: nat, x: Block)
    requires hole.addr <= at && at + size <= hole.addr + hole.size && hole.shared
    ensures x in Remainders(hole, at, size) ==> Inside(x, hole)
  {
  }

  lemma SeparateAfterCut(live: multiset<Block>, holes: seq<Block>, i: nat, at: nat, size: nat)
    requires i < |holes| && holes[i].shared && Separate(live + multiset(holes)) && size > 0
    requires holes[i].addr <= at && at + size <= holes[i].addr + holes[i].size
    ensures var next := holes[..i] + holes[i + 1..] + Remainders(holes[i], at, size);
            Separate(live + multiset{Block(true, at, size)} + multiset(next))
  {
    hide Separate, Remainders;
    var rest, parts := multiset(holes[..i] + holes[i + 1..]), multiset(Remainders(holes[i], at, size));
    var block := Block(true, at, size);
    TakeOut(holes, i);
    Regroup(live, rest, multiset{holes[i]});
    CutHole(live + rest, holes[i], at, size);
    Joined([block], Remainders(holes[i], at, size));
    Joined(holes[..i] + holes[i + 1..], Remainders(holes[i], at, size));
    Regroup(live + rest, multiset{block}, parts);
    Regroup(live, rest, multiset{block});
    Regroup(live + multiset{block}, rest, parts);
  }

  lemma AcquireFromBump(a: Arena, live: multiset<Block>, size: nat, alignment: nat)
    requires Sound(a, live) && size > 0 && alignment > 0 && FirstFit(a.holes, size, alignment) == |a.holes|
    requires Acquired(a, size, alignment).Some?
    ensures var (b, next) := Acquired(a, size, alignment).value;
            Sound(next, live + multiset{b}) && a.data <= b.addr
  {
    hide Separate, FirstFit, AlignUp;
    var (b, next) := Acquired(a, size, alignment).value;
    var m := live + multiset(a.holes);
    forall x | x in m ensures !Overlap(x, b) {
      assert x in live || x in a.holes;
    }
    SeparateAdd(m, b);
    assert live + multiset{b} + multiset(next.holes) == m + multiset{b};
  }

  /** An acquired block is aligned, lies in the data segment, and shares no byte with a live
      block or a hole. */
  lemma AcquireIsSound(a: Arena, live: multiset<Block>, size: nat, alignment: nat)
    requires Sound(a, live) && size > 0 && alignment > 0 && Acquired(a, size, alignment).Some?
    ensures var (b, next) := Acquired(a, size, alignment).value;
            && b.shared && b.size == size && Aligned(b.addr, alignment)
            && a.data <= b.addr && b.addr + b.size <= next.bump <= a.segment
            && next.segment == a.segment && next.data == a.data && a.bump <= next.bump
            && Sound(next, live + multiset{b})
  {
    hide Separate, Overlap, Aligned;
    if FirstFit(a.holes, size, alignment) < |a.holes| {
      AcquireFromHole(a, live, size, alignment);
    } else {
      AcquireFromBump(a, live, size, alignment);
    }
  }

  // ----- the reload sweep -----

  /** The order of pairs (offset, length). */
  predicate RangeLe(a: Block, b: Block) {
    a.addr < b.addr || (a.addr == b.addr && a.size <= b.size)
  }

  function Max(a: nat, b: nat): nat {
    if a < b then b else a
  }

  /** The gaps the cursor jumps over. */
  function Gaps(ranges: seq<Block>, cursor: nat): seq<Block> {
    if ranges == [] then []
    else
      (if ranges[0].addr > cursor then [Block(true, cursor, ranges[0].addr - cursor)] else [])
      + Gaps(ranges[1..], Max(cursor, ranges[0].addr + ranges[0].size))
  }

  /** Where the cursor stops. */
  function End(ranges: seq<Block>, cursor: nat): (r: nat)
    ensures r >= cursor
  {
    if ranges == [] then cursor else End(ranges[1..], Max(cursor, ranges[0].addr + ranges[0].size))
  }

  function Reloaded(a: Arena, occupied: seq<Block>): Arena {
    var ranges := Sort(RangeLe, occupied);
    a.(holes := a.holes + Gaps(ranges, a.data), bump := End(ranges, a.data))
  }

  ghost predicate InSome(x: nat, blocks: seq<Block>) {
    exists i | 0 <= i < |blocks| :: blocks[i].addr <= x < blocks[i].addr + blocks[i].size
  }

  lemma EndOfRanges()
    ensures forall cursor :: Gaps([], cursor) == [] && End([], cursor) == cursor
  {
  }

  lemma GapStep(ranges: seq<Block>, i: nat, cursor: nat)
    requires i < |ranges|
    ensures var range := ranges[i];
            var next := Max(cursor, range.addr + range.size);
            && Gaps(ranges[i..], cursor)
            == (if range.addr > cursor then [Block(true, cursor, range.addr - cursor)] else [])
               + Gaps(ranges[i + 1..], next)
            && End(ranges[i..], cursor) == End(ranges[i + 1..], next)
  {
    assert ranges[i..][1..] == ranges[i + 1..];
  }

  lemma InTail(x: nat, first: seq<Block>, rest: seq<Block>)
    ensures InSome(x, first + rest) <==> InSome(x, first) || InSome(x, rest)
  {
    var all := first + rest;
    if InSome(x, rest) {
      var i :| 0 <= i < |rest| && rest[i].addr <= x < rest[i].addr + rest[i].size;
      assert all[|first| + i] == rest[i];
    }
    if InSome(x, first) {
      var i :| 0 <= i < |first| && first[i].addr <= x < first[i].addr + first[i].size;
      assert all[i] == first[i];
    }
  }

  lemma {:induction false} GapsAreBetween(ranges: seq<Block>, cursor: nat)
    requires Sorted(RangeLe, ranges)
    ensures forall h | h in Gaps(ranges, cursor) ::
              h.shared && h.size > 0 && cursor <= h.addr && h.addr + h.size <= End(ranges, cursor)
    ensures forall r | r in ranges :: r.addr + r.size <= End(ranges, cursor)
    ensures forall h, r | h in Gaps(ranges, cursor) && r in ranges :: !Overlap(h, r)
  {
    if ranges == [] {
    } else {
      var rest, next := ranges[1..], Max(cursor, ranges[0].addr + ranges[0].size);
      GapsAreBetween(rest, next);
      forall r | r in ranges ensures r == ranges[0] || r in rest {
      }
      forall r | r in rest ensures ranges[0].addr <= r.addr {
        var i :| 0 <= i < |rest| && rest[i] == r;
        assert RangeLe(ranges[0], ranges[i + 1]);
      }
      forall h, r | h in Gaps(ranges, cursor) && r in ranges ensures !Overlap(h, r) {
        if h in Gaps(rest, next) && r == ranges[0] {
          assert next <= h.addr;
        }
      }
    }
  }

  lemma {:induction false} GapsAreSeparate(ranges: seq<Block>, cursor: nat)
    requires Sorted(RangeLe, ranges)
    ensures Separate(multiset(Gaps(ranges, cursor)))
  {
    if ranges == [] {
    } else {
      hide Separate;
      var rest, next := ranges[1..], Max(cursor, ranges[0].addr + ranges[0].size);
      GapsAreSeparate(rest, next);
      GapsAreBetween(rest, next);
      if ranges[0].addr > cursor {
        var gap := Block(true, cursor, ranges[0].addr - cursor);
        SeparateAdd(multiset(Gaps(rest, next)), gap);
        assert Gaps(ranges, cursor) == [gap] + Gaps(rest, next);
      } else {
        assert Gaps(ranges, cursor) == Gaps(rest, next);
      }
    }
  }

  lemma {:induction false} GapsAreExact(ranges: seq<Block>, cursor: nat, x: nat)
    requires Sorted(RangeLe, ranges) && cursor <= x < End(ranges, cursor)
    ensures InSome(x, Gaps(ranges, cursor)) <==> !InSome(x, ranges)
  {
    var rest, next := ranges[1..], Max(cursor, ranges[0].addr + ranges[0].size);
    var first := if ranges[0].addr > cursor then [Block(true, cursor, ranges[0].addr - cursor)] else [];
    assert ranges == [ranges[0]] + rest;
    InTail(x, [ranges[0]], rest);
    InTail(x, first, Gaps(rest, next));
    GapsAreBetween(rest, next);
    forall r | r in rest ensures ranges[0].addr <= r.addr {
      var i :| 0 <= i < |rest| && rest[i] == r;
      assert RangeLe(ranges[0], ranges[i + 1]);
    }
    InOne(x, ranges[0]);
    if x < next {
      if ranges[0].addr > cursor {
        InOne(x, first[0]);
      }
    } else {
      GapsAreExact(rest, next, x);
      if ranges[0].addr > cursor {
        InOne(x, first[0]);
      }
    }
  }

  lemma InOne(x: nat, b: Block)
    ensures InSome(x, [b]) <==> b.addr <= x < b.addr + b.size
  {
    if b.addr <= x < b.addr + b.size {
      assert [b][0] == b;
    }
  }

  lemma RangeOrderIsLinear()
    ensures Linear(RangeLe)
  {
  }

  /** After the sweep the holes are exactly the unoccupied bytes below the bump pointer, and nothing
      overlaps, provided the reserved ranges themselves did not. */
  lemma ReloadIsSound(a: Arena, occupied: seq<Block>)
    requires a.holes == [] && a.data <= a.segment
    requires Separate(multiset(occupied))
    requires forall b | b in occupied :: b.shared && a.data <= b.addr && b.addr + b.size <= a.segment
    ensures Sound(Reloaded(a, occupied), multiset(occupied))
    ensures forall x: nat | a.data <= x < Reloaded(a, occupied).bump ::
              InSome(x, Reloaded(a, occupied).holes) <==> !InSome(x, occupied)
  {
    hide Separate, Sort, Gaps, Overlap, InSome, End, RangeLe;
    var ranges := Sort(RangeLe, occupied);
    var gaps := Gaps(ranges, a.data);
    assert a.holes + gaps == gaps;
    RangeOrderIsLinear();
    SortIsSorted(RangeLe, occupied);
    SameElements(occupied, ranges);
    GapsAreBetween(ranges, a.data);
    GapsAreSeparate(ranges, a.data);
    EndWithin(ranges, a.data, a.segment);
    SeparateUnion(multiset(occupied), multiset(gaps));
    forall x: nat | a.data <= x < End(ranges, a.data) ensures InSome(x, gaps) <==> !InSome(x, occupied) {
      GapsAreExact(ranges, a.data, x);
      SameCover(x, occupied, ranges);
    }
  }

  lemma SameCover(x: nat, a: seq<Block>, b: seq<Block>)
    requires forall r :: r in a <==> r in b
    ensures InSome(x, a) <==> InSome(x, b)
  {
    if InSome(x, a) {
      var i :| 0 <= i < |a| && a[i].addr <= x < a[i].addr + a[i].size;
      assert a[i] in b;
    }
    if InSome(x, b) {
      var i :| 0 <= i < |b| && b[i].addr <= x < b[i].addr + b[i].size;
      assert b[i] in a;
    }
  }

  lemma {:induction false} EndWithin(ranges: seq<Block>, cursor: nat, bound: nat)
    requires cursor <= bound && forall r | r in ranges :: r.addr + r.size <= bound
    ensures End(ranges, cursor) <= bound
  {
    if ranges == [] {
    } else {
      EndWithin(ranges[1..], Max(cursor, ranges[0].addr + ranges[0].size), bound);
    }
  }

  lemma SeparateUnion(m: multiset<Block>, n: multiset<Block>)
    requires Separate(m) && Separate(n)
    requires forall a, b | a in m && b in n :: !Overlap(b, a)
    ensures Separate(m + n)
  {
    forall b | b in m + n ensures b.size > 0 && (m + n)[b] == 1 {
      assert b.size > 0;
      assert Overlap(b, b);
    }
  }

  lemma ReleaseIsSound(a: Arena, live: multiset<Block>, block: Block)
    requires Sound(a, live) && block in live && block.shared
    ensures Sound(a.(holes := a.holes + [block]), live - multiset{block})
  {
    hide Separate;
    var rest := live - multiset{block};
    assert live == rest + multiset{block};
    Joined(a.holes, [block]);
    Regroup(rest, multiset{block}, multiset(a.holes));
    Regroup(rest, multiset(a.holes), multiset{block});
    assert forall b | b in rest :: b in live;
  }

  // ----- the arena object -----

  class SharedArena {
    const segment: nat
    const data: nat
    var bump: nat
    var holes: seq<Block>
    var occupied: seq<Block>
    /** The blocks reserved or acquired and not released. */
    ghost var live: multiset<Block>

    ghost function State(): Arena
      reads this
    {
      Arena(segment, data, bump, holes)
    }

    ghost predicate Valid()
      reads this
    {
      Sound(State(), live) && occupied == []
    }

    constructor (segment: nat, data: nat)
      requires data <= segment
      ensures this.segment == segment && this.data == data
      ensures State() == Arena(segment, data, data, []) && occupied == [] && live == multiset{}
    {
      this.segment, this.data := segment, data;
      bump, holes, occupied, live := data, [], [], multiset{};
    }

    /** Notes a range of the persisted index, before any acquire. */
    method ReserveRange(block: Block)
      modifies this`occupied
      ensures occupied == old(occupied) + [block]
    {
      occupied := occupied + [block];
    }

    method FinishReload()
      requires holes == [] && data <= segment
      requires Separate(multiset(occupied))
      requires forall b | b in occupied :: b.shared && data <= b.addr && b.addr + b.size <= segment
      modifies this
      ensures Valid() && live == multiset(old(occupied))
      ensures State() == Reloaded(old(State()), old(occupied))
      ensures forall x: nat | data <= x < bump :: InSome(x, holes) <==> !InSome(x, old(occupied))
    {
      hide Sort, InSome, Separate, Sound, Gaps, End;
      EndOfRanges();
      ghost var start, ranges := State(), occupied;
      ReloadIsSound(start, ranges);
      var sorted := Sort(RangeLe, occupied);
      var cursor := data;
      var i := 0;
      assert sorted[0..] == sorted;
      while i < |sorted|
        invariant i <= |sorted| && occupied == ranges
        invariant holes + Gaps(sorted[i..], cursor) == Gaps(sorted, data)
        invariant End(sorted[i..], cursor) == End(sorted, data)
      {
        var range := sorted[i];
        GapStep(sorted, i, cursor);
        if range.addr > cursor {
          holes := holes + [Block(true, cursor, range.addr - cursor)];
        }
        cursor := Max(cursor, range.addr + range.size);
        i := i + 1;
      }
      assert sorted[i..] == [];
      bump := cursor;
      occupied := [];
      live := multiset(ranges);
      assert start.holes + holes == holes;
      assert State() == Reloaded(start, ranges);
    }

    /** The block comes from the first hole that fits, and what is left of the hole goes to the end. */
    method TakeHole(i: nat, at: nat, size: nat, alignment: nat) returns (block: Block)
      requires Valid() && size > 0 && alignment > 0
      requires i < |holes| && FirstFit(holes, size, alignment) == i && at == AlignUp(holes[i].addr, alignment)
      modifies this
      ensures Valid()
      ensures Acquired(old(State()), size, alignment) == Some((block, State()))
      ensures live == old(live) + multiset{block}
      ensures block.shared && block.size == size && Aligned(block.addr, alignment)
    {
      hide Sound, Aligned, AlignUp, FirstFit;
      ghost var start := State();
      AcquireIsSound(start, live, size, alignment);
      var hole := holes[i];
      holes := holes[..i] + holes[i + 1..];
      if at > hole.addr {
        holes := holes + [Block(true, hole.addr, at - hole.addr)];
      }
      if at + size < hole.addr + hole.size {
        holes := holes + [Block(true, at + size, hole.addr + hole.size - at - size)];
      }
      block := Block(true, at, size);
      live := live + multiset{block};
      assert State() == Acquired(start, size, alignment).value.1;
    }

    /** First fit among the holes, then the bump pointer; None when the arena is full. */
    method Acquire(size: nat, alignment: nat) returns (block: Option<Block>)
      requires Valid() && size > 0 && alignment > 0
      modifies this
      ensures Valid()
      ensures block.Some? <==> Acquired(old(State()), size, alignment).Some?
      ensures block.Some? ==> Acquired(old(State()), size, alignment).value == (block.value, State())
      ensures block.Some? ==> live == old(live) + multiset{block.value}
      ensures block.Some? ==> block.value.shared && block.value.size == size && Aligned(block.value.addr, alignment)
      ensures block.None? ==> State() == old(State()) && live == old(live)
    {
      hide Sound, Aligned, AlignUp, FirstFit, Remainders;
      ghost var start := State();
      var i := 0;
      while i < |holes|
        invariant i <= |holes| && State() == start && live == old(live) && occupied == []
        invariant forall j | 0 <= j < i :: !Fits(holes[j], size, alignment)
      {
        var hole := holes[i];
        var at := AlignUp(hole.addr, alignment);
        if at + size <= hole.addr + hole.size {
          FirstFitIs(holes, size, alignment, i);
          var found := TakeHole(i, at, size, alignment);
          return Some(found);
        }
        i := i + 1;
      }
      FirstFitIs(holes, size, alignment, |holes|);
      var at := AlignUp(bump, alignment);
      if at + size > segment {
        return None;
      }
      AcquireIsSound(start, live, size, alignment);
      bump := at + size;
      live := live + multiset{Block(true, at, size)};
      block := Some(Block(true, at, size));
    }

    /** A released block becomes a hole. */
    method Release(block: Block)
      requires Valid() && block in live && block.shared
      modifies this`holes, this`live
      ensures Valid() && live == old(live) - multiset{block} && holes == old(holes) + [block]
    {
      ReleaseIsSound(State(), live, block);
      live := live - multiset{block};
      holes := holes + [block];
    }
  }
}
