/** Splitting expert payload files over two NVMe devices
    (tools/build_dual_nvme_expert_view.py): the longest-processing-time loop. */
module DualDevicePartition {
  import opened Sorting

  datatype File = File(name: string, size: nat)

  /** Names compare character by character, as Python strings do. */
  predicate NameLe(a: string, b: string) {
    if a == [] then true
    else if b == [] then false
    else a[0] < b[0] || (a[0] == b[0] && NameLe(a[1..], b[1..]))
  }

  /** The sort key (-size, name). */
  predicate LargerFirst(a: File, b: File) {
    a.size > b.size || (a.size == b.size && NameLe(a.name, b.name))
  }

  lemma {:induction false} NameLeTotal(a: string, b: string)
    ensures NameLe(a, b) || NameLe(b, a)
  {
    if a != [] && b != [] && a[0] == b[0] {
      NameLeTotal(a[1..], b[1..]);
    }
  }

  lemma {:induction false} NameLeTransitive(a: string, b: string, c: string)
    requires NameLe(a, b) && NameLe(b, c)
    ensures NameLe(a, c)
  {
    if a != [] && b != [] && c != [] && a[0] == b[0] == c[0] {
      NameLeTransitive(a[1..], b[1..], c[1..]);
    }
  }

  lemma LargerFirstLinear()
    ensures Linear(LargerFirst)
  {
    forall a, b ensures LargerFirst(a, b) || LargerFirst(b, a) {
      NameLeTotal(a.name, b.name);
    }
    forall a, b, c | LargerFirst(a, b) && LargerFirst(b, c) ensures LargerFirst(a, c) {
      if a.size == b.size == c.size {
        NameLeTransitive(a.name, b.name, c.name);
      }
    }
  }

  const Size := (file: File) => file.size

  /** What a file adds to the device that holds the names in `side`. */
  function Share(side: set<string>): File -> nat {
    (file: File) => if file.name in side then file.size else 0
  }

  function OtherShare(side: set<string>): File -> nat {
    (file: File) => if file.name in side then 0 else file.size
  }

  function Max(a: nat, b: nat): nat { if a >= b then a else b }

  /** The larger device load when the files named in `side` go to one device and the rest to the
      other. Letting `side` range over all sets gives every two-way split. */
  ghost function SplitMax(files: seq<File>, side: set<string>): nat {
    Max(Sum(Share(side), files), Sum(OtherShare(side), files))
  }

  ghost predicate Descending(p: seq<File>) {
    forall i, j | 0 <= i < j < |p| :: p[i].size >= p[j].size
  }

  /** The two totals the loop reaches after placing `p` in order. */
  ghost function Totals(p: seq<File>): (nat, nat) {
    if p == [] then
      (0, 0)
    else
      var (a, b) := Totals(p[..|p| - 1]);
      var size := p[|p| - 1].size;
      if a <= b then (a + size, b) else (a, b + size)
  }

  lemma {:induction false} TotalsAddUp(p: seq<File>)
    ensures Totals(p).0 + Totals(p).1 == Sum(Size, p)
  {
    if p != [] {
      TotalsAddUp(p[..|p| - 1]);
    }
  }

  lemma SplitAddsUp(p: seq<File>, side: set<string>)
    ensures Sum(Share(side), p) + Sum(OtherShare(side), p) == Sum(Size, p)
  {
    SumSplit(Share(side), OtherShare(side), Size, p);
  }

  /** Three files of at least `low` on one device cost at least `3 * low`; five files put three on
      some device, and four files do unless they split two and two. */
  lemma {:induction false} LoadAtLeastCount(p: seq<File>, side: set<string>, low: nat)
    returns (inside: nat, outside: nat)
    requires forall i | 0 <= i < |p| :: p[i].size >= low
    ensures inside + outside == |p|
    ensures Sum(Share(side), p) >= inside * low && Sum(OtherShare(side), p) >= outside * low
  {
    if p == [] {
      inside, outside := 0, 0;
    } else {
      var init, last := p[..|p| - 1], p[|p| - 1];
      inside, outside := LoadAtLeastCount(init, side, low);
      if last.name in side {
        assert (inside + 1) * low == inside * low + low;
        inside := inside + 1;
      } else {
        assert (outside + 1) * low == outside * low + low;
        outside := outside + 1;
      }
    }
  }

  lemma UnrollSum(f: File -> nat, p: seq<File>)
    requires 1 <= |p| <= 4
    ensures Sum(f, p) == f(p[0]) + (if |p| > 1 then f(p[1]) else 0)
                         + (if |p| > 2 then f(p[2]) else 0) + (if |p| > 3 then f(p[3]) else 0)
  {
    assert p[..|p| - 1] == [] || |p| > 1;
    if |p| > 1 {
      var q := p[..|p| - 1];
      assert q[..|q| - 1] == [] || |q| > 1;
      if |q| > 1 {
        var r := q[..|q| - 1];
        assert r[..|r| - 1] == [] || |r| > 1;
        if |r| > 1 {
          var s := r[..|r| - 1];
          assert s[..|s| - 1] == [];
        }
      }
    }
  }

  lemma ThreeOf(count: nat, low: nat)
    ensures count >= 3 ==> count * low >= 3 * low
  {
    assert count >= 3 ==> (count - 3) * low >= 0;
  }

  lemma ThreeOnADevice(p: seq<File>, side: set<string>, low: nat)
    requires |p| >= 5 && forall i | 0 <= i < |p| :: p[i].size >= low
    ensures 3 * low <= SplitMax(p, side)
  {
    hide Sum;
    var inside, outside := LoadAtLeastCount(p, side, low);
    ThreeOf(inside, low);
    ThreeOf(outside, low);
  }

  lemma TotalsOfFew(p: seq<File>)
    requires |p| <= 3 && Descending(p)
    ensures |p| == 0 ==> Totals(p) == (0, 0)
    ensures |p| == 1 ==> Totals(p) == (p[0].size, 0)
    ensures |p| == 2 ==> Totals(p) == (p[0].size, p[1].size)
    ensures |p| == 3 && p[0].size <= p[1].size ==> Totals(p) == (p[0].size + p[2].size, p[1].size)
    ensures |p| == 3 && p[0].size > p[1].size ==> Totals(p) == (p[0].size, p[1].size + p[2].size)
  {
    if |p| > 0 {
      TotalsOfFew(p[..|p| - 1]);
    }
  }

  function In(inside: bool, size: nat): nat { if inside then size else 0 }

  /** Four sizes, each over a third of the best split, must split two and two. */
  lemma FourSizes(a: nat, b: nat, c: nat, d: nat, ia: bool, ib: bool, ic: bool, id: bool)
    requires a >= b >= c >= d
    requires var best := Max(In(ia, a) + In(ib, b) + In(ic, c) + In(id, d),
                             In(!ia, a) + In(!ib, b) + In(!ic, c) + In(!id, d));
             3 * d > best
    ensures var best := Max(In(ia, a) + In(ib, b) + In(ic, c) + In(id, d),
                            In(!ia, a) + In(!ib, b) + In(!ic, c) + In(!id, d));
            a + d <= best && (a > b + c ==> b + c + d <= best)
  {
  }

  lemma SplitOfFew(p: seq<File>, side: set<string>)
    requires 1 <= |p| <= 4
    ensures SplitMax(p, side) == Max(SizeAt(p, side, true, 0) + SizeAt(p, side, true, 1)
                                     + SizeAt(p, side, true, 2) + SizeAt(p, side, true, 3),
                                     SizeAt(p, side, false, 0) + SizeAt(p, side, false, 1)
                                     + SizeAt(p, side, false, 2) + SizeAt(p, side, false, 3))
  {
    hide Sum;
    UnrollSum(Share(side), p);
    UnrollSum(OtherShare(side), p);
  }

  function SizeAt(p: seq<File>, side: set<string>, inside: bool, i: nat): nat {
    if i < |p| then In((p[i].name in side) == inside, p[i].size) else 0
  }

  /** Up to four files, each larger than a third of the best split: the loop's last placement is
      no worse than that split. */
  lemma FewLargeFiles(p: seq<File>, side: set<string>)
    requires 1 <= |p| <= 4 && Descending(p)
    requires 3 * p[|p| - 1].size > SplitMax(p, side)
    ensures var (a, b) := Totals(p[..|p| - 1]);
            (if a <= b then a else b) + p[|p| - 1].size <= SplitMax(p, side)
  {
    hide SplitMax, Totals, Sum;
    if |p| == 4 {
      LastOfFour(p, side);
    } else {
      LastOfThree(p, side);
    }
  }

  lemma FourAtMost(p: seq<File>, side: set<string>)
    requires |p| == 4
    ensures var ia, ib, ic, id := p[0].name in side, p[1].name in side, p[2].name in side, p[3].name in side;
            var a, b, c, d := p[0].size, p[1].size, p[2].size, p[3].size;
            SplitMax(p, side) == Max(In(ia, a) + In(ib, b) + In(ic, c) + In(id, d),
                                     In(!ia, a) + In(!ib, b) + In(!ic, c) + In(!id, d))
  {
    hide SplitMax;
    SplitOfFew(p, side);
  }

  lemma ThreePlaced(p: seq<File>)
    requires |p| == 4 && Descending(p)
    ensures p[0].size <= p[1].size ==> Totals(p[..3]) == (p[0].size + p[2].size, p[1].size)
    ensures p[0].size > p[1].size ==> Totals(p[..3]) == (p[0].size, p[1].size + p[2].size)
  {
    hide Totals;
    TotalsOfFew(p[..3]);
  }

  lemma LastOfFour(p: seq<File>, side: set<string>)
    requires |p| == 4 && Descending(p) && 3 * p[3].size > SplitMax(p, side)
    ensures var (a, b) := Totals(p[..3]); (if a <= b then a else b) + p[3].size <= SplitMax(p, side)
  {
    hide SplitMax, Totals, Sum;
    FourAtMost(p, side);
    ThreePlaced(p);
    assert p[0].size >= p[1].size >= p[2].size >= p[3].size;
    hide Descending;
    FourSizes(p[0].size, p[1].size, p[2].size, p[3].size, p[0].name in side, p[1].name in side,
              p[2].name in side, p[3].name in side);
  }

  lemma LastOfThree(p: seq<File>, side: set<string>)
    requires 1 <= |p| <= 3 && Descending(p)
    ensures var (a, b) := Totals(p[..|p| - 1]);
            (if a <= b then a else b) + p[|p| - 1].size <= SplitMax(p, side)
  {
    hide SplitMax, Totals, Sum;
    SplitOfFew(p, side);
    TotalsOfFew(p[..|p| - 1]);
  }

  lemma DropLastSplit(p: seq<File>, side: set<string>)
    requires p != []
    ensures SplitMax(p[..|p| - 1], side) <= SplitMax(p, side)
  {
  }

  /** The smaller device's load plus the last file is within 7/6 of any split. */
  lemma LastPlacement(p: seq<File>, side: set<string>)
    requires p != [] && Descending(p)
    ensures var (a, b) := Totals(p[..|p| - 1]);
            6 * ((if a <= b then a else b) + p[|p| - 1].size) <= 7 * SplitMax(p, side)
  {
    var size := p[|p| - 1].size;
    if 3 * size > SplitMax(p, side) {
      if |p| >= 5 {
        ThreeOnADevice(p, side, size);
      } else {
        FewLargeFiles(p, side);
      }
    } else {
      TotalsAddUp(p[..|p| - 1]);
      SplitAddsUp(p, side);
    }
  }

  /** The 7/6 bound for the loop's totals on any descending list, against any split. */
  lemma {:induction false} GreedyBound(p: seq<File>, side: set<string>)
    requires Descending(p)
    ensures 6 * Max(Totals(p).0, Totals(p).1) <= 7 * SplitMax(p, side)
  {
    if p != [] {
      GreedyBound(p[..|p| - 1], side);
      DropLastSplit(p, side);
      LastPlacement(p, side);
    }
  }

  lemma BoundInAnyOrder(files: seq<File>)
    ensures var (a, b) := Totals(Sort(LargerFirst, files));
            forall side :: 6 * Max(a, b) <= 7 * SplitMax(files, side)
  {
    var ordered := Sort(LargerFirst, files);
    LargerFirstLinear();
    SortIsSorted(LargerFirst, files);
    assert Descending(ordered) by {
      forall i, j | 0 <= i < j < |ordered| ensures ordered[i].size >= ordered[j].size {
        assert LargerFirst(ordered[i], ordered[j]);
      }
    }
    forall side ensures 6 * Max(Totals(ordered).0, Totals(ordered).1) <= 7 * SplitMax(files, side) {
      GreedyBound(ordered, side);
      SumPermutation(Share(side), ordered, files);
      SumPermutation(OtherShare(side), ordered, files);
    }
  }

  /** What is on the devices: the bins hold exactly `placed`, and the totals are their sizes. */
  ghost predicate Holds(bins: seq<seq<File>>, totals: seq<nat>, placed: seq<File>) {
    && |bins| == |totals| == 2
    && multiset(bins[0]) + multiset(bins[1]) == multiset(placed)
    && totals[0] == Sum(Size, bins[0])
    && totals[1] == Sum(Size, bins[1])
  }

  lemma PlacingHolds(bins: seq<seq<File>>, totals: seq<nat>, placed: seq<File>, device: nat, file: File)
    requires Holds(bins, totals, placed) && device < 2
    ensures Holds(bins[device := bins[device] + [file]], totals[device := totals[device] + file.size],
                  placed + [file])
  {
    hide Sum;
    SumSnoc(Size, bins[device], file);
    SumSnoc(Size, placed, file);
    assert Size(file) == file.size;
    if device == 0 {
    } else {
    }
  }

  lemma TotalsSnoc(placed: seq<File>, file: File)
    ensures var (a, b), (c, d) := Totals(placed), Totals(placed + [file]);
            if a <= b then c == a + file.size && d == b else c == a && d == b + file.size
  {
    assert (placed + [file])[..|placed + [file]| - 1] == placed;
  }

  lemma NothingPlaced()
    ensures Holds([[], []], [0, 0], [])
    ensures Totals([]).0 == 0 && Totals([]).1 == 0
  {
  }

  lemma HoldsInAnyOrder(bins: seq<seq<File>>, totals: seq<nat>, placed: seq<File>, files: seq<File>)
    requires Holds(bins, totals, placed) && multiset(placed) == multiset(files)
    ensures Holds(bins, totals, files)
  {
  }

  /** The loop: each file, largest first, goes to the device with the smaller total, and to
      device 0 on a tie. */
  method Partition(files: seq<File>) returns (bins: seq<seq<File>>, totals: seq<nat>)
    ensures |totals| == 2 && Holds(bins, totals, files)
    ensures totals[0] == Totals(Sort(LargerFirst, files)).0 && totals[1] == Totals(Sort(LargerFirst, files)).1
    ensures forall side :: 6 * Max(totals[0], totals[1]) <= 7 * SplitMax(files, side)
  {
    hide Sum, LargerFirst, SplitMax, Holds, Totals;
    NothingPlaced();
    bins, totals := [[], []], [0, 0];
    var ordered := Sort(LargerFirst, files);
    for i := 0 to |ordered|
      invariant |bins| == |totals| == 2
      invariant Holds(bins, totals, ordered[..i])
      invariant totals[0] == Totals(ordered[..i]).0 && totals[1] == Totals(ordered[..i]).1
    {
      assert ordered[..i + 1] == ordered[..i] + [ordered[i]];
      var device := if totals[0] <= totals[1] then 0 else 1;
      TotalsSnoc(ordered[..i], ordered[i]);
      PlacingHolds(bins, totals, ordered[..i], device, ordered[i]);
      bins := bins[device := bins[device] + [ordered[i]]];
      totals := totals[device := totals[device] + ordered[i].size];
    }
    assert ordered[..|ordered|] == ordered;
    HoldsInAnyOrder(bins, totals, ordered, files);
    BoundInAnyOrder(files);
  }

  /** The constant cannot be lowered: sizes 3, 3, 2, 2, 2 reach 7 where a split reaches 6. */
  lemma BoundIsTight()
    ensures exists p: seq<File>, side: set<string> ::
              Descending(p) && SplitMax(p, side) > 0
              && 6 * Max(Totals(p).0, Totals(p).1) == 7 * SplitMax(p, side)
  {
    var a, b, c, d, e := File("a", 3), File("b", 3), File("c", 2), File("d", 2), File("e", 2);
    var side := {"a", "b"};
    assert |"a"| == 1 && "a"[0] == 'a' && "b"[0] == 'b' && "c"[0] == 'c' && "d"[0] == 'd' && "e"[0] == 'e';
    assert c.name !in side && d.name !in side && e.name !in side;
    var three, four, five := [a, b, c], [a, b, c, d], [a, b, c, d, e];
    assert four[..3] == three && five[..4] == four && three[..2] == [a, b];
    TotalsOfFew(three[..2]);
    assert Totals(three) == (5, 3) by { assert Totals(three[..2]) == (3, 3); }
    assert Totals(four) == (5, 5);
    assert Totals(five) == (7, 5);
    UnrollSum(Share(side), four);
    UnrollSum(OtherShare(side), four);
    assert SplitMax(five, side) == 6;
  }
}
