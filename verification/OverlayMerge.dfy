/** Merging the manifests of separately built layer fragments
    (tools/merge_expert_overlay_fragments.py) against one sequential build. */
module OverlayMerge {
  import opened Sorting
  import opened OverlayBuild

  /** `plan` is the plan and its hashes, `common` the rest of the shared metadata. */
  datatype Fragment = Fragment(plan: string, common: string, layers: seq<nat>, tensors: map<Name, Spec>,
                               tiers: map<Qtype, Tier>, artifactBytes: int)

  /** The authoritative plan: its hash, its layers and the tensors it assigns. */
  datatype Plan = Plan(hash: string, layers: seq<nat>, names: set<Name>)

  datatype Result = Rejected | Merged(tensors: map<Name, Spec>, tiers: map<Qtype, Tier>, artifactBytes: nat)

  /** The payload file exists and is long enough. */
  predicate Extent(sizes: map<File, nat>, spec: Spec) {
    spec.file in sizes && spec.offset >= 0 && spec.bytes > 0 && sizes[spec.file] >= spec.offset + spec.bytes
  }

  ghost predicate InFile(sizes: map<File, nat>, file: File, at: int) {
    file in sizes && 0 <= at < sizes[file]
  }

  /** Each byte of a tensor is a byte of its file, and it has some. */
  lemma ExtentIsInside(sizes: map<File, nat>, spec: Spec)
    ensures Extent(sizes, spec) <==>
              spec.bytes > 0 && forall at | spec.offset <= at < spec.offset + spec.bytes :: InFile(sizes, spec.file, at)
  {
    if spec.bytes > 0 {
      assert spec.offset <= spec.offset + spec.bytes - 1 < spec.offset + spec.bytes;
      if forall at | spec.offset <= at < spec.offset + spec.bytes :: InFile(sizes, spec.file, at) {
        assert InFile(sizes, spec.file, spec.offset) && InFile(sizes, spec.file, spec.offset + spec.bytes - 1);
      }
    }
  }

  function SpecBytes(tensors: map<Name, Spec>): Name -> nat {
    (name: Name) => if name in tensors && tensors[name].bytes > 0 then tensors[name].bytes else 0
  }

  predicate TensorFits(f: Fragment, sizes: map<File, nat>, name: Name)
    requires name in f.tensors
  {
    name.Expert? && name.layer in f.layers && Extent(sizes, f.tensors[name])
  }

  ghost predicate TensorsFit(f: Fragment, sizes: map<File, nat>) {
    forall name | name in f.tensors :: TensorFits(f, sizes, name)
  }

  ghost predicate FragmentFits(f: Fragment, sizes: map<File, nat>) {
    && f.layers != []
    && TensorsFit(f, sizes)
    && f.artifactBytes == Total(SpecBytes(f.tensors), f.tensors.Keys)
  }

  function MergedTensors(fs: seq<Fragment>): map<Name, Spec> {
    if fs == [] then map[] else MergedTensors(fs[..|fs| - 1]) + fs[|fs| - 1].tensors
  }

  function MergedTiers(fs: seq<Fragment>): map<Qtype, Tier> {
    if fs == [] then map[] else Combine(MergedTiers(fs[..|fs| - 1]), fs[|fs| - 1].tiers)
  }

  function LayerSet(layers: seq<nat>): set<nat> {
    set layer | layer in layers
  }

  function Seen(fs: seq<Fragment>): set<nat> {
    if fs == [] then {} else Seen(fs[..|fs| - 1]) + LayerSet(fs[|fs| - 1].layers)
  }

  /** No layer is in two fragments. */
  predicate Apart(fs: seq<Fragment>) {
    fs == [] || (Apart(fs[..|fs| - 1]) && Seen(fs[..|fs| - 1]) * LayerSet(fs[|fs| - 1].layers) == {})
  }

  ghost predicate SameMetadata(fs: seq<Fragment>) {
    forall i | 0 <= i < |fs| :: fs[i].plan == fs[0].plan && fs[i].common == fs[0].common
  }

  /** Everything the merge checks. */
  ghost predicate Acceptable(plan: Plan, fs: seq<Fragment>, sizes: map<File, nat>) {
    && fs != [] && fs[0].plan == plan.hash && SameMetadata(fs)
    && Apart(fs) && (forall i | 0 <= i < |fs| :: FragmentFits(fs[i], sizes))
    && Seen(fs) == LayerSet(plan.layers)
    && MergedTensors(fs).Keys == plan.names
    && Total(SpecBytes(MergedTensors(fs)), MergedTensors(fs).Keys)
       == Total(BytesAt(MergedTiers(fs)), MergedTiers(fs).Keys)
  }

  /** The tensors of one fragment, checked and added one by one. */
  method AddTensors(before: map<Name, Spec>, f: Fragment, sizes: map<File, nat>)
    returns (ok: bool, tensors: map<Name, Spec>)
    ensures ok <==> forall name | name in f.tensors :: TensorFits(f, sizes, name) && name !in before
    ensures ok ==> tensors == before + f.tensors
  {
    hide TensorFits;
    tensors := before;
    var rest := f.tensors.Keys;
    while rest != {}
      invariant rest <= f.tensors.Keys
      invariant forall name | name in f.tensors.Keys - rest :: TensorFits(f, sizes, name) && name !in before
      invariant tensors == before + (f.tensors - rest)
      decreases |rest|
    {
      var name :| name in rest;
      if name in tensors || !TensorFits(f, sizes, name) {
        return false, tensors;
      }
      tensors := tensors[name := f.tensors[name]];
      rest := rest - {name};
    }
    assert f.tensors - rest == f.tensors;
    ok := true;
  }

  lemma CombineMore(before: map<Qtype, Tier>, more: map<Qtype, Tier>, q: Qtype, t: Tier)
    requires q !in more
    ensures var tiers := Combine(before, more);
            Combine(before, more[q := t]) == tiers[q := AddTier(TierAt(tiers, q), t)]
  {
  }

  lemma CombineNone(before: map<Qtype, Tier>)
    ensures Combine(before, map[]) == before
  {
  }

  /** The totals of one fragment, added encoding by encoding. */
  method AddTiers(before: map<Qtype, Tier>, more: map<Qtype, Tier>) returns (tiers: map<Qtype, Tier>)
    ensures tiers == Combine(before, more)
  {
    hide Combine, AddTier, TierAt;
    tiers := before;
    var rest := more.Keys;
    CombineNone(before);
    assert more - rest == map[];
    while rest != {}
      invariant rest <= more.Keys
      invariant tiers == Combine(before, more - rest)
      decreases |rest|
    {
      var q :| q in rest;
      CombineMore(before, more - rest, q, more[q]);
      assert (more - rest)[q := more[q]] == more - (rest - {q});
      tiers := tiers[q := AddTier(TierAt(tiers, q), more[q])];
      rest := rest - {q};
    }
    assert more - rest == more;
  }

  method SumBytes(tensors: map<Name, Spec>) returns (total: int)
    requires forall name | name in tensors :: tensors[name].bytes > 0
    ensures total == Total(SpecBytes(tensors), tensors.Keys)
  {
    total := 0;
    var rest := tensors.Keys;
    while rest != {}
      invariant rest <= tensors.Keys
      invariant total + Total(SpecBytes(tensors), rest) == Total(SpecBytes(tensors), tensors.Keys)
      decreases |rest|
    {
      var name :| name in rest;
      TotalRemove(SpecBytes(tensors), rest, name);
      total := total + tensors[name].bytes;
      rest := rest - {name};
    }
  }

  lemma {:induction false} TensorsLieInSeenLayers(fs: seq<Fragment>, sizes: map<File, nat>)
    requires forall i | 0 <= i < |fs| :: TensorsFit(fs[i], sizes)
    ensures forall name | name in MergedTensors(fs) ::
              name.Expert? && name.layer in Seen(fs) && Extent(sizes, MergedTensors(fs)[name])
  {
    if fs == [] {
    } else {
      TensorsLieInSeenLayers(fs[..|fs| - 1], sizes);
    }
  }

  lemma PrefixStep(fs: seq<Fragment>, i: nat)
    requires i < |fs|
    ensures MergedTensors(fs[..i + 1]) == MergedTensors(fs[..i]) + fs[i].tensors
    ensures MergedTiers(fs[..i + 1]) == Combine(MergedTiers(fs[..i]), fs[i].tiers)
    ensures Seen(fs[..i + 1]) == Seen(fs[..i]) + LayerSet(fs[i].layers)
    ensures Apart(fs[..i + 1]) <==> Apart(fs[..i]) && Seen(fs[..i]) * LayerSet(fs[i].layers) == {}
  {
    hide Combine;
    assert fs[..i + 1][..i] == fs[..i];
  }

  lemma {:induction false} ApartPrefix(fs: seq<Fragment>, i: nat)
    requires i <= |fs| && Apart(fs)
    ensures Apart(fs[..i])
    decreases |fs|
  {
    if i == |fs| {
      assert fs[..i] == fs;
    } else {
      ApartPrefix(fs[..|fs| - 1], i);
      assert fs[..|fs| - 1][..i] == fs[..i];
    }
  }

  /** `merge`: it accepts exactly the acceptable fragments, and unites them. */
  method Merge(plan: Plan, fs: seq<Fragment>, sizes: map<File, nat>) returns (result: Result)
    ensures result.Merged? <==> Acceptable(plan, fs, sizes)
    ensures result.Merged? ==>
              && result.tensors == MergedTensors(fs) && result.tiers == MergedTiers(fs)
              && result.artifactBytes == Total(SpecBytes(result.tensors), result.tensors.Keys)
  {
    hide MergedTensors, MergedTiers, Seen, Apart, Combine, TensorsFit, TensorFits, Total, SpecBytes, LayerSet;
    if fs == [] || fs[0].plan != plan.hash {
      return Rejected;
    }
    var seen: set<nat>, tensors: map<Name, Spec>, tiers: map<Qtype, Tier> := {}, map[], map[];
    NothingMerged();
    assert fs[..0] == [];
    for i := 0 to |fs|
      invariant seen == Seen(fs[..i]) && tensors == MergedTensors(fs[..i]) && tiers == MergedTiers(fs[..i])
      invariant Apart(fs[..i])
      invariant forall j | 0 <= j < i ::
                  FragmentFits(fs[j], sizes) && fs[j].plan == fs[0].plan && fs[j].common == fs[0].common
    {
      var f := fs[i];
      PrefixStep(fs, i);
      TensorsLieInSeenLayers(fs[..i], sizes);
      if f.plan != fs[0].plan || f.common != fs[0].common {
        return Rejected;
      }
      if f.layers == [] {
        return Rejected;
      }
      if seen * LayerSet(f.layers) != {} {
        NotApart(fs, i);
        return Rejected;
      }
      seen := seen + LayerSet(f.layers);
      NewNames(tensors, Seen(fs[..i]), f, sizes);
      var ok;
      ok, tensors := AddTensors(tensors, f, sizes);
      if !ok {
        return Rejected;
      }
      PositiveBytes(f, sizes);
      tiers := AddTiers(tiers, f.tiers);
      var total := SumBytes(f.tensors);
      if f.artifactBytes != total {
        return Rejected;
      }
    }
    assert fs[..|fs|] == fs;
    if seen != LayerSet(plan.layers) || tensors.Keys != plan.names {
      return Rejected;
    }
    TensorsLieInSeenLayers(fs, sizes);
    var artifact := SumBytes(tensors);
    var total := TierBytes(tiers);
    if artifact != total {
      return Rejected;
    }
    result := Merged(tensors, tiers, artifact);
  }

  lemma NothingMerged()
    ensures MergedTensors([]) == map[] && MergedTiers([]) == map[] && Seen([]) == {} && Apart([])
  {
  }

  lemma NotApart(fs: seq<Fragment>, i: nat)
    requires i < |fs| && !Apart(fs[..i + 1])
    ensures !Apart(fs)
  {
    if Apart(fs) {
      ApartPrefix(fs, i + 1);
    }
  }

  /** Tensors of earlier fragments lie in other layers, so a fragment that fits brings new names. */
  lemma NewNames(tensors: map<Name, Spec>, seen: set<nat>, f: Fragment, sizes: map<File, nat>)
    requires seen * LayerSet(f.layers) == {}
    requires forall name | name in tensors :: name.Expert? && name.layer in seen
    ensures TensorsFit(f, sizes) <==> forall name | name in f.tensors :: TensorFits(f, sizes, name) && name !in tensors
  {
    forall layer | layer in f.layers ensures layer !in seen {
      assert layer in seen * LayerSet(f.layers) <==> layer in seen;
    }
  }

  lemma PositiveBytes(f: Fragment, sizes: map<File, nat>)
    requires TensorsFit(f, sizes)
    ensures forall name | name in f.tensors :: f.tensors[name].bytes > 0
  {
  }

  // ----- any split of the layers, merged in any order -----

  lemma ListingSnoc(s: Setup, layers: seq<nat>, layer: nat)
    ensures Listing(s, layers + [layer]) == Listing(s, layers) + LayerListing(s, layer)
  {
    hide LayerListing;
    assert (layers + [layer])[..|layers|] == layers;
  }

  lemma {:induction false} ListingConcat(s: Setup, a: seq<nat>, b: seq<nat>)
    ensures Listing(s, a + b) == Listing(s, a) + Listing(s, b)
  {
    hide Listing, LayerListing;
    if b == [] {
      assert a + b == a;
      NothingListed(s);
    } else {
      var n := |b| - 1;
      ListingConcat(s, a, b[..n]);
      ListingSnoc(s, b[..n], b[n]);
      ListingSnoc(s, a + b[..n], b[n]);
      assert b == b[..n] + [b[n]] && a + b == a + b[..n] + [b[n]];
      assert Listing(s, a) + (Listing(s, b[..n]) + LayerListing(s, b[n]))
          == Listing(s, a) + Listing(s, b[..n]) + LayerListing(s, b[n]);
    }
  }

  lemma {:induction false} ListingHolds(s: Setup, layers: seq<nat>, id: Id)
    ensures id in Listing(s, layers)
            <==> id.layer in layers && id.expert < s.expertCount && !Pruned(s, id.layer, id.expert)
  {
    if layers == [] {
    } else {
      hide Active;
      var n := |layers| - 1;
      ListingHolds(s, layers[..n], id);
      assert layers == layers[..n] + [layers[n]];
      LayerHolds(s, layers[n], id);
    }
  }

  lemma LayerHolds(s: Setup, layer: nat, id: Id)
    ensures id in LayerListing(s, layer)
            <==> id.layer == layer && id.expert < s.expertCount && !Pruned(s, layer, id.expert)
  {
    hide Active;
    ActiveHolds(s, File(layer, Gate), s.expertCount, id);
    ActiveHolds(s, File(layer, Up), s.expertCount, id);
    ActiveHolds(s, File(layer, Down), s.expertCount, id);
    match id.projection
    case Gate =>
    case Up =>
    case Down =>
  }

  function LayerSum(s: Setup, f: Id -> nat): nat -> nat {
    (layer: nat) => Sum(f, LayerListing(s, layer))
  }

  lemma {:induction false} SumByLayer(s: Setup, f: Id -> nat, layers: seq<nat>)
    ensures Sum(f, Listing(s, layers)) == Sum(LayerSum(s, f), layers)
  {
    if layers == [] {
    } else {
      hide LayerListing;
      var n := |layers| - 1;
      SumByLayer(s, f, layers[..n]);
      SumConcat(f, Listing(s, layers[..n]), LayerListing(s, layers[n]));
    }
  }

  lemma SumAnyOrder(s: Setup, f: Id -> nat, a: seq<nat>, b: seq<nat>)
    requires multiset(a) == multiset(b)
    ensures Sum(f, Listing(s, a)) == Sum(f, Listing(s, b))
  {
    SumByLayer(s, f, a);
    SumByLayer(s, f, b);
    SumPermutation(LayerSum(s, f), a, b);
  }

  lemma SameIds(s: Setup, a: seq<nat>, b: seq<nat>, id: Id)
    requires forall layer :: layer in a <==> layer in b
    ensures id in Listing(s, a) <==> id in Listing(s, b)
  {
    hide Listing;
    ListingHolds(s, a, id);
    ListingHolds(s, b, id);
  }

  /** Records, totals and files do not depend on the order of the layers. */
  lemma AnyOrder(s: Setup, a: seq<nat>, b: seq<nat>)
    requires multiset(a) == multiset(b)
    ensures Tensors(s, Listing(s, a)) == Tensors(s, Listing(s, b))
    ensures Tiers(s, Listing(s, a)) == Tiers(s, Listing(s, b))
    ensures Files(s, a) == Files(s, b)
  {
    hide Listing, SpecOf, Sum, QtypeOf, Files, Payload;
    SameElements(a, b);
    forall id: Id ensures id in Listing(s, a) <==> id in Listing(s, b) {
      SameIds(s, a, b, id);
    }
    assert Qtypes(s, Listing(s, a)) == Qtypes(s, Listing(s, b));
    forall q: Qtype ensures TierOf(s, Listing(s, a), q) == TierOf(s, Listing(s, b), q) {
      SumAnyOrder(s, ExpertsIn(s, q), a, b);
      SumAnyOrder(s, ProjectionsIn(s, q), a, b);
      SumAnyOrder(s, BytesIn(s, q), a, b);
    }
    forall file: File
      ensures file in Files(s, a) <==> file in Files(s, b)
      ensures file in Files(s, a) ==> Files(s, a)[file] == Files(s, b)[file]
    {
      FilesHold(s, a, file);
      FilesHold(s, b, file);
    }
  }

  function Flat(groups: seq<seq<nat>>): seq<nat> {
    if groups == [] then [] else Flat(groups[..|groups| - 1]) + groups[|groups| - 1]
  }

  /** What `prepare` writes for a subset of the layers. */
  function FragmentOf(s: Setup, plan: string, common: string, layers: seq<nat>): Fragment {
    var ids := Listing(s, layers);
    Fragment(plan, common, layers, Tensors(s, ids), Tiers(s, ids), Sum(SizeIn(s), ids))
  }

  function FragmentsOf(s: Setup, plan: string, common: string, groups: seq<seq<nat>>): seq<Fragment> {
    seq(|groups|, i requires 0 <= i < |groups| => FragmentOf(s, plan, common, groups[i]))
  }

  lemma TensorsConcat(s: Setup, a: seq<Id>, b: seq<Id>)
    ensures Tensors(s, a + b) == Tensors(s, a) + Tensors(s, b)
  {
    hide SpecOf;
  }

  lemma {:induction false} MergedIsFlat(s: Setup, plan: string, common: string, groups: seq<seq<nat>>)
    ensures var fs, ids := FragmentsOf(s, plan, common, groups), Listing(s, Flat(groups));
            MergedTensors(fs) == Tensors(s, ids) && MergedTiers(fs) == Tiers(s, ids)
            && Seen(fs) == LayerSet(Flat(groups))
  {
    hide Tensors, Tiers, Combine, Sum, Listing;
    var fs := FragmentsOf(s, plan, common, groups);
    if groups == [] {
      NothingListed(s);
    } else {
      var n := |groups| - 1;
      assert fs[..n] == FragmentsOf(s, plan, common, groups[..n]);
      MergedIsFlat(s, plan, common, groups[..n]);
      var before := Flat(groups[..n]);
      ListingConcat(s, before, groups[n]);
      TensorsConcat(s, Listing(s, before), Listing(s, groups[n]));
      TiersConcat(s, Listing(s, before), Listing(s, groups[n]));
    }
  }

  lemma NothingListed(s: Setup)
    ensures Listing(s, []) == [] && Tensors(s, []) == map[] && Tiers(s, []) == map[]
  {
  }

  lemma {:induction false} FlatIsApart(s: Setup, plan: string, common: string, groups: seq<seq<nat>>)
    requires Distinct(Flat(groups))
    ensures Apart(FragmentsOf(s, plan, common, groups))
  {
    hide Tensors, Tiers, Sum, Listing, MergedTensors, MergedTiers;
    var fs := FragmentsOf(s, plan, common, groups);
    if groups != [] {
      var n := |groups| - 1;
      var before := Flat(groups[..n]);
      assert fs[..n] == FragmentsOf(s, plan, common, groups[..n]);
      forall i, j | 0 <= i < j < |before| ensures before[i] != before[j] {
        assert Flat(groups)[i] == before[i] && Flat(groups)[j] == before[j];
      }
      FlatIsApart(s, plan, common, groups[..n]);
      MergedIsFlat(s, plan, common, groups[..n]);
      forall i, j | 0 <= i < |before| && 0 <= j < |groups[n]| ensures before[i] != groups[n][j] {
        assert Flat(groups)[i] == before[i] && Flat(groups)[|before| + j] == groups[n][j];
      }
    }
  }

  lemma {:induction false} ListingIsDistinct(s: Setup, layers: seq<nat>)
    requires Distinct(layers)
    ensures Distinct(Listing(s, layers))
  {
    if layers == [] {
    } else {
      hide Active, LayerListing;
      var n := |layers| - 1;
      var a, b := Listing(s, layers[..n]), LayerListing(s, layers[n]);
      ListingIsDistinct(s, layers[..n]);
      LayerIsDistinct(s, layers[n]);
      forall i, j | 0 <= i < |a| && 0 <= j < |b| ensures a[i] != b[j] {
        ListingHolds(s, layers[..n], a[i]);
        LayerHolds(s, layers[n], b[j]);
      }
    }
  }

  lemma LayerIsDistinct(s: Setup, layer: nat)
    ensures Distinct(LayerListing(s, layer))
  {
    hide Active;
    var g, u, d := File(layer, Gate), File(layer, Up), File(layer, Down);
    ActiveIsDistinct(s, g, s.expertCount);
    ActiveIsDistinct(s, u, s.expertCount);
    ActiveIsDistinct(s, d, s.expertCount);
    forall i | 0 <= i < |Experts(s, g)| ensures Experts(s, g)[i].projection == Gate {
      ActivePrefix(s, g, s.expertCount, i);
    }
    forall i | 0 <= i < |Experts(s, u)| ensures Experts(s, u)[i].projection == Up {
      ActivePrefix(s, u, s.expertCount, i);
    }
    forall i | 0 <= i < |Experts(s, d)| ensures Experts(s, d)[i].projection == Down {
      ActivePrefix(s, d, s.expertCount, i);
    }
  }

  /** Byte totals of prepared records, over names. */
  function NameSize(s: Setup): Name -> nat {
    (name: Name) => if name.Expert? then Size(s, name) else 0
  }

  lemma {:induction false} SizesByName(s: Setup, ids: seq<Id>)
    ensures var names: seq<Name> := ids; Sum(SizeIn(s), ids) == Sum(NameSize(s), names)
  {
    if ids == [] {
    } else {
      hide Size;
      SizesByName(s, ids[..|ids| - 1]);
    }
  }

  /** The tensors' byte total is that of the listing, each tensor counted once. */
  lemma RecordedBytes(s: Setup, ids: seq<Id>)
    requires Distinct(ids)
    ensures var t := Tensors(s, ids); Total(SpecBytes(t), t.Keys) == Sum(SizeIn(s), ids)
  {
    hide Size, Sum, RowBytes, Active;
    var names: seq<Name> := ids;
    var t := Tensors(s, ids);
    assert t.Keys == Members(names);
    TotalOfList(NameSize(s), names);
    SizesByName(s, ids);
    forall name | name in t.Keys ensures SpecBytes(t)(name) == NameSize(s)(name) {
      var id: Id := name;
      assert t[id] == SpecOf(s, id);
    }
    SameTerms(SpecBytes(t), NameSize(s), t.Keys);
  }

  /** A source all of whose files can be written, none of whose tensors is empty. */
  ghost predicate Buildable(s: Setup, layers: seq<nat>) {
    && (forall layer | layer in layers :: LayerWritable(s, layer))
    && (forall id: Id | id in Listing(s, layers) :: Size(s, id) > 0)
  }

  ghost predicate OnDisk(s: Setup, layers: seq<nat>, sizes: map<File, nat>) {
    forall file: File | file.layer in layers :: file in sizes && sizes[file] == |Payload(s, file)|
  }

  lemma RecordFits(s: Setup, layers: seq<nat>, sizes: map<File, nat>, id: Id)
    requires Buildable(s, layers) && OnDisk(s, layers, sizes) && id in Listing(s, layers)
    ensures id.layer in layers && Extent(sizes, SpecOf(s, id))
  {
    hide Listing, Size, RowBytes, Active, Payload, Sum;
    var file := FileOf(id);
    ListingHolds(s, layers, id);
    ActiveHolds(s, file, s.expertCount, id);
    var k :| 0 <= k < |Experts(s, file)| && Experts(s, file)[k] == id;
    match id.projection
    case Gate => RecordsTileTheFile(s, file, k);
    case Up => RecordsTileTheFile(s, file, k);
    case Down => RecordsTileTheFile(s, file, k);
  }

  lemma FragmentIsFit(s: Setup, plan: string, common: string, group: seq<nat>, sizes: map<File, nat>)
    requires group != [] && Distinct(group) && Buildable(s, group) && OnDisk(s, group, sizes)
    ensures FragmentFits(FragmentOf(s, plan, common, group), sizes)
  {
    hide Listing, SpecOf, Extent, Buildable, OnDisk, Total, Sum, SizeIn, SpecBytes, Tiers;
    var ids := Listing(s, group);
    ListingIsDistinct(s, group);
    RecordedBytes(s, ids);
    forall id | id in ids ensures id.layer in group && Extent(sizes, SpecOf(s, id)) {
      RecordFits(s, group, sizes, id);
    }
  }

  lemma {:induction false} GroupInFlat(groups: seq<seq<nat>>, i: nat)
    requires i < |groups|
    ensures forall layer | layer in groups[i] :: layer in Flat(groups)
    ensures Distinct(Flat(groups)) ==> Distinct(groups[i])
    decreases |groups|
  {
    var n := |groups| - 1;
    var before := Flat(groups[..n]);
    if i < n {
      GroupInFlat(groups[..n], i);
      if Distinct(Flat(groups)) {
        forall a, b | 0 <= a < b < |before| ensures before[a] != before[b] {
          assert Flat(groups)[a] == before[a] && Flat(groups)[b] == before[b];
        }
      }
    } else if Distinct(Flat(groups)) {
      forall a, b | 0 <= a < b < |groups[i]| ensures groups[i][a] != groups[i][b] {
        assert Flat(groups)[|before| + a] == groups[i][a] && Flat(groups)[|before| + b] == groups[i][b];
      }
    }
  }

  /** The plan whose layers are prepared, and what its tensors are. */
  ghost predicate PlanOf(s: Setup, layers: seq<nat>, plan: Plan) {
    plan.layers == layers && plan.names == Tensors(s, Listing(s, layers)).Keys
  }

  /** Layers built as disjoint fragments, however they are split and in whatever order they are merged,
      are accepted and give the tensors, tier totals, byte total and payloads of one sequential build. */
  lemma AnySplitMergesToTheSequentialBuild(s: Setup, plan: Plan, common: string, layers: seq<nat>,
                                           groups: seq<seq<nat>>, sizes: map<File, nat>)
    requires PlanOf(s, layers, plan) && layers != [] && Distinct(layers)
    requires multiset(Flat(groups)) == multiset(layers) && forall i | 0 <= i < |groups| :: groups[i] != []
    requires Buildable(s, layers) && OnDisk(s, layers, sizes)
    ensures var fs, ids := FragmentsOf(s, plan.hash, common, groups), Listing(s, layers);
            && Acceptable(plan, fs, sizes)
            && MergedTensors(fs) == Tensors(s, ids) && MergedTiers(fs) == Tiers(s, ids)
            && Total(SpecBytes(MergedTensors(fs)), MergedTensors(fs).Keys) == Sum(SizeIn(s), ids)
            && Files(s, Flat(groups)) == Files(s, layers)
  {
    hide Listing, Tensors, Tiers, Files, Total, Sum, SpecBytes, SizeIn, MergedTensors, MergedTiers, Seen, Apart,
         FragmentFits, Buildable, OnDisk, Flat, BytesAt;
    var fs, ids := FragmentsOf(s, plan.hash, common, groups), Listing(s, layers);
    SameElements(layers, Flat(groups));
    AnyOrder(s, Flat(groups), layers);
    MergedIsFlat(s, plan.hash, common, groups);
    FlatIsApart(s, plan.hash, common, groups);
    forall i | 0 <= i < |groups| ensures FragmentFits(fs[i], sizes) {
      GroupInFlat(groups, i);
      PartIsBuildable(s, layers, groups[i], sizes);
      FragmentIsFit(s, plan.hash, common, groups[i], sizes);
    }
    ListingIsDistinct(s, layers);
    RecordedBytes(s, ids);
    TiersCount(s, ids);
    if groups == [] {
      NothingFlat();
    }
    assert LayerSet(Flat(groups)) == LayerSet(layers);
  }

  lemma NothingFlat()
    ensures Flat([]) == []
  {
  }

  lemma PartIsBuildable(s: Setup, layers: seq<nat>, part: seq<nat>, sizes: map<File, nat>)
    requires Buildable(s, layers) && OnDisk(s, layers, sizes) && forall layer | layer in part :: layer in layers
    ensures Buildable(s, part) && OnDisk(s, part, sizes)
  {
    hide Listing, Size, LayerWritable, Payload;
    forall id: Id | id in Listing(s, part) ensures id in Listing(s, layers) {
      ListingHolds(s, part, id);
      ListingHolds(s, layers, id);
    }
  }

  lemma {:induction false} RepeatsCountTwice(f: nat -> nat, xs: seq<nat>, ys: seq<nat>)
    requires Distinct(ys) && forall x :: x in xs <==> x in ys
    requires forall x | x in xs :: f(x) > 0
    ensures Sum(f, xs) >= Sum(f, ys)
    ensures Sum(f, xs) == Sum(f, ys) <==> Distinct(xs)
    decreases |xs|
  {
    if Distinct(xs) {
      assert Members(xs) == Members(ys);
      TotalOfList(f, xs);
      TotalOfList(f, ys);
    } else {
      hide Sum;
      var i, j :| 0 <= i < j < |xs| && xs[i] == xs[j];
      SumRemove(f, xs, j);
      DropRepeat(xs, i, j);
      RepeatsCountTwice(f, xs[..j] + xs[j + 1..], ys);
    }
  }

  lemma DropRepeat(xs: seq<nat>, i: nat, j: nat)
    requires i < j < |xs| && xs[i] == xs[j]
    ensures forall x :: x in xs[..j] + xs[j + 1..] <==> x in xs
  {
    var rest := xs[..j] + xs[j + 1..];
    assert rest[i] == xs[i];
    forall x | x in xs ensures x in rest {
      var k :| 0 <= k < |xs| && xs[k] == x;
      if k != j {
        assert rest[if k < j then k else k - 1] == x;
      }
    }
  }

  /** A plan may name a layer twice. Its tensors are then built once more and counted again in the
      sequential totals, which fragments, being disjoint, never do: the totals agree exactly when
      the plan's layers are distinct. */
  lemma TotalsAgreeIffLayersAreDistinct(s: Setup, layers: seq<nat>, groups: seq<seq<nat>>)
    requires Distinct(Flat(groups)) && forall layer :: layer in layers <==> layer in Flat(groups)
    requires forall layer | layer in layers :: Sum(SizeIn(s), LayerListing(s, layer)) > 0
    ensures Sum(SizeIn(s), Listing(s, layers)) == Sum(SizeIn(s), Listing(s, Flat(groups))) <==> Distinct(layers)
  {
    hide Listing, LayerListing, Sum, SizeIn;
    SumByLayer(s, SizeIn(s), layers);
    SumByLayer(s, SizeIn(s), Flat(groups));
    RepeatsCountTwice(LayerSum(s, SizeIn(s)), layers, Flat(groups));
  }
}
