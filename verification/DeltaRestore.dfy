/** Restoring donor experts to a pruned base plan within a byte target
    (tools/build_hy3_delta_restore_plan.py). */
module DeltaRestore {
  import opened Options
  import opened Sorting

  datatype Projection = Gate | Up | Down

  /** An encoding, numbered in name order. */
  type Qtype = nat

  const Q2_K: Qtype := 3

  datatype Id = Id(layer: nat, expert: nat)

  datatype Slot = Slot(id: Id, projection: Projection)

  datatype Group = Group(layer: nat, projections: seq<Projection>, qtype: Qtype, experts: seq<nat>)

  datatype Plan = Plan(layers: seq<nat>, expertCount: nat, groups: seq<Group>, pruned: set<Id>,
                       resultBytes: int, maxQ2: map<nat, int>)

  // ----- state_map -----

  ghost predicate Covers(g: Group, slot: Slot) {
    slot.id.layer == g.layer && slot.projection in g.projections && slot.id.expert in g.experts
  }

  /** No slot is listed twice, inside a group or across groups. */
  ghost predicate NoOverlap(groups: seq<Group>) {
    && (forall i | 0 <= i < |groups| ::
          groups[i].projections != [] && groups[i].experts != [] ==>
            Distinct(groups[i].projections) && Distinct(groups[i].experts))
    && (forall i, j, slot | 0 <= i < j < |groups| :: !(Covers(groups[i], slot) && Covers(groups[j], slot)))
  }

  /** `states` lists exactly what the groups list. */
  ghost predicate StatesOf(groups: seq<Group>, states: map<Slot, Qtype>) {
    && (forall slot | slot in states ::
          exists i | 0 <= i < |groups| :: Covers(groups[i], slot) && groups[i].qtype == states[slot])
    && (forall slot, i | 0 <= i < |groups| && Covers(groups[i], slot) ::
          slot in states && states[slot] == groups[i].qtype)
  }

  datatype States = Duplicate | States(table: map<Slot, Qtype>)

  /** The slots a group has added after `p` whole projections and `e` experts of the next. */
  ghost predicate Added(g: Group, p: nat, e: nat, slot: Slot)
    requires p <= |g.projections| && e <= |g.experts|
  {
    && slot.id.layer == g.layer
    && (|| (slot.projection in g.projections[..p] && slot.id.expert in g.experts)
        || (p < |g.projections| && slot.projection == g.projections[p] && slot.id.expert in g.experts[..e]))
  }

  /** One group's slots, added one by one; it stops at the first slot already present. */
  method AddGroup(before: map<Slot, Qtype>, g: Group) returns (result: States)
    ensures result.States? ==> Extends(before, g, result.table)
    ensures result.States? && g.projections != [] && g.experts != [] ==> Distinct(g.projections) && Distinct(g.experts)
    ensures result == Duplicate ==> g.projections != [] && g.experts != []
    ensures result == Duplicate ==>
              (exists slot :: slot in before && Covers(g, slot))
              || !Distinct(g.projections) || !Distinct(g.experts)
  {
    var states := before;
    for p := 0 to |g.projections|
      invariant forall slot :: slot in states <==> slot in before || Added(g, p, 0, slot)
      invariant forall slot | slot in states :: states[slot] == if Added(g, p, 0, slot) then g.qtype else before[slot]
      invariant forall slot | Added(g, p, 0, slot) :: slot !in before
      invariant g.experts != [] ==> Distinct(g.projections[..p])
      invariant p > 0 ==> Distinct(g.experts)
    {
      for e := 0 to |g.experts|
        invariant forall slot :: slot in states <==> slot in before || Added(g, p, e, slot)
        invariant forall slot | slot in states :: states[slot] == if Added(g, p, e, slot) then g.qtype else before[slot]
        invariant forall slot | Added(g, p, e, slot) :: slot !in before
        invariant Distinct(g.experts[..e])
        invariant e > 0 ==> g.projections[p] !in g.projections[..p]
      {
        var slot := Slot(Id(g.layer, g.experts[e]), g.projections[p]);
        if slot in states {
          assert Covers(g, slot);
          DuplicateSlot(g, p, e);
          return Duplicate;
        }
        assert !Added(g, p, e, slot);
        states := states[slot := g.qtype];
        AddedStep(g, p, e);
      }
      NextProjection(g, p);
    }
    result := States(states);
  }

  lemma DuplicateSlot(g: Group, p: nat, e: nat)
    requires p < |g.projections| && e < |g.experts|
    ensures Added(g, p, e, Slot(Id(g.layer, g.experts[e]), g.projections[p])) ==>
              !Distinct(g.projections) || !Distinct(g.experts)
  {
  }

  lemma AddedStep(g: Group, p: nat, e: nat)
    requires p < |g.projections| && e < |g.experts|
    ensures forall slot :: Added(g, p, e + 1, slot) <==>
                             Added(g, p, e, slot) || slot == Slot(Id(g.layer, g.experts[e]), g.projections[p])
  {
    TakeOneMore(g.experts, e);
  }

  lemma NextProjection(g: Group, p: nat)
    requires p < |g.projections|
    ensures forall slot :: Added(g, p + 1, 0, slot) <==> Added(g, p, |g.experts|, slot)
  {
    TakeOneMore(g.projections, p);
    assert g.experts[..|g.experts|] == g.experts;
  }

  /** `state_map`: refuses exactly the plans that list a slot twice. */
  method StateMap(groups: seq<Group>) returns (result: States)
    ensures result.States? <==> NoOverlap(groups)
    ensures result.States? ==> StatesOf(groups, result.table)
  {
    var states: map<Slot, Qtype> := map[];
    for i := 0 to |groups|
      invariant NoOverlap(groups[..i])
      invariant StatesOf(groups[..i], states)
    {
      var next := AddGroup(states, groups[i]);
      if next.Duplicate? {
        OverlapFound(groups, i, states);
        return Duplicate;
      }
      OneMoreGroup(groups, i, states, next.table);
      states := next.table;
    }
    assert groups[..|groups|] == groups;
    result := States(states);
  }

  lemma OverlapFound(groups: seq<Group>, i: nat, states: map<Slot, Qtype>)
    requires i < |groups| && StatesOf(groups[..i], states)
    requires (exists slot :: slot in states && Covers(groups[i], slot))
             || !Distinct(groups[i].projections) || !Distinct(groups[i].experts)
    requires groups[i].projections != [] && groups[i].experts != []
    ensures !NoOverlap(groups)
  {
    if exists slot :: slot in states && Covers(groups[i], slot) {
      var slot :| slot in states && Covers(groups[i], slot);
      var k :| 0 <= k < i && Covers(groups[..i][k], slot);
      assert Covers(groups[k], slot);
    }
  }

  /** `next` is `states` with the slots of `g`, none of which it had. */
  ghost predicate Extends(states: map<Slot, Qtype>, g: Group, next: map<Slot, Qtype>) {
    && (forall slot :: slot in next <==> slot in states || Covers(g, slot))
    && (forall slot | slot in next :: next[slot] == if Covers(g, slot) then g.qtype else states[slot])
    && (forall slot | Covers(g, slot) :: slot !in states)
  }

  lemma OneMoreGroup(groups: seq<Group>, i: nat, states: map<Slot, Qtype>, next: map<Slot, Qtype>)
    requires i < |groups| && NoOverlap(groups[..i]) && StatesOf(groups[..i], states)
    requires Extends(states, groups[i], next)
    requires groups[i].projections != [] && groups[i].experts != [] ==>
               Distinct(groups[i].projections) && Distinct(groups[i].experts)
    ensures NoOverlap(groups[..i + 1]) && StatesOf(groups[..i + 1], next)
  {
    var before, g := groups[..i], groups[i];
    assert groups[..i + 1] == before + [g];
    OneMoreDisjoint(before, g, states);
    OneMoreListed(before, g, states, next);
  }

  lemma OneMoreDisjoint(before: seq<Group>, g: Group, states: map<Slot, Qtype>)
    requires NoOverlap(before) && StatesOf(before, states)
    requires forall slot | Covers(g, slot) :: slot !in states
    requires g.projections != [] && g.experts != [] ==> Distinct(g.projections) && Distinct(g.experts)
    ensures NoOverlap(before + [g])
  {
    hide Covers;
    var after := before + [g];
    forall a, b, slot | 0 <= a < b < |after| ensures !(Covers(after[a], slot) && Covers(after[b], slot)) {
      assert after[a] == before[a];
      if b == |before| && Covers(before[a], slot) {
        assert slot in states;
      }
    }
    forall k | 0 <= k < |after|
      ensures after[k].projections != [] && after[k].experts != [] ==>
                Distinct(after[k].projections) && Distinct(after[k].experts)
    {
      if k < |before| {
        assert after[k] == before[k];
      }
    }
  }

  lemma OneMoreListed(before: seq<Group>, g: Group, states: map<Slot, Qtype>, next: map<Slot, Qtype>)
    requires StatesOf(before, states) && Extends(states, g, next)
    ensures StatesOf(before + [g], next)
  {
    hide Covers;
    var after := before + [g];
    forall slot | slot in next
      ensures exists k | 0 <= k < |after| :: Covers(after[k], slot) && after[k].qtype == next[slot]
    {
      if Covers(g, slot) {
        assert after[|before|] == g;
      } else {
        var k :| 0 <= k < |before| && Covers(before[k], slot) && before[k].qtype == states[slot];
        assert after[k] == before[k];
      }
    }
    forall slot, k | 0 <= k < |after| && Covers(after[k], slot) ensures slot in next && next[slot] == after[k].qtype {
      if k < |before| {
        assert Covers(before[k], slot);
      }
    }
  }

  /** A list of groups stands for one state map only. */
  lemma StatesAreUnique(groups: seq<Group>, a: map<Slot, Qtype>, b: map<Slot, Qtype>)
    requires StatesOf(groups, a) && StatesOf(groups, b)
    ensures a == b
  {
    forall slot | slot in a ensures slot in b && a[slot] == b[slot] {
      var i :| 0 <= i < |groups| && Covers(groups[i], slot) && groups[i].qtype == a[slot];
    }
    forall slot | slot in b ensures slot in a {
      var i :| 0 <= i < |groups| && Covers(groups[i], slot) && groups[i].qtype == b[slot];
    }
  }

  // ----- group_assignments -----

  datatype Key = Key(layer: nat, projection: Projection, qtype: Qtype)

  function Rank(p: Projection): nat {
    match p case Gate => 0 case Up => 1 case Down => 2
  }

  predicate KeyLe(a: Key, b: Key) {
    || a.layer < b.layer
    || (a.layer == b.layer && (|| Rank(a.projection) < Rank(b.projection)
                               || (a.projection == b.projection && a.qtype <= b.qtype)))
  }

  function KeyOf(slot: Slot, qtype: Qtype): Key {
    Key(slot.id.layer, slot.projection, qtype)
  }

  /** The experts collected under each key from the slots in `seen`. */
  ghost predicate Collected(states: map<Slot, Qtype>, seen: set<Slot>, table: map<Key, seq<nat>>) {
    && (forall slot | slot in seen && slot in states ::
          KeyOf(slot, states[slot]) in table && slot.id.expert in table[KeyOf(slot, states[slot])])
    && (forall key, x | key in table && x in table[key] ::
          var slot := Slot(Id(key.layer, x), key.projection);
          slot in seen && slot in states && states[slot] == key.qtype)
    && (forall key | key in table :: table[key] != [] && Distinct(table[key]))
  }

  predicate Ascending(xs: seq<nat>) {
    forall i, j | 0 <= i < j < |xs| :: xs[i] < xs[j]
  }

  ghost predicate Precedes(a: Key, b: Key) {
    || a.layer < b.layer
    || (a.layer == b.layer && a.projection.Gate? && !b.projection.Gate?)
    || (a.layer == b.layer && a.projection.Up? && b.projection.Down?)
    || (a.layer == b.layer && a.projection == b.projection && a.qtype < b.qtype)
  }

  /** By layer, then gate before up before down, then by the name of the encoding. */
  ghost predicate GroupsInOrder(groups: seq<Group>) {
    && (forall i | 0 <= i < |groups| ::
          |groups[i].projections| == 1 && groups[i].experts != [] && Ascending(groups[i].experts))
    && (forall i, j | 0 <= i < j < |groups| ::
          Precedes(GroupKey(groups[i]), GroupKey(groups[j])))
  }

  function GroupKey(g: Group): Key
    requires |g.projections| == 1
  {
    Key(g.layer, g.projections[0], g.qtype)
  }

  method Collect(states: map<Slot, Qtype>) returns (table: map<Key, seq<nat>>)
    ensures Collected(states, states.Keys, table)
  {
    table := map[];
    var rest := states.Keys;
    while rest != {}
      invariant rest <= states.Keys && Collected(states, states.Keys - rest, table)
      decreases |rest|
    {
      var slot :| slot in rest;
      var key := KeyOf(slot, states[slot]);
      var before := if key in table then table[key] else [];
      if key in table {
        assert slot.id.expert !in table[key] by {
          assert Slot(Id(key.layer, slot.id.expert), key.projection) == slot;
        }
      }
      var next := table[key := before + [slot.id.expert]];
      CollectOne(states, states.Keys - rest, table, slot, next);
      rest := rest - {slot};
      assert states.Keys - rest == (states.Keys - (rest + {slot})) + {slot};
      table := next;
    }
    assert states.Keys - rest == states.Keys;
  }

  lemma CollectOne(states: map<Slot, Qtype>, seen: set<Slot>, table: map<Key, seq<nat>>, slot: Slot,
                   next: map<Key, seq<nat>>)
    requires Collected(states, seen, table) && slot in states && slot !in seen
    requires var key := KeyOf(slot, states[slot]);
             next == table[key := (if key in table then table[key] else []) + [slot.id.expert]]
    ensures Collected(states, seen + {slot}, next)
  {
    var key := KeyOf(slot, states[slot]);
    var before := if key in table then table[key] else [];
    assert slot.id.expert !in before by {
      assert slot == Slot(Id(key.layer, slot.id.expert), key.projection);
    }
    forall k, x | k in next && x in next[k]
      ensures var s := Slot(Id(k.layer, x), k.projection);
              s in seen + {slot} && s in states && states[s] == k.qtype
    {
      if k == key && x == slot.id.expert {
      } else {
        assert k in table && x in table[k];
      }
    }
    forall s | s in seen + {slot} && s in states
      ensures KeyOf(s, states[s]) in next && s.id.expert in next[KeyOf(s, states[s])]
    {
    }
  }

  predicate NatLe(a: nat, b: nat) {
    a <= b
  }

  lemma SortedDistinct(xs: seq<nat>)
    requires Distinct(xs)
    ensures Ascending(Sort(NatLe, xs)) && forall x :: x in Sort(NatLe, xs) <==> x in xs
  {
    var ys := Sort(NatLe, xs);
    SortIsSorted(NatLe, xs);
    SameElements(xs, ys);
  }

  /** `group_assignments`: one group per layer, projection and encoding, in order; expanding the
      groups again gives back exactly the states. */
  method GroupAssignments(states: map<Slot, Qtype>) returns (groups: seq<Group>)
    ensures GroupsInOrder(groups)
    ensures NoOverlap(groups) && StatesOf(groups, states)
  {
    hide Collected, Matches, NoOverlap, StatesOf, GroupsInOrder, Sort, Sorted, Linear, KeyLe, GroupFor;
    var table := Collect(states);
    KeyOrderIsLinear();
    var keys := Elements(table.Keys);
    var order := Sort(KeyLe, keys);
    SortIsSorted(KeyLe, keys);
    SameElements(keys, order);
    groups := [];
    for i := 0 to |order|
      invariant |groups| == i
      invariant forall k | 0 <= k < i :: Matches(table, order[k], groups[k])
    {
      groups := groups + [GroupFor(order[i], table[order[i]])];
      GroupMatches(states, table, order[i]);
    }
    GroupsExpand(states, table, order, groups);
    GroupsAscend(table, order, groups);
  }

  lemma KeyOrderIsLinear()
    ensures Linear(KeyLe)
  {
  }

  function GroupFor(key: Key, experts: seq<nat>): Group {
    Group(key.layer, [key.projection], key.qtype, Sort(NatLe, experts))
  }

  /** A group that lists what the table holds under its key. */
  ghost predicate Matches(table: map<Key, seq<nat>>, key: Key, g: Group) {
    && key in table
    && g.layer == key.layer && g.projections == [key.projection] && g.qtype == key.qtype
    && Ascending(g.experts) && g.experts != []
    && forall x :: x in g.experts <==> x in table[key]
  }

  lemma GroupMatches(states: map<Slot, Qtype>, table: map<Key, seq<nat>>, key: Key)
    requires Collected(states, states.Keys, table) && key in table
    ensures Matches(table, key, GroupFor(key, table[key]))
  {
    SortedDistinct(table[key]);
  }

  lemma GroupsAscend(table: map<Key, seq<nat>>, order: seq<Key>, groups: seq<Group>)
    requires Distinct(order) && Sorted(KeyLe, order) && |groups| == |order|
    requires forall k | 0 <= k < |groups| :: Matches(table, order[k], groups[k])
    ensures GroupsInOrder(groups)
  {
    forall k | 0 <= k < |groups| ensures |groups[k].projections| == 1 && GroupKey(groups[k]) == order[k] {
      assert Matches(table, order[k], groups[k]);
    }
  }

  /** A group covers the slots of its key, so the key can be read off any of them. */
  lemma CoveredSlot(states: map<Slot, Qtype>, table: map<Key, seq<nat>>, key: Key, g: Group, slot: Slot)
    requires Collected(states, states.Keys, table) && Matches(table, key, g) && Covers(g, slot)
    ensures slot in states && states[slot] == g.qtype && key == KeyOf(slot, states[slot])
  {
    assert slot == Slot(Id(key.layer, slot.id.expert), key.projection);
  }

  lemma GroupsExpand(states: map<Slot, Qtype>, table: map<Key, seq<nat>>, order: seq<Key>, groups: seq<Group>)
    requires Collected(states, states.Keys, table)
    requires Distinct(order) && (forall key :: key in order <==> key in table)
    requires |groups| == |order| && forall k | 0 <= k < |groups| :: Matches(table, order[k], groups[k])
    ensures NoOverlap(groups) && StatesOf(groups, states)
  {
    hide Collected, Covers, Matches, NoOverlap, Distinct;
    forall slot, k | 0 <= k < |groups| && Covers(groups[k], slot)
      ensures slot in states && states[slot] == groups[k].qtype && order[k] == KeyOf(slot, states[slot])
    {
      CoveredSlot(states, table, order[k], groups[k], slot);
    }
    forall slot | slot in states
      ensures exists k | 0 <= k < |groups| :: Covers(groups[k], slot) && groups[k].qtype == states[slot]
    {
      EverySlotIsCovered(states, table, order, groups, slot);
    }
    GroupsAreDisjoint(states, table, order, groups);
  }

  lemma EverySlotIsCovered(states: map<Slot, Qtype>, table: map<Key, seq<nat>>, order: seq<Key>, groups: seq<Group>,
                           slot: Slot)
    requires Collected(states, states.Keys, table) && slot in states
    requires forall key :: key in order <==> key in table
    requires |groups| == |order| && forall k | 0 <= k < |groups| :: Matches(table, order[k], groups[k])
    ensures exists k | 0 <= k < |groups| :: Covers(groups[k], slot) && groups[k].qtype == states[slot]
  {
    var key := KeyOf(slot, states[slot]);
    assert key in table;
    var k :| 0 <= k < |order| && order[k] == key;
    assert Matches(table, order[k], groups[k]);
  }

  lemma GroupsAreDisjoint(states: map<Slot, Qtype>, table: map<Key, seq<nat>>, order: seq<Key>, groups: seq<Group>)
    requires Collected(states, states.Keys, table) && Distinct(order)
    requires |groups| == |order| && forall k | 0 <= k < |groups| :: Matches(table, order[k], groups[k])
    ensures NoOverlap(groups)
  {
    forall i, j, slot | 0 <= i < j < |groups| ensures !(Covers(groups[i], slot) && Covers(groups[j], slot)) {
      if Covers(groups[i], slot) && Covers(groups[j], slot) {
        CoveredSlot(states, table, order[i], groups[i], slot);
        CoveredSlot(states, table, order[j], groups[j], slot);
      }
    }
    forall i | 0 <= i < |groups| ensures Distinct(groups[i].projections) && Distinct(groups[i].experts) {
      assert Matches(table, order[i], groups[i]);
    }
  }

  // ----- candidates -----

  datatype Candidate = Candidate(id: Id, gate: Qtype, up: Qtype, down: Qtype, bytes: nat, score: real, priority: real) {
    function Qtype(p: Projection): Qtype {
      match p case Gate => gate case Up => up case Down => down
    }
  }

  /** What a candidate is built from: the donor's encodings, its measured bytes, the scores,
      and the square root that the priority divides by. */
  datatype Donor = Donor(states: map<Slot, Qtype>, bytes: map<Slot, int>, score: Id -> real, root: int -> real)

  ghost predicate Listed(d: Donor, id: Id) {
    forall p: Projection :: Slot(id, p) in d.states && Slot(id, p) in d.bytes
  }

  ghost function Cost(d: Donor, id: Id): int
    requires Listed(d, id)
  {
    d.bytes[Slot(id, Gate)] + d.bytes[Slot(id, Up)] + d.bytes[Slot(id, Down)]
  }

  /** A candidate row can be built: every projection is listed and the cost has a usable root. */
  ghost predicate Complete(d: Donor, id: Id) {
    Listed(d, id) && Cost(d, id) > 0
  }

  lemma ListedIs(d: Donor, id: Id)
    requires forall p | p == Gate || p == Up || p == Down :: Slot(id, p) in d.states && Slot(id, p) in d.bytes
    ensures Listed(d, id)
  {
  }

  ghost predicate RootsArePositive(d: Donor) {
    forall cost: int | cost > 0 :: d.root(cost) > 0.0
  }

  ghost function CandidateOf(d: Donor, id: Id): (c: Candidate)
    requires Complete(d, id) && d.root(Cost(d, id)) > 0.0
  {
    var cost := Cost(d, id);
    Candidate(id, d.states[Slot(id, Gate)], d.states[Slot(id, Up)], d.states[Slot(id, Down)], cost,
              d.score(id), d.score(id) / d.root(cost))
  }

  ghost predicate Rows(d: Donor, ids: set<Id>, rows: seq<Candidate>)
    requires RootsArePositive(d)
  {
    && (forall c | c in rows :: c.id in ids && Complete(d, c.id) && c == CandidateOf(d, c.id))
    && (forall id | id in ids :: exists i | 0 <= i < |rows| :: rows[i].id == id)
    && DistinctIds(rows)
  }

  ghost predicate DistinctIds(rows: seq<Candidate>) {
    forall i, j | 0 <= i < j < |rows| :: rows[i].id != rows[j].id
  }

  /** A missing encoding, missing bytes or a cost without a positive root stops the build. */
  method Candidates(d: Donor, ids: set<Id>) returns (result: Option<seq<Candidate>>)
    requires RootsArePositive(d)
    ensures result.Some? <==> forall id | id in ids :: Complete(d, id)
    ensures result.Some? ==> Rows(d, ids, result.value)
  {
    var rows: seq<Candidate> := [];
    var order := Elements(ids);
    for i := 0 to |order|
      invariant |rows| == i
      invariant forall k | 0 <= k < i :: Complete(d, order[k]) && rows[k] == CandidateOf(d, order[k])
    {
      var id := order[i];
      var gate, up, down := Slot(id, Gate), Slot(id, Up), Slot(id, Down);
      if gate !in d.states || up !in d.states || down !in d.states
         || gate !in d.bytes || up !in d.bytes || down !in d.bytes {
        assert !Complete(d, id);
        return None;
      }
      var cost := d.bytes[gate] + d.bytes[up] + d.bytes[down];
      if cost <= 0 {
        assert !Complete(d, id);
        return None;
      }
      ListedIs(d, id);
      rows := rows + [Candidate(id, d.states[gate], d.states[up], d.states[down], cost, d.score(id),
                                d.score(id) / d.root(cost))];
    }
    forall id | id in ids ensures exists i | 0 <= i < |rows| :: rows[i].id == id {
      var i :| 0 <= i < |order| && order[i] == id;
      assert rows[i].id == id;
    }
    result := Some(rows);
  }

  // ----- the two-pass greedy selection -----

  /** (-score, bytes, expert) */
  predicate ScoreLe(a: Candidate, b: Candidate) {
    || a.score > b.score
    || (a.score == b.score && (a.bytes < b.bytes || (a.bytes == b.bytes && a.id.expert <= b.id.expert)))
  }

  /** (-priority, -score, bytes, layer, expert) */
  predicate PriorityLe(a: Candidate, b: Candidate) {
    || a.priority > b.priority
    || (a.priority == b.priority
        && (|| a.score > b.score
            || (a.score == b.score
                && (|| a.bytes < b.bytes
                    || (a.bytes == b.bytes
                        && (a.id.layer < b.id.layer || (a.id.layer == b.id.layer && a.id.expert <= b.id.expert)))))))
  }

  datatype Limits = Limits(budget: nat, q2: map<nat, int>)

  datatype Ledger = Ledger(selected: seq<Candidate>, used: nat, q2: map<nat, int>)

  /** A `defaultdict(int)`. */
  function Count(counts: map<nat, int>, layer: nat): int {
    if layer in counts then counts[layer] else 0
  }

  function Q2(q: Qtype): nat {
    if q == Q2_K then 1 else 0
  }

  function Q2Added(c: Candidate): nat {
    Q2(c.gate) + Q2(c.up) + Q2(c.down)
  }

  predicate CanAdd(l: Ledger, lim: Limits, c: Candidate) {
    && l.used + c.bytes <= lim.budget
    && Count(l.q2, c.id.layer) + Q2Added(c) <= Count(lim.q2, c.id.layer)
  }

  predicate Fits(l: Ledger, lim: Limits, c: Candidate) {
    c.score > 0.0 && CanAdd(l, lim, c)
  }

  function Add(l: Ledger, c: Candidate): Ledger {
    Ledger(l.selected + [c], l.used + c.bytes, l.q2[c.id.layer := Count(l.q2, c.id.layer) + Q2Added(c)])
  }

  function Ids(cs: seq<Candidate>): set<Id> {
    set c | c in cs :: c.id
  }

  function RowsOf(rows: seq<Candidate>, layer: nat): seq<Candidate> {
    if rows == [] then []
    else
      var n := |rows| - 1;
      RowsOf(rows[..n], layer) + if rows[n].id.layer == layer then [rows[n]] else []
  }

  function LayersOf(rows: seq<Candidate>): seq<nat> {
    if rows == [] then []
    else
      var n := |rows| - 1;
      var before := LayersOf(rows[..n]);
      if rows[n].id.layer in before then before else before + [rows[n].id.layer]
  }

  /** The first row that fits is added; the rest of its layer is left. */
  function SeedLayer(order: seq<Candidate>, l: Ledger, lim: Limits): Ledger {
    if order == [] then l
    else if Fits(l, lim, order[0]) then Add(l, order[0])
    else SeedLayer(order[1..], l, lim)
  }

  function Seed(layers: seq<nat>, rows: seq<Candidate>, l: Ledger, lim: Limits): Ledger {
    if layers == [] then l
    else
      var n := |layers| - 1;
      SeedLayer(Sort(ScoreLe, RowsOf(rows, layers[n])), Seed(layers[..n], rows, l, lim), lim)
  }

  function Fill(order: seq<Candidate>, l: Ledger, lim: Limits): Ledger {
    if order == [] then l
    else
      var n := |order| - 1;
      FillOne(Fill(order[..n], l, lim), lim, order[n])
  }

  function FillOne(l: Ledger, lim: Limits, c: Candidate): Ledger {
    if c.id !in Ids(l.selected) && Fits(l, lim, c) then Add(l, c) else l
  }

  function Seeded(rows: seq<Candidate>, counts: map<nat, int>, lim: Limits): Ledger {
    Seed(Sort(NatLe, LayersOf(rows)), rows, Ledger([], 0, counts), lim)
  }

  function Selection(rows: seq<Candidate>, counts: map<nat, int>, lim: Limits): Ledger {
    Fill(Sort(PriorityLe, rows), Seeded(rows, counts, lim), lim)
  }

  /** The rows of each layer, in a dictionary. */
  method ByLayer(rows: seq<Candidate>) returns (layers: seq<nat>, table: map<nat, seq<Candidate>>)
    ensures layers == LayersOf(rows)
    ensures forall layer :: layer in layers <==> layer in table
    ensures forall layer | layer in table :: table[layer] == RowsOf(rows, layer)
  {
    layers, table := [], map[];
    for i := 0 to |rows|
      invariant layers == LayersOf(rows[..i])
      invariant forall layer :: layer in layers <==> layer in table
      invariant forall layer: nat :: RowsOf(rows[..i], layer) == if layer in table then table[layer] else []
    {
      var layer := rows[i].id.layer;
      assert rows[..i + 1][..i] == rows[..i];
      if layer !in table {
        layers := layers + [layer];
        table := table[layer := [rows[i]]];
      } else {
        table := table[layer := table[layer] + [rows[i]]];
      }
    }
    assert rows[..|rows|] == rows;
  }

  /** The two passes, with the running totals updated in place. */
  method Select(rows: seq<Candidate>, counts: map<nat, int>, lim: Limits) returns (selected: seq<Candidate>, used: nat)
    ensures Selection(rows, counts, lim).selected == selected && Selection(rows, counts, lim).used == used
    ensures exists seeds :: Greedy(rows, counts, lim, selected, seeds)
  {
    hide RowsOf, LayersOf, Sort, Seed, Fill, Fits, KeyLe, ScoreLe, PriorityLe, Ids, Q2Added, Count, Greedy;
    IdsOfNone();
    var q2: map<nat, int> := counts;
    var ids: set<Id> := {};
    selected, used := [], 0;
    var layers, byLayer := ByLayer(rows);
    var sorted := Sort(NatLe, layers);
    ghost var start := Ledger([], 0, counts);
    SameElements(layers, sorted);
    SeedStart(rows, start, lim);
    assert sorted[..0] == [];
    for k := 0 to |sorted|
      invariant Ledger(selected, used, q2) == Seed(sorted[..k], rows, start, lim)
      invariant ids == Ids(selected)
    {
      var order := Sort(ScoreLe, byLayer[sorted[k]]);
      ghost var before := Ledger(selected, used, q2);
      SeedStep(sorted, rows, start, lim, k);
      var j := 0;
      while j < |order|
        invariant j <= |order| && before == Ledger(selected, used, q2) && ids == Ids(selected)
        invariant SeedLayer(order, before, lim) == SeedLayer(order[j..], before, lim)
      {
        var c := order[j];
        if Fits(Ledger(selected, used, q2), lim, c) {
          IdsSnoc(selected, c);
          selected, used := selected + [c], used + c.bytes;
          q2 := q2[c.id.layer := Count(q2, c.id.layer) + Q2Added(c)];
          ids := ids + {c.id};
          break;
        }
        j := j + 1;
      }
    }
    assert sorted[..|sorted|] == sorted;
    var order := Sort(PriorityLe, rows);
    ghost var seeds := Ledger(selected, used, q2);
    FillStart(seeds, lim);
    assert order[..0] == [];
    for k := 0 to |order|
      invariant Ledger(selected, used, q2) == Fill(order[..k], seeds, lim)
      invariant ids == Ids(selected)
    {
      var c := order[k];
      FillStep(order, seeds, lim, k);
      if c.id !in ids && Fits(Ledger(selected, used, q2), lim, c) {
        IdsSnoc(selected, c);
        selected, used := selected + [c], used + c.bytes;
        q2 := q2[c.id.layer := Count(q2, c.id.layer) + Q2Added(c)];
        ids := ids + {c.id};
      }
    }
    assert order[..|order|] == order;
    SelectionIsGreedy(rows, counts, lim);
  }

  lemma IdsOfNone()
    ensures Ids([]) == {}
  {
  }

  lemma IdsSnoc(cs: seq<Candidate>, c: Candidate)
    ensures Ids(cs + [c]) == Ids(cs) + {c.id}
  {
  }

  lemma SeedStart(rows: seq<Candidate>, l: Ledger, lim: Limits)
    ensures Seed([], rows, l, lim) == l
  {
  }

  lemma SeedStep(layers: seq<nat>, rows: seq<Candidate>, l: Ledger, lim: Limits, k: nat)
    requires k < |layers|
    ensures Seed(layers[..k + 1], rows, l, lim)
         == SeedLayer(Sort(ScoreLe, RowsOf(rows, layers[k])), Seed(layers[..k], rows, l, lim), lim)
  {
    assert layers[..k + 1][..k] == layers[..k];
  }

  lemma FillStart(l: Ledger, lim: Limits)
    ensures Fill([], l, lim) == l
  {
  }

  lemma FillStep(order: seq<Candidate>, l: Ledger, lim: Limits, k: nat)
    requires k < |order|
    ensures Fill(order[..k + 1], l, lim) == FillOne(Fill(order[..k], l, lim), lim, order[k])
  {
    assert order[..k + 1][..k] == order[..k];
  }

  // ----- what the selection keeps -----

  function BytesOf(c: Candidate): nat {
    c.bytes
  }

  function Q2In(layer: nat): Candidate -> nat {
    (c: Candidate) => if c.id.layer == layer then Q2Added(c) else 0
  }

  /** The running totals describe the selection, which stays inside both limits. */
  ghost predicate Accounted(rows: seq<Candidate>, counts: map<nat, int>, lim: Limits, l: Ledger) {
    && l.used == Sum(BytesOf, l.selected) && l.used <= lim.budget
    && (forall layer :: Count(l.q2, layer) == Count(counts, layer) + Sum(Q2In(layer), l.selected))
    && (forall c | c in l.selected ::
          c in rows && c.score > 0.0 && Count(l.q2, c.id.layer) <= Count(lim.q2, c.id.layer))
    && DistinctIds(l.selected)
  }

  lemma AddKeepsAccounts(rows: seq<Candidate>, counts: map<nat, int>, lim: Limits, l: Ledger, c: Candidate)
    requires Accounted(rows, counts, lim, l) && c in rows && Fits(l, lim, c) && c.id !in Ids(l.selected)
    ensures Accounted(rows, counts, lim, Add(l, c))
  {
    hide Sum;
    SumSnoc(BytesOf, l.selected, c);
    forall layer ensures Count(Add(l, c).q2, layer) == Count(counts, layer) + Sum(Q2In(layer), Add(l, c).selected) {
      SumSnoc(Q2In(layer), l.selected, c);
    }
  }

  /** Totals and chosen experts never shrink. */
  ghost predicate Grew(a: Ledger, b: Ledger) {
    && a.used <= b.used
    && (forall layer :: Count(a.q2, layer) <= Count(b.q2, layer))
    && Ids(a.selected) <= Ids(b.selected)
  }

  lemma AddGrows(l: Ledger, c: Candidate)
    ensures Grew(l, Add(l, c))
    ensures Ids(Add(l, c).selected) == Ids(l.selected) + {c.id}
  {
  }

  lemma {:induction false} RowsOfLayer(rows: seq<Candidate>, layer: nat)
    ensures forall c :: c in RowsOf(rows, layer) <==> c in rows && c.id.layer == layer
  {
    if rows == [] {
    } else {
      var n := |rows| - 1;
      RowsOfLayer(rows[..n], layer);
      assert rows == rows[..n] + [rows[n]];
    }
  }

  lemma {:induction false} LayersOfRows(rows: seq<Candidate>)
    ensures Distinct(LayersOf(rows))
    ensures forall layer: nat :: layer in LayersOf(rows) <==> exists i | 0 <= i < |rows| :: rows[i].id.layer == layer
  {
    if rows == [] {
    } else {
      var n := |rows| - 1;
      LayersOfRows(rows[..n]);
      forall layer: nat
        ensures layer in LayersOf(rows) <==> exists i | 0 <= i < |rows| :: rows[i].id.layer == layer
      {
        if i :| 0 <= i < |rows| && rows[i].id.layer == layer {
          if i < n {
            assert rows[..n][i].id.layer == layer;
          }
        }
      }
    }
  }

  /** The first fitting row in the layer's order: no row that fits is better. */
  lemma {:induction false} SeedLayerPicks(order: seq<Candidate>, l: Ledger, lim: Limits)
    requires Sorted(ScoreLe, order)
    ensures var next := SeedLayer(order, l, lim);
            || (next == l && forall c | c in order :: !Fits(l, lim, c))
            || (exists best | best in order ::
                  && next == Add(l, best) && Fits(l, lim, best)
                  && forall c | c in order && Fits(l, lim, c) :: ScoreLe(best, c))
  {
    if order == [] {
    } else if Fits(l, lim, order[0]) {
      assert order[0] in order;
    } else {
      SeedLayerPicks(order[1..], l, lim);
      assert order == [order[0]] + order[1..];
    }
  }

  lemma ScoreOrderIsLinear()
    ensures Linear(ScoreLe) && Linear(PriorityLe)
  {
  }

  /** The first pass takes each layer's best row that fits beside the picks of the layers before it,
      and leaves a layer without a pick only when none of its rows fits. */
  lemma SeedTakesTheBest(layers: seq<nat>, rows: seq<Candidate>, l: Ledger, lim: Limits, k: nat)
    requires k < |layers|
    ensures var before := Seed(layers[..k], rows, l, lim);
            var next := Seed(layers[..k + 1], rows, l, lim);
            || (next == before && forall c | c in rows && c.id.layer == layers[k] :: !Fits(before, lim, c))
            || (exists best | best in rows && best.id.layer == layers[k] ::
                  && next == Add(before, best) && Fits(before, lim, best)
                  && forall c | c in rows && c.id.layer == layers[k] && Fits(before, lim, c) :: ScoreLe(best, c))
  {
    var before := Seed(layers[..k], rows, l, lim);
    var order := Sort(ScoreLe, RowsOf(rows, layers[k]));
    assert layers[..k + 1][..k] == layers[..k];
    ScoreOrderIsLinear();
    SortIsSorted(ScoreLe, RowsOf(rows, layers[k]));
    RowsOfLayer(rows, layers[k]);
    SameElements(RowsOf(rows, layers[k]), order);
    SeedLayerPicks(order, before, lim);
  }

  /** Every pick of the first pass comes from one of the layers visited. */
  lemma {:induction false} SeedKeepsAccounts(layers: seq<nat>, rows: seq<Candidate>, counts: map<nat, int>, lim: Limits)
    requires Distinct(layers)
    ensures var l := Seed(layers, rows, Ledger([], 0, counts), lim);
            Accounted(rows, counts, lim, l) && forall c | c in l.selected :: c.id.layer in layers
  {
    var start := Ledger([], 0, counts);
    if layers == [] {
    } else {
      var n := |layers| - 1;
      SeedKeepsAccounts(layers[..n], rows, counts, lim);
      SeedTakesTheBest(layers, rows, start, lim, n);
      assert layers[..n + 1] == layers;
      var before := Seed(layers[..n], rows, start, lim);
      var next := Seed(layers, rows, start, lim);
      if next != before {
        var best :| best in rows && best.id.layer == layers[n] && next == Add(before, best) && Fits(before, lim, best);
        assert best.id !in Ids(before.selected);
        AddKeepsAccounts(rows, counts, lim, before, best);
      }
    }
  }

  lemma {:induction false} FillKeepsAccounts(order: seq<Candidate>, rows: seq<Candidate>, counts: map<nat, int>,
                                             l: Ledger, lim: Limits)
    requires Accounted(rows, counts, lim, l) && forall c | c in order :: c in rows
    ensures Accounted(rows, counts, lim, Fill(order, l, lim)) && Grew(l, Fill(order, l, lim))
  {
    if order == [] {
    } else {
      var n := |order| - 1;
      FillKeepsAccounts(order[..n], rows, counts, l, lim);
      var before := Fill(order[..n], l, lim);
      if order[n].id !in Ids(before.selected) && Fits(before, lim, order[n]) {
        AddKeepsAccounts(rows, counts, lim, before, order[n]);
        AddGrows(before, order[n]);
      }
    }
  }

  /** The second pass leaves a row out only when it did not fit at its turn. */
  lemma {:induction false} FillTakesWhatFits(order: seq<Candidate>, l: Ledger, lim: Limits, k: nat)
    requires k < |order|
    ensures Grew(FillOne(Fill(order[..k], l, lim), lim, order[k]), Fill(order, l, lim))
    decreases |order|
  {
    var n := |order| - 1;
    if k < n {
      assert order[..n][..k] == order[..k];
      FillTakesWhatFits(order[..n], l, lim, k);
      var before := Fill(order[..n], l, lim);
      AddGrows(before, order[n]);
    }
  }

  /** A positive row left out at the end does not fit at the end: it did not fit at its turn. */
  lemma LeftOutDoesNotFit(order: seq<Candidate>, l: Ledger, lim: Limits, c: Candidate)
    requires c in order && c.score > 0.0 && c.id !in Ids(Fill(order, l, lim).selected)
    ensures !CanAdd(Fill(order, l, lim), lim, c)
  {
    hide Fill, Ids, Count;
    var k :| 0 <= k < |order| && order[k] == c;
    FillTakesWhatFits(order, l, lim, k);
    AddGrows(Fill(order[..k], l, lim), c);
  }

  /** The whole selection: totals that describe it, both limits kept, nothing that fits left out. */
  lemma SelectionIsMaximal(rows: seq<Candidate>, counts: map<nat, int>, lim: Limits)
    ensures var l := Selection(rows, counts, lim);
            && Accounted(rows, counts, lim, l)
            && Grew(Seeded(rows, counts, lim), l)
            && forall c | c in rows && c.score > 0.0 && c.id !in Ids(l.selected) :: !CanAdd(l, lim, c)
  {
    hide Fill, Seed, Accounted, Grew, CanAdd, Sort, LayersOf, Ids;
    var layers := Sort(NatLe, LayersOf(rows));
    var order := Sort(PriorityLe, rows);
    LayersOfRows(rows);
    SameElements(LayersOf(rows), layers);
    SameElements(rows, order);
    SeedKeepsAccounts(layers, rows, counts, lim);
    var seeds := Seeded(rows, counts, lim);
    FillKeepsAccounts(order, rows, counts, seeds, lim);
    forall c | c in rows && c.score > 0.0 && c.id !in Ids(Fill(order, seeds, lim).selected)
      ensures !CanAdd(Fill(order, seeds, lim), lim, c)
    {
      LeftOutDoesNotFit(order, seeds, lim, c);
    }
  }

  // ----- the order of the picks -----

  /** `c` would still fit beside the experts chosen before. */
  ghost predicate FitsBeside(counts: map<nat, int>, lim: Limits, chosen: seq<Candidate>, c: Candidate) {
    && c.score > 0.0
    && Sum(BytesOf, chosen) + c.bytes <= lim.budget
    && Count(counts, c.id.layer) + Sum(Q2In(c.id.layer), chosen) + Q2Added(c) <= Count(lim.q2, c.id.layer)
  }

  /** `a` has the higher score, or the same with fewer bytes, or both the same and the lower number. */
  ghost predicate ScoreFirst(a: Candidate, b: Candidate) {
    && a.score >= b.score
    && (a.score == b.score ==> a.bytes <= b.bytes)
    && (a.score == b.score && a.bytes == b.bytes ==> a.id.expert <= b.id.expert)
  }

  /** `a` has the higher priority; ties go to the higher score, fewer bytes, the lower layer and the
      lower number, in that order. */
  ghost predicate PriorityFirst(a: Candidate, b: Candidate) {
    && a.priority >= b.priority
    && (a.priority == b.priority ==> a.score >= b.score)
    && (a.priority == b.priority && a.score == b.score ==> a.bytes <= b.bytes)
    && (a.priority == b.priority && a.score == b.score && a.bytes == b.bytes ==> a.id.layer <= b.id.layer)
    && (a.priority == b.priority && a.score == b.score && a.bytes == b.bytes && a.id.layer == b.id.layer ==>
          a.id.expert <= b.id.expert)
  }

  /** Every pick is a row not chosen before that fits beside those chosen before. */
  ghost predicate PicksFit(rows: seq<Candidate>, counts: map<nat, int>, lim: Limits, chosen: seq<Candidate>) {
    forall k | 0 <= k < |chosen| ::
      && chosen[k] in rows && chosen[k].id !in Ids(chosen[..k])
      && FitsBeside(counts, lim, chosen[..k], chosen[k])
  }

  /** The first pass goes up through the layers. Its pick in a layer is the best row of that layer that
      fits beside the picks in lower layers, and a layer without a pick has none that fits. */
  ghost predicate OnePerLayer(rows: seq<Candidate>, counts: map<nat, int>, lim: Limits, seeds: seq<Candidate>) {
    && (forall i, j | 0 <= i < j < |seeds| :: seeds[i].id.layer < seeds[j].id.layer)
    && (forall k, c | 0 <= k < |seeds| && c in rows && c.id.layer == seeds[k].id.layer
                      && FitsBeside(counts, lim, seeds[..k], c) :: ScoreFirst(seeds[k], c))
    && (forall k, c | 0 <= k <= |seeds| && c in rows && Between(seeds, k, c.id.layer) ::
          !FitsBeside(counts, lim, seeds[..k], c))
  }

  /** The first `k` picks are in lower layers than `layer`, and the others in higher ones. */
  ghost predicate Between(seeds: seq<Candidate>, k: nat, layer: nat)
    requires k <= |seeds|
  {
    && (forall i | 0 <= i < k :: seeds[i].id.layer < layer)
    && (forall i | k <= i < |seeds| :: seeds[i].id.layer > layer)
  }

  /** Each pick of the second pass, from pick `m` on, is the best of all rows not yet chosen that fit. */
  ghost predicate BestOfRest(rows: seq<Candidate>, counts: map<nat, int>, lim: Limits, chosen: seq<Candidate>, m: nat) {
    forall k, c | m <= k < |chosen| && c in rows && c.id !in Ids(chosen[..k])
                  && FitsBeside(counts, lim, chosen[..k], c) :: PriorityFirst(chosen[k], c)
  }

  /** The whole order of the picks: those before `m` by layer, the rest by priority, until no row fits. */
  ghost predicate Greedy(rows: seq<Candidate>, counts: map<nat, int>, lim: Limits, chosen: seq<Candidate>, m: nat) {
    && m <= |chosen|
    && PicksFit(rows, counts, lim, chosen)
    && OnePerLayer(rows, counts, lim, chosen[..m])
    && BestOfRest(rows, counts, lim, chosen, m)
    && forall c | c in rows && c.id !in Ids(chosen) :: !FitsBeside(counts, lim, chosen, c)
  }

  lemma FitsIsFitsBeside(rows: seq<Candidate>, counts: map<nat, int>, lim: Limits, l: Ledger, c: Candidate)
    requires Accounted(rows, counts, lim, l)
    ensures Fits(l, lim, c) <==> FitsBeside(counts, lim, l.selected, c)
  {
    hide Sum;
  }

  lemma OrdersAreFirst(a: Candidate, b: Candidate)
    ensures ScoreLe(a, b) ==> ScoreFirst(a, b)
    ensures PriorityLe(a, b) ==> PriorityFirst(a, b)
  {
  }

  lemma OneMorePick(rows: seq<Candidate>, counts: map<nat, int>, lim: Limits, chosen: seq<Candidate>, c: Candidate)
    requires PicksFit(rows, counts, lim, chosen) && c in rows && c.id !in Ids(chosen)
    requires FitsBeside(counts, lim, chosen, c)
    ensures PicksFit(rows, counts, lim, chosen + [c])
  {
    hide FitsBeside, Ids;
    var more := chosen + [c];
    forall k | 0 <= k < |more|
      ensures more[k] in rows && more[k].id !in Ids(more[..k]) && FitsBeside(counts, lim, more[..k], more[k])
    {
      assert more[..k] == chosen[..k];
      if k == |chosen| {
        assert chosen[..k] == chosen;
      }
    }
  }

  /** The rows of the layers visited so far. */
  ghost function Visited(rows: seq<Candidate>, layers: seq<nat>): seq<Candidate> {
    if rows == [] then []
    else
      var n := |rows| - 1;
      Visited(rows[..n], layers) + if rows[n].id.layer in layers then [rows[n]] else []
  }

  lemma {:induction false} VisitedRows(rows: seq<Candidate>, layers: seq<nat>)
    ensures forall c :: c in Visited(rows, layers) <==> c in rows && c.id.layer in layers
  {
    if rows != [] {
      var n := |rows| - 1;
      VisitedRows(rows[..n], layers);
      assert rows == rows[..n] + [rows[n]];
    }
  }

  /** A layer above all visited ones that gives no pick. */
  lemma EmptyLayer(before: seq<Candidate>, rows: seq<Candidate>, layer: nat, counts: map<nat, int>, lim: Limits,
                   seeds: seq<Candidate>)
    requires OnePerLayer(before, counts, lim, seeds) && forall i | 0 <= i < |seeds| :: seeds[i].id.layer < layer
    requires forall c | c in rows :: c in before || c.id.layer == layer
    requires forall c | c in rows && c.id.layer == layer :: !FitsBeside(counts, lim, seeds, c)
    ensures OnePerLayer(rows, counts, lim, seeds)
  {
    hide FitsBeside, ScoreFirst;
    assert seeds[..|seeds|] == seeds;
  }

  /** A layer above all visited ones and its pick. */
  lemma NextLayer(before: seq<Candidate>, rows: seq<Candidate>, counts: map<nat, int>, lim: Limits,
                  seeds: seq<Candidate>, best: Candidate)
    requires OnePerLayer(before, counts, lim, seeds)
    requires forall i | 0 <= i < |seeds| :: seeds[i].id.layer < best.id.layer
    requires forall c | c in before :: c.id.layer < best.id.layer
    requires forall c | c in rows :: c in before || c.id.layer == best.id.layer
    requires forall c | c in rows && c.id.layer == best.id.layer && FitsBeside(counts, lim, seeds, c) ::
               ScoreFirst(best, c)
    ensures OnePerLayer(rows, counts, lim, seeds + [best])
  {
    hide FitsBeside, ScoreFirst, Between;
    var more := seeds + [best];
    assert more[..|seeds|] == seeds;
    forall k, c | 0 <= k < |more| && c in rows && c.id.layer == more[k].id.layer
                  && FitsBeside(counts, lim, more[..k], c)
      ensures ScoreFirst(more[k], c)
    {
      if k < |seeds| {
        assert more[..k] == seeds[..k];
      }
    }
    forall k, c | 0 <= k <= |more| && c in rows && Between(more, k, c.id.layer)
      ensures !FitsBeside(counts, lim, more[..k], c)
    {
      BetweenFewer(seeds, best, k, c.id.layer);
      assert more[..k] == seeds[..k];
    }
  }

  lemma BetweenFewer(seeds: seq<Candidate>, best: Candidate, k: nat, layer: nat)
    requires k <= |seeds| + 1 && Between(seeds + [best], k, layer) && layer <= best.id.layer
    ensures k <= |seeds| && Between(seeds, k, layer) && layer < best.id.layer
  {
    var more := seeds + [best];
    assert more[|seeds|] == best;
    assert forall i | 0 <= i < |seeds| :: more[i] == seeds[i];
  }

  /** The first pass over ascending layers. */
  lemma {:induction false} SeedsOnePerLayer(layers: seq<nat>, rows: seq<Candidate>, counts: map<nat, int>, lim: Limits)
    requires forall i, j | 0 <= i < j < |layers| :: layers[i] < layers[j]
    ensures var seeds := Seed(layers, rows, Ledger([], 0, counts), lim).selected;
            && (forall c | c in seeds :: c.id.layer in layers)
            && PicksFit(rows, counts, lim, seeds)
            && OnePerLayer(Visited(rows, layers), counts, lim, seeds)
  {
    hide FitsBeside, ScoreFirst, Fits, Accounted, Add, Ids, ScoreLe, PicksFit, OnePerLayer;
    VisitedRows(rows, layers);
    var start := Ledger([], 0, counts);
    if layers == [] {
      NoPicks(rows, counts, lim);
    } else {
      var n := |layers| - 1;
      var before := Seed(layers[..n], rows, start, lim);
      SeedsOnePerLayer(layers[..n], rows, counts, lim);
      SeedKeepsAccounts(layers[..n], rows, counts, lim);
      SeedTakesTheBest(layers, rows, start, lim, n);
      assert layers[..n + 1] == layers;
      VisitedRows(rows, layers[..n]);
      assert forall i | 0 <= i < |before.selected| :: before.selected[i] in before.selected;
      SeedLayerStep(layers, n, rows, counts, lim, before, Seed(layers, rows, start, lim));
    }
  }

  lemma NoPicks(rows: seq<Candidate>, counts: map<nat, int>, lim: Limits)
    ensures PicksFit(rows, counts, lim, []) && OnePerLayer(Visited(rows, []), counts, lim, [])
  {
    VisitedRows(rows, []);
  }

  lemma SeedLayerStep(layers: seq<nat>, n: nat, rows: seq<Candidate>, counts: map<nat, int>, lim: Limits,
                      before: Ledger, next: Ledger)
    requires n + 1 == |layers| && forall i, j | 0 <= i < j < |layers| :: layers[i] < layers[j]
    requires Accounted(rows, counts, lim, before)
    requires forall i | 0 <= i < |before.selected| :: before.selected[i].id.layer in layers[..n]
    requires PicksFit(rows, counts, lim, before.selected)
    requires OnePerLayer(Visited(rows, layers[..n]), counts, lim, before.selected)
    requires || (next == before && forall c | c in rows && c.id.layer == layers[n] :: !Fits(before, lim, c))
             || (exists best | best in rows && best.id.layer == layers[n] ::
                   && next == Add(before, best) && Fits(before, lim, best)
                   && forall c | c in rows && c.id.layer == layers[n] && Fits(before, lim, c) :: ScoreLe(best, c))
    ensures forall c | c in next.selected :: c.id.layer in layers
    ensures PicksFit(rows, counts, lim, next.selected)
    ensures OnePerLayer(Visited(rows, layers), counts, lim, next.selected)
  {
    hide FitsBeside, ScoreFirst, Fits, Accounted, ScoreLe, PicksFit, OnePerLayer;
    VisitedRows(rows, layers);
    VisitedRows(rows, layers[..n]);
    forall c ensures Fits(before, lim, c) <==> FitsBeside(counts, lim, before.selected, c) {
      FitsIsFitsBeside(rows, counts, lim, before, c);
    }
    if next == before && forall c | c in rows && c.id.layer == layers[n] :: !Fits(before, lim, c) {
      EmptyLayer(Visited(rows, layers[..n]), Visited(rows, layers), layers[n], counts, lim, before.selected);
    } else {
      var best :| best in rows && best.id.layer == layers[n] && next == Add(before, best) && Fits(before, lim, best)
        && forall c | c in rows && c.id.layer == layers[n] && Fits(before, lim, c) :: ScoreLe(best, c);
      forall c | c in rows && c.id.layer == layers[n] && FitsBeside(counts, lim, before.selected, c)
        ensures ScoreFirst(best, c)
      {
        OrdersAreFirst(best, c);
      }
      NextLayer(Visited(rows, layers[..n]), Visited(rows, layers), counts, lim, before.selected, best);
      OneMorePick(rows, counts, lim, before.selected, best);
    }
  }

  /** The second pass over the rows in priority order. */
  lemma {:induction false} FillsInOrder(order: seq<Candidate>, rows: seq<Candidate>, counts: map<nat, int>, l: Ledger,
                                        lim: Limits, n: nat)
    requires n <= |order| && Sorted(PriorityLe, order) && forall c :: c in order <==> c in rows
    requires Accounted(rows, counts, lim, l) && PicksFit(rows, counts, lim, l.selected)
    ensures var m, chosen := |l.selected|, Fill(order[..n], l, lim).selected;
            && m <= |chosen| && chosen[..m] == l.selected
            && PicksFit(rows, counts, lim, chosen)
            && BestOfRest(rows, counts, lim, chosen, m)
  {
    hide FitsBeside, PriorityFirst, Fits, Accounted, PriorityLe, PicksFit, BestOfRest, Fill;
    if n == 0 {
      FillStart(l, lim);
      assert order[..0] == [] && l.selected[..|l.selected|] == l.selected;
      NothingAdded(rows, counts, lim, l.selected);
    } else {
      FillsInOrder(order, rows, counts, l, lim, n - 1);
      FillStep(order, l, lim, n - 1);
      FillKeepsAccounts(order[..n - 1], rows, counts, l, lim);
      var before, c := Fill(order[..n - 1], l, lim), order[n - 1];
      if c.id !in Ids(before.selected) && Fits(before, lim, c) {
        FitsIsFitsBeside(rows, counts, lim, before, c);
        OneMorePick(rows, counts, lim, before.selected, c);
        BestAtItsTurn(order, rows, counts, l, lim, n - 1);
        OneMoreBest(rows, counts, lim, before.selected, c, |l.selected|);
      }
    }
  }

  lemma NothingAdded(rows: seq<Candidate>, counts: map<nat, int>, lim: Limits, chosen: seq<Candidate>)
    ensures BestOfRest(rows, counts, lim, chosen, |chosen|)
  {
  }

  /** What came before it in the order and is not chosen no longer fits. */
  lemma BestAtItsTurn(order: seq<Candidate>, rows: seq<Candidate>, counts: map<nat, int>, l: Ledger, lim: Limits,
                      n: nat)
    requires n < |order| && Sorted(PriorityLe, order) && forall c :: c in order <==> c in rows
    requires Accounted(rows, counts, lim, Fill(order[..n], l, lim))
    ensures var chosen := Fill(order[..n], l, lim).selected;
            forall c | c in rows && c.id !in Ids(chosen) && FitsBeside(counts, lim, chosen, c) ::
              PriorityFirst(order[n], c)
  {
    hide FitsBeside, PriorityFirst, Accounted, PriorityLe, Fill, Ids;
    var before := Fill(order[..n], l, lim);
    forall c | c in rows && c.id !in Ids(before.selected) && FitsBeside(counts, lim, before.selected, c)
      ensures PriorityFirst(order[n], c)
    {
      var i :| 0 <= i < |order| && order[i] == c;
      FitsIsFitsBeside(rows, counts, lim, before, c);
      if i < n {
        assert order[..n][i] == c;
        LeftOutDoesNotFit(order[..n], l, lim, c);
      }
      OrdersAreFirst(order[n], c);
      PrioritySorted(order, n, i);
    }
  }

  lemma PrioritySorted(order: seq<Candidate>, n: nat, i: nat)
    requires n <= i < |order| && Sorted(PriorityLe, order)
    ensures PriorityLe(order[n], order[i])
  {
  }

  lemma OneMoreBest(rows: seq<Candidate>, counts: map<nat, int>, lim: Limits, chosen: seq<Candidate>, best: Candidate,
                    m: nat)
    requires BestOfRest(rows, counts, lim, chosen, m) && m <= |chosen|
    requires forall c | c in rows && c.id !in Ids(chosen) && FitsBeside(counts, lim, chosen, c) ::
               PriorityFirst(best, c)
    ensures BestOfRest(rows, counts, lim, chosen + [best], m)
  {
    hide FitsBeside, PriorityFirst, Ids;
    var more := chosen + [best];
    forall k, c | m <= k < |more| && c in rows && c.id !in Ids(more[..k]) && FitsBeside(counts, lim, more[..k], c)
      ensures PriorityFirst(more[k], c)
    {
      assert more[..k] == chosen[..k];
      if k == |chosen| {
        assert chosen[..k] == chosen;
      }
    }
  }

  /** The selection takes the picks in the order of the two passes. */
  lemma SelectionIsGreedy(rows: seq<Candidate>, counts: map<nat, int>, lim: Limits)
    ensures Greedy(rows, counts, lim, Selection(rows, counts, lim).selected, |Seeded(rows, counts, lim).selected|)
  {
    hide FitsBeside, Fits, Accounted, PicksFit, BestOfRest, OnePerLayer, Fill, Seed, PriorityLe, Ids, Sort, LayersOf;
    var layers, order := Sort(NatLe, LayersOf(rows)), Sort(PriorityLe, rows);
    var seeds, l := Seeded(rows, counts, lim), Selection(rows, counts, lim);
    LayersAscend(rows);
    SeedsOnePerLayer(layers, rows, counts, lim);
    SeedKeepsAccounts(layers, rows, counts, lim);
    AllVisited(rows, counts, lim, seeds.selected);
    ScoreOrderIsLinear();
    SortIsSorted(PriorityLe, rows);
    SameElements(rows, order);
    FillsInOrder(order, rows, counts, seeds, lim, |order|);
    assert order[..|order|] == order;
    SelectionIsMaximal(rows, counts, lim);
    forall c | c in rows && c.id !in Ids(l.selected) ensures !FitsBeside(counts, lim, l.selected, c) {
      FitsIsFitsBeside(rows, counts, lim, l, c);
      PositiveFits(l, lim, c);
    }
  }

  lemma PositiveFits(l: Ledger, lim: Limits, c: Candidate)
    ensures Fits(l, lim, c) <==> c.score > 0.0 && CanAdd(l, lim, c)
  {
  }

  lemma LayersAscend(rows: seq<Candidate>)
    ensures var layers := Sort(NatLe, LayersOf(rows));
            && Distinct(layers)
            && (forall i, j | 0 <= i < j < |layers| :: layers[i] < layers[j])
            && forall c | c in rows :: c.id.layer in layers
  {
    hide LayersOf;
    LayersOfRows(rows);
    var layers := Sort(NatLe, LayersOf(rows));
    SortedDistinct(LayersOf(rows));
    SameElements(LayersOf(rows), layers);
    forall c | c in rows ensures c.id.layer in layers {
      var i :| 0 <= i < |rows| && rows[i] == c;
      assert rows[i].id.layer == c.id.layer;
    }
  }

  lemma AllVisited(rows: seq<Candidate>, counts: map<nat, int>, lim: Limits, seeds: seq<Candidate>)
    requires OnePerLayer(Visited(rows, Sort(NatLe, LayersOf(rows))), counts, lim, seeds)
    ensures OnePerLayer(rows, counts, lim, seeds)
  {
    hide LayersOf, FitsBeside, ScoreFirst, Between, Sort;
    LayersAscend(rows);
    VisitedRows(rows, Sort(NatLe, LayersOf(rows)));
  }

  // ----- the restored plan -----

  ghost function Q2Slots(states: map<Slot, Qtype>, layer: nat): set<Slot> {
    set slot | slot in states && slot.id.layer == layer && states[slot] == Q2_K
  }

  ghost predicate CountsQ2(counts: map<nat, int>, states: map<Slot, Qtype>) {
    forall layer :: Count(counts, layer) == |Q2Slots(states, layer)|
  }

  method Q2Counts(states: map<Slot, Qtype>) returns (counts: map<nat, int>)
    ensures CountsQ2(counts, states)
  {
    counts := map[];
    ghost var seen: map<Slot, Qtype> := map[];
    var rest := states.Keys;
    assert forall layer :: Q2Slots(seen, layer) == {};
    while rest != {}
      invariant rest <= states.Keys && seen.Keys == states.Keys - rest
      invariant forall slot | slot in seen :: seen[slot] == states[slot]
      invariant forall layer :: Count(counts, layer) == |Q2Slots(seen, layer)|
      decreases |rest|
    {
      var slot :| slot in rest;
      var layer := slot.id.layer;
      ghost var next := seen[slot := states[slot]];
      forall other: nat
        ensures |Q2Slots(next, other)| == |Q2Slots(seen, other)| + if other == layer then Q2(states[slot]) else 0
      {
        OneMoreSlot(seen, slot, states[slot], other);
      }
      counts := counts[layer := Count(counts, layer) + Q2(states[slot])];
      rest := rest - {slot};
      seen := next;
    }
    assert seen == states;
  }

  lemma OneMoreSlot(states: map<Slot, Qtype>, slot: Slot, qtype: Qtype, layer: nat)
    ensures |Q2Slots(states[slot := qtype], layer)|
         <= |Q2Slots(states, layer)| + if layer == slot.id.layer then Q2(qtype) else 0
    ensures slot in states || |Q2Slots(states[slot := qtype], layer)|
                           == |Q2Slots(states, layer)| + if layer == slot.id.layer then Q2(qtype) else 0
  {
    var next := states[slot := qtype];
    if layer == slot.id.layer && qtype == Q2_K {
      assert Q2Slots(next, layer) == Q2Slots(states, layer) + {slot};
    } else {
      assert Q2Slots(next, layer) == Q2Slots(states, layer) - {slot};
    }
  }

  function RestoreOne(states: map<Slot, Qtype>, c: Candidate): map<Slot, Qtype> {
    states[Slot(c.id, Gate) := c.gate][Slot(c.id, Up) := c.up][Slot(c.id, Down) := c.down]
  }

  function Restore(states: map<Slot, Qtype>, selected: seq<Candidate>): map<Slot, Qtype> {
    if selected == [] then states
    else
      var n := |selected| - 1;
      RestoreOne(Restore(states, selected[..n]), selected[n])
  }

  lemma RestoreOneSlots(states: map<Slot, Qtype>, c: Candidate, slot: Slot)
    ensures slot in RestoreOne(states, c) <==> slot in states || slot.id == c.id
    ensures slot in RestoreOne(states, c) ==>
              RestoreOne(states, c)[slot] == if slot.id == c.id then c.Qtype(slot.projection) else states[slot]
  {
    assert slot == Slot(slot.id, slot.projection);
    match slot.projection
    case Gate =>
    case Up =>
    case Down =>
  }

  lemma InIds(cs: seq<Candidate>, c: Candidate)
    requires c in cs
    ensures c.id in Ids(cs)
  {
  }

  /** Restoring writes the three slots of each selected expert and no other. */
  lemma {:induction false} RestoredSlots(states: map<Slot, Qtype>, selected: seq<Candidate>, slot: Slot)
    requires DistinctIds(selected)
    ensures var after := Restore(states, selected);
            && (slot in after <==> slot in states || slot.id in Ids(selected))
            && (slot in after && slot.id !in Ids(selected) ==> after[slot] == states[slot])
            && (forall c | c in selected && c.id == slot.id :: after[slot] == c.Qtype(slot.projection))
  {
    hide Ids, RestoreOne;
    if selected == [] {
      IdsOfNone();
    } else {
      var n := |selected| - 1;
      RestoredSlots(states, selected[..n], slot);
      assert selected == selected[..n] + [selected[n]];
      IdsSnoc(selected[..n], selected[n]);
      RestoreOneSlots(Restore(states, selected[..n]), selected[n], slot);
      forall c | c in selected && c.id == slot.id ensures c.id in Ids(selected) {
        InIds(selected, c);
      }
    }
  }

  lemma RestoreOneCounts(states: map<Slot, Qtype>, c: Candidate, layer: nat)
    ensures |Q2Slots(RestoreOne(states, c), layer)| <= |Q2Slots(states, layer)| + Q2In(layer)(c)
    ensures (forall p: Projection :: Slot(c.id, p) !in states) ==>
              |Q2Slots(RestoreOne(states, c), layer)| == |Q2Slots(states, layer)| + Q2In(layer)(c)
  {
    hide Q2Slots, Q2;
    var one := states[Slot(c.id, Gate) := c.gate];
    var two := one[Slot(c.id, Up) := c.up];
    OneMoreSlot(states, Slot(c.id, Gate), c.gate, layer);
    OneMoreSlot(one, Slot(c.id, Up), c.up, layer);
    OneMoreSlot(two, Slot(c.id, Down), c.down, layer);
  }

  /** The running Q2 count bounds the restored plan's, and equals it when the base plan
      assigned nothing to the experts being restored. */
  lemma {:induction false} RestoredQ2(states: map<Slot, Qtype>, selected: seq<Candidate>, layer: nat)
    requires DistinctIds(selected)
    ensures |Q2Slots(Restore(states, selected), layer)| <= |Q2Slots(states, layer)| + Sum(Q2In(layer), selected)
    ensures (forall slot | slot in states :: slot.id !in Ids(selected)) ==>
              |Q2Slots(Restore(states, selected), layer)| == |Q2Slots(states, layer)| + Sum(Q2In(layer), selected)
  {
    if selected == [] {
    } else {
      hide Q2Slots, RestoreOne, Ids;
      var n := |selected| - 1;
      RestoredQ2(states, selected[..n], layer);
      assert selected == selected[..n] + [selected[n]];
      IdsSnoc(selected[..n], selected[n]);
      forall p: Projection {
        RestoredSlots(states, selected[..n], Slot(selected[n].id, p));
      }
      NotYetRestored(selected);
      RestoreOneCounts(Restore(states, selected[..n]), selected[n], layer);
    }
  }

  lemma NotYetRestored(selected: seq<Candidate>)
    requires selected != [] && DistinctIds(selected)
    ensures var n := |selected| - 1; selected[n].id !in Ids(selected[..n])
  {
  }

  function Retained(plan: Plan): (ids: set<Id>)
    ensures forall id :: id in ids <==> id.layer in plan.layers && id.expert < plan.expertCount && id !in plan.pruned
  {
    (set layer, expert | layer in plan.layers && 0 <= expert < plan.expertCount :: Id(layer, expert)) - plan.pruned
  }

  datatype Outcome =
    | DuplicateAssignment
    | TargetTooSmall
    | IncompleteDonor
    | Restored(groups: seq<Group>, retained: set<Id>, pruned: map<nat, seq<nat>>, resultBytes: int,
               selected: seq<Candidate>)

  /** The donor's encodings written over the base states, expert by expert. */
  method RestoreStates(before: map<Slot, Qtype>, selected: seq<Candidate>) returns (states: map<Slot, Qtype>)
    ensures states == Restore(before, selected)
  {
    states := before;
    for k := 0 to |selected|
      invariant states == Restore(before, selected[..k])
    {
      var c := selected[k];
      assert selected[..k + 1][..k] == selected[..k];
      states := states[Slot(c.id, Gate) := c.gate];
      states := states[Slot(c.id, Up) := c.up];
      states := states[Slot(c.id, Down) := c.down];
    }
    assert selected[..|selected|] == selected;
  }

  /** The experts of each layer that are not retained, in order. */
  ghost predicate Complement(layers: seq<nat>, count: nat, retained: set<Id>, pruned: map<nat, seq<nat>>) {
    && (forall layer :: layer in pruned <==> layer in layers)
    && (forall layer | layer in pruned ::
          && Ascending(pruned[layer])
          && forall x: nat :: x in pruned[layer] <==> x < count && Id(layer, x) !in retained)
  }

  method PrunedIn(layer: nat, count: nat, retained: set<Id>) returns (xs: seq<nat>)
    ensures Ascending(xs) && forall x: nat :: x in xs <==> x < count && Id(layer, x) !in retained
  {
    xs := [];
    for expert := 0 to count
      invariant Ascending(xs) && forall i | 0 <= i < |xs| :: xs[i] < expert
      invariant forall x: nat :: x in xs <==> x < expert && Id(layer, x) !in retained
    {
      if Id(layer, expert) !in retained {
        xs := xs + [expert];
      }
    }
  }

  method Pruned(layers: seq<nat>, count: nat, retained: set<Id>) returns (pruned: map<nat, seq<nat>>)
    ensures Complement(layers, count, retained, pruned)
  {
    pruned := map[];
    for i := 0 to |layers|
      invariant Complement(layers[..i], count, retained, pruned)
    {
      var xs := PrunedIn(layers[i], count, retained);
      TakeOneMore(layers, i);
      pruned := pruned[layers[i] := xs];
    }
    assert layers[..|layers|] == layers;
  }

  /** What a restored plan promises about the base plan, the donor and the target. */
  ghost predicate Promised(base: Plan, donor: Plan, d: Donor, target: int, before: map<Slot, Qtype>,
                           after: map<Slot, Qtype>, out: Outcome)
    requires out.Restored? && RootsArePositive(d)
  {
    var chosen := Ids(out.selected);
    // The output's groups expand to the final states, in which every retained base expert keeps
    // its encodings and each restored expert has the donor's.
    && NoOverlap(out.groups) && StatesOf(out.groups, after)
    && chosen <= Retained(donor) - Retained(base)
    && (forall slot | slot in before && slot.id !in chosen :: slot in after && after[slot] == before[slot])
    && (forall slot | slot in after && slot.id !in chosen :: slot in before)
    && (forall id, p: Projection | id in chosen ::
          Slot(id, p) in after && Slot(id, p) in d.states && after[Slot(id, p)] == d.states[Slot(id, p)])
    // Base and chosen experts are retained; the pruned lists hold the rest.
    && out.retained == Retained(base) + chosen
    && Complement(base.layers, base.expertCount, out.retained, out.pruned)
    // Bytes are conserved and stay within the target.
    && DistinctIds(out.selected)
    && (forall c | c in out.selected :: Complete(d, c.id) && c == CandidateOf(d, c.id) && c.score > 0.0)
    && out.resultBytes == base.resultBytes + Sum(BytesOf, out.selected) <= target
    // No layer exceeds its Q2 limit unless the base plan already did.
    && (forall layer ::
          |Q2Slots(after, layer)| <= |Q2Slots(before, layer)| || |Q2Slots(after, layer)| <= Count(base.maxQ2, layer))
  }

  /** No donor expert with a positive score could still be added. */
  ghost predicate NothingMoreFits(base: Plan, donor: Plan, d: Donor, target: int,
                                 before: map<Slot, Qtype>, out: Outcome)
    requires out.Restored? && RootsArePositive(d)
    requires forall id | id in Retained(donor) - Retained(base) :: Complete(d, id)
  {
    forall id | id in Retained(donor) - Retained(base) && id !in Ids(out.selected) && d.score(id) > 0.0 ::
      var c := CandidateOf(d, id);
      || out.resultBytes + c.bytes > target
      || |Q2Slots(before, id.layer)| + Sum(Q2In(id.layer), out.selected) + Q2Added(c) > Count(base.maxQ2, id.layer)
  }

  /** The picks are those of the two passes over the donor's candidates, the first `seeds` by layer. */
  ghost predicate PicksInOrder(base: Plan, donor: Plan, d: Donor, target: int, before: map<Slot, Qtype>,
                               selected: seq<Candidate>, seeds: nat)
    requires RootsArePositive(d) && base.resultBytes < target
  {
    var ids, lim := Retained(donor) - Retained(base), Limits(target - base.resultBytes, base.maxQ2);
    exists rows, counts ::
      && Rows(d, ids, rows) && CountsQ2(counts, before)
      && Greedy(rows, counts, lim, selected, seeds)
  }

  lemma SelectedKeepPromises(base: Plan, donor: Plan, d: Donor, target: int, before: map<Slot, Qtype>,
                             rows: seq<Candidate>, counts: map<nat, int>, out: Outcome)
    requires out.Restored? && RootsArePositive(d) && base.resultBytes < target
    requires Rows(d, Retained(donor) - Retained(base), rows)
    requires forall layer :: Count(counts, layer) == |Q2Slots(before, layer)|
    requires var l := Selection(rows, counts, Limits(target - base.resultBytes, base.maxQ2));
             out.selected == l.selected && out.resultBytes == base.resultBytes + l.used
    requires out.retained == Retained(base) + Ids(out.selected)
    requires Complement(base.layers, base.expertCount, out.retained, out.pruned)
    requires NoOverlap(out.groups) && StatesOf(out.groups, Restore(before, out.selected))
    ensures Promised(base, donor, d, target, before, Restore(before, out.selected), out)
    ensures NothingMoreFits(base, donor, d, target, before, out)
  {
    hide Selection, NoOverlap, StatesOf, Complement, Retained, Q2Slots, Sum, Restore, Seeded, CandidateOf, Complete;
    var lim := Limits(target - base.resultBytes, base.maxQ2);
    var l := Selection(rows, counts, lim);
    var after := Restore(before, out.selected);
    SelectionIsMaximal(rows, counts, lim);
    forall slot ensures
      && (slot in after <==> slot in before || slot.id in Ids(l.selected))
      && (slot in after && slot.id !in Ids(l.selected) ==> after[slot] == before[slot])
      && (forall c | c in l.selected && c.id == slot.id :: after[slot] == c.Qtype(slot.projection))
    {
      RestoredSlots(before, l.selected, slot);
    }
    forall id, p: Projection | id in Ids(l.selected)
      ensures Slot(id, p) in after && Slot(id, p) in d.states && after[Slot(id, p)] == d.states[Slot(id, p)]
    {
      var c :| c in l.selected && c.id == id;
      CandidateEncodes(d, c, p);
    }
    Q2StaysWithin(rows, counts, lim, l, before);
    NothingFits(base, donor, d, target, before, rows, counts, l, out);
  }

  lemma NothingFits(base: Plan, donor: Plan, d: Donor, target: int, before: map<Slot, Qtype>,
                    rows: seq<Candidate>, counts: map<nat, int>, l: Ledger, out: Outcome)
    requires out.Restored? && RootsArePositive(d) && base.resultBytes < target
    requires Rows(d, Retained(donor) - Retained(base), rows)
    requires forall layer :: Count(counts, layer) == |Q2Slots(before, layer)|
    requires out.selected == l.selected && out.resultBytes == base.resultBytes + l.used
    requires var lim := Limits(target - base.resultBytes, base.maxQ2);
             Accounted(rows, counts, lim, l)
             && forall c | c in rows && c.score > 0.0 && c.id !in Ids(l.selected) :: !CanAdd(l, lim, c)
    ensures forall id | id in Retained(donor) - Retained(base) :: Complete(d, id)
    ensures NothingMoreFits(base, donor, d, target, before, out)
  {
    hide Retained, Q2Slots, Sum, Ids, DistinctIds, Q2Added, Count, Q2In, CandidateOf;
    var lim := Limits(target - base.resultBytes, base.maxQ2);
    forall id | id in Retained(donor) - Retained(base)
      ensures Complete(d, id)
      ensures id !in Ids(out.selected) && d.score(id) > 0.0 ==>
                var c := CandidateOf(d, id);
                || out.resultBytes + c.bytes > target
                || |Q2Slots(before, id.layer)| + Sum(Q2In(id.layer), out.selected) + Q2Added(c)
                   > Count(base.maxQ2, id.layer)
    {
      var k :| 0 <= k < |rows| && rows[k].id == id;
      assert rows[k] in rows;
      CandidateScore(d, id);
    }
  }

  lemma CandidateScore(d: Donor, id: Id)
    requires RootsArePositive(d) && Complete(d, id)
    ensures CandidateOf(d, id).id == id && CandidateOf(d, id).score == d.score(id)
  {
  }

  lemma CandidateEncodes(d: Donor, c: Candidate, p: Projection)
    requires RootsArePositive(d) && Complete(d, c.id) && c == CandidateOf(d, c.id)
    ensures Slot(c.id, p) in d.states && c.Qtype(p) == d.states[Slot(c.id, p)]
  {
  }

  lemma Q2StaysWithin(rows: seq<Candidate>, counts: map<nat, int>, lim: Limits, l: Ledger, before: map<Slot, Qtype>)
    requires Accounted(rows, counts, lim, l)
    requires forall layer :: Count(counts, layer) == |Q2Slots(before, layer)|
    ensures forall layer ::
              || |Q2Slots(Restore(before, l.selected), layer)| <= |Q2Slots(before, layer)|
              || |Q2Slots(Restore(before, l.selected), layer)| <= Count(lim.q2, layer)
  {
    hide Q2Slots, Restore, Count;
    forall layer: nat
      ensures || |Q2Slots(Restore(before, l.selected), layer)| <= |Q2Slots(before, layer)|
              || |Q2Slots(Restore(before, l.selected), layer)| <= Count(lim.q2, layer)
    {
      RestoredQ2(before, l.selected, layer);
      if forall c | c in l.selected :: c.id.layer != layer {
        NoneInLayer(l.selected, layer);
      }
    }
  }

  lemma {:induction false} NoneInLayer(cs: seq<Candidate>, layer: nat)
    requires forall c | c in cs :: c.id.layer != layer
    ensures Sum(Q2In(layer), cs) == 0
  {
    if cs == [] {
    } else {
      NoneInLayer(cs[..|cs| - 1], layer);
    }
  }

  lemma PicksAreInOrder(base: Plan, donor: Plan, d: Donor, target: int, before: map<Slot, Qtype>,
                        rows: seq<Candidate>, counts: map<nat, int>, selected: seq<Candidate>) returns (seeds: nat)
    requires RootsArePositive(d) && base.resultBytes < target
    requires Rows(d, Retained(donor) - Retained(base), rows)
    requires CountsQ2(counts, before)
    requires selected == Selection(rows, counts, Limits(target - base.resultBytes, base.maxQ2)).selected
    ensures PicksInOrder(base, donor, d, target, before, selected, seeds)
  {
    hide Rows, Greedy, Selection, Seeded, Retained, CountsQ2;
    var lim := Limits(target - base.resultBytes, base.maxQ2);
    SelectionIsGreedy(rows, counts, lim);
    seeds := |Seeded(rows, counts, lim).selected|;
    var ids := Retained(donor) - Retained(base);
    assert Rows(d, ids, rows) && CountsQ2(counts, before) && Greedy(rows, counts, lim, selected, seeds);
  }

  lemma RestoredCounts(base: Plan, before: map<Slot, Qtype>, after: map<Slot, Qtype>, selected: seq<Candidate>)
    requires DistinctIds(selected) && after == Restore(before, selected)
    requires forall id | id in Ids(selected) :: id !in Retained(base)
    ensures (forall slot | slot in before :: slot.id in Retained(base)) ==>
              forall layer :: |Q2Slots(after, layer)| == |Q2Slots(before, layer)| + Sum(Q2In(layer), selected)
  {
    hide Retained, Q2Slots, Restore, Sum, Ids, DistinctIds;
    if forall slot | slot in before :: slot.id in Retained(base) {
      forall layer: nat
        ensures |Q2Slots(after, layer)| == |Q2Slots(before, layer)| + Sum(Q2In(layer), selected)
      {
        RestoredQ2(before, selected, layer);
      }
    }
  }

  /** `build`. The donor's experts that the base pruned are the candidates; the base plan's per-layer
      Q2 limits must cover their layers. */
  method Build(base: Plan, donor: Plan, bytes: map<Slot, int>, score: Id -> real, root: int -> real, target: int)
    returns (out: Outcome, ghost before: map<Slot, Qtype>, ghost after: map<Slot, Qtype>, ghost d: Donor,
             ghost seeds: nat)
    requires forall cost: int | cost > 0 :: root(cost) > 0.0
    requires forall id | id in Retained(donor) - Retained(base) :: id.layer in base.maxQ2
    ensures d.bytes == bytes && d.score == score && d.root == root
    ensures out == DuplicateAssignment <==> !NoOverlap(base.groups) || !NoOverlap(donor.groups)
    ensures out != DuplicateAssignment ==> StatesOf(base.groups, before) && StatesOf(donor.groups, d.states)
    ensures out == TargetTooSmall <==> out != DuplicateAssignment && target <= base.resultBytes
    ensures out == IncompleteDonor <==>
              && out != DuplicateAssignment && target > base.resultBytes
              && exists id :: id in Retained(donor) - Retained(base) && !Complete(d, id)
    ensures out.Restored? ==> Promised(base, donor, d, target, before, after, out)
    ensures out.Restored? ==> (forall id | id in Retained(donor) - Retained(base) :: Complete(d, id))
                              && NothingMoreFits(base, donor, d, target, before, out)
    ensures out.Restored? ==> PicksInOrder(base, donor, d, target, before, out.selected, seeds)
    ensures out.Restored? && (forall slot | slot in before :: slot.id in Retained(base)) ==>
              forall layer :: |Q2Slots(after, layer)| == |Q2Slots(before, layer)| + Sum(Q2In(layer), out.selected)
  {
    hide NoOverlap, StatesOf, Complement, Q2Slots, Sum, Restore, Retained, CandidateOf, Complete, Selection,
         NothingMoreFits, PicksInOrder, Rows;
    before, after, d, seeds := map[], map[], Donor(map[], bytes, score, root), 0;
    var baseStates := StateMap(base.groups);
    if baseStates.Duplicate? {
      return DuplicateAssignment, before, after, d, 0;
    }
    before := baseStates.table;
    var donorStates := StateMap(donor.groups);
    if donorStates.Duplicate? {
      return DuplicateAssignment, before, after, d, 0;
    }
    var source := Donor(donorStates.table, bytes, score, root);
    d := source;
    var baseRetained := Retained(base);
    var donorOnly := Retained(donor) - baseRetained;
    if target <= base.resultBytes {
      return TargetTooSmall, before, after, d, 0;
    }
    var rows := Candidates(source, donorOnly);
    if rows.None? {
      return IncompleteDonor, before, after, d, 0;
    }
    var counts := Q2Counts(baseStates.table);
    var selected, used := Select(rows.value, counts, Limits(target - base.resultBytes, base.maxQ2));
    var states := RestoreStates(baseStates.table, selected);
    after := states;
    var retained := baseRetained + Ids(selected);
    var pruned := Pruned(base.layers, base.expertCount, retained);
    var groups := GroupAssignments(states);
    out := Restored(groups, retained, pruned, base.resultBytes + used, selected);
    SelectedKeepPromises(base, donor, d, target, before, rows.value, counts, out);
    seeds := PicksAreInOrder(base, donor, d, target, before, rows.value, counts, selected);
    RestoredCounts(base, before, after, selected);
  }
}
