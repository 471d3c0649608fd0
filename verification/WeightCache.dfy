/** The byte-budgeted LRU cache of expert weights (tools/memra_cpu_experts.cpp). */
module WeightCache {
  import opened Options
  import opened Sorting

  datatype FileKey = FileKey(device: nat, inode: nat, size: nat, seconds: int, nanoseconds: int)

  datatype Key = Key(file: FileKey, offset: nat, length: nat)

  /** `lru` lists the keys from the oldest to the most recently used. */
  datatype Cache<B> = Cache(budget: nat, lru: seq<Key>, entries: map<Key, B>, used: nat)

  function LengthOf(key: Key): nat {
    key.length
  }

  /** The list and the index name the same keys, once each, and `used` is their total length. */
  ghost predicate Coherent<B>(c: Cache<B>) {
    && Distinct(c.lru)
    && (forall key :: key in c.lru <==> key in c.entries)
    && c.used == Sum(LengthOf, c.lru)
  }

  function Without(keys: seq<Key>, key: Key): seq<Key> {
    if keys == [] then [] else (if keys[0] == key then [] else [keys[0]]) + Without(keys[1..], key)
  }

  lemma {:induction false} WithoutHolds(keys: seq<Key>, key: Key)
    ensures forall other :: other in Without(keys, key) <==> other in keys && other != key
    ensures Distinct(keys) ==> Distinct(Without(keys, key))
    ensures key !in keys ==> Without(keys, key) == keys
  {
    if keys == [] {
    } else {
      WithoutHolds(keys[1..], key);
      TailIsDistinct(keys);
      assert keys == [keys[0]] + keys[1..];
    }
  }

  lemma TailIsDistinct(keys: seq<Key>)
    requires keys != []
    ensures Distinct(keys) ==> Distinct(keys[1..]) && keys[0] !in keys[1..]
  {
    var rest := keys[1..];
    if Distinct(keys) {
      forall i | 0 <= i < |rest| ensures rest[i] == keys[i + 1] && rest[i] != keys[0] {
      }
    }
  }

  lemma {:induction false} WithoutSum(keys: seq<Key>, key: Key)
    requires Distinct(keys) && key in keys
    ensures Sum(LengthOf, keys) == Sum(LengthOf, Without(keys, key)) + key.length
  {
    hide Sum;
    assert keys == [keys[0]] + keys[1..];
    SumConcat(LengthOf, [keys[0]], keys[1..]);
    SumOne(keys[0]);
    TailIsDistinct(keys);
    if keys[0] == key {
      WithoutHolds(keys[1..], key);
      assert Without(keys, key) == keys[1..];
    } else {
      WithoutSum(keys[1..], key);
      SumConcat(LengthOf, [keys[0]], Without(keys[1..], key));
    }
  }

  lemma SumOne(key: Key)
    ensures Sum(LengthOf, [key]) == key.length
  {
    assert [key][..0] == [];
  }

  /** `splice` to the back. */
  function Touched<B>(c: Cache<B>, key: Key): Cache<B> {
    c.(lru := Without(c.lru, key) + [key])
  }

  /** A touch moves the key from its place to the end, and no other key changes its place among the
      others. */
  lemma {:induction false} TouchMovesOne(keys: seq<Key>, key: Key) returns (i: nat)
    requires Distinct(keys) && key in keys
    ensures i < |keys| && keys[i] == key && Without(keys, key) == keys[..i] + keys[i + 1..]
  {
    var first, rest := keys[0], keys[1..];
    TailIsDistinct(keys);
    WithoutHolds(rest, key);
    hide Distinct;
    if first == key {
      i := 0;
      assert keys[..0] == [];
    } else {
      var k := TouchMovesOne(rest, key);
      i := k + 1;
      SkipFirst(keys, k);
    }
  }

  lemma SkipFirst(keys: seq<Key>, k: nat)
    requires k + 1 < |keys|
    ensures keys[..k + 1] + keys[k + 2..] == [keys[0]] + (keys[1..][..k] + keys[1..][k + 1..])
  {
    assert keys[..k + 1] == [keys[0]] + keys[1..][..k];
    assert keys[k + 2..] == keys[1..][k + 1..];
  }

  /** The eviction loop: the oldest key goes while the bytes exceed the budget. */
  function Evicted<B>(c: Cache<B>): Cache<B>
    decreases |c.lru|
  {
    if c.used > c.budget && c.lru != [] then
      var key := c.lru[0];
      Evicted(c.(lru := c.lru[1..], entries := c.entries - {key},
                 used := if c.used >= key.length then c.used - key.length else 0))
    else c
  }

  function Added<B>(c: Cache<B>, key: Key, buffer: B, cold: bool): Cache<B> {
    c.(lru := if cold then [key] + c.lru else c.lru + [key], entries := c.entries[key := buffer],
       used := c.used + key.length)
  }

  /** `insert_at`: nothing for an oversized buffer or with no budget; a key already present is only
      made recent, and not even that by a cold insert. */
  function Inserted<B>(c: Cache<B>, key: Key, buffer: B, cold: bool): Cache<B> {
    if c.budget == 0 || key.length > c.budget then c
    else if key in c.entries then (if cold then c else Touched(c, key))
    else Evicted(Added(c, key, buffer, cold))
  }

  // ----- what eviction drops -----

  lemma DropOldest<B>(c: Cache<B>)
    requires Coherent(c) && c.lru != []
    ensures c.used >= c.lru[0].length
    ensures Coherent(c.(lru := c.lru[1..], entries := c.entries - {c.lru[0]}, used := c.used - c.lru[0].length))
  {
    hide Sum;
    assert c.lru == [c.lru[0]] + c.lru[1..];
    SumConcat(LengthOf, [c.lru[0]], c.lru[1..]);
    SumOne(c.lru[0]);
  }

  /** Eviction drops the shortest oldest prefix that brings the rest within budget, and nothing else. */
  lemma {:induction false} EvictsShortestPrefix<B>(c: Cache<B>) returns (n: nat)
    requires Coherent(c)
    ensures Coherent(Evicted(c)) && Evicted(c).used <= c.budget && Evicted(c).budget == c.budget
    ensures n <= |c.lru| && Evicted(c).lru == c.lru[n..]
    ensures forall m: nat | m < n :: Sum(LengthOf, c.lru[m..]) > c.budget
    ensures forall key | key in Evicted(c).entries :: key in c.entries && Evicted(c).entries[key] == c.entries[key]
    decreases |c.lru|
  {
    hide Sum;
    NothingToSum();
    if c.used > c.budget && c.lru != [] {
      DropOldest(c);
      var rest := c.(lru := c.lru[1..], entries := c.entries - {c.lru[0]}, used := c.used - c.lru[0].length);
      var k := EvictsShortestPrefix(rest);
      n := k + 1;
      forall m: nat | m < n ensures Sum(LengthOf, c.lru[m..]) > c.budget {
        if m == 0 {
          assert c.lru[0..] == c.lru;
        } else {
          assert c.lru[1..][m - 1..] == c.lru[m..];
        }
      }
    } else {
      n := 0;
    }
  }

  lemma NothingToSum()
    ensures Sum(LengthOf, []) == 0
  {
  }

  lemma EvictOne<B>(c: Cache<B>)
    requires c.lru != [] && c.used > c.budget ==> c.used >= c.lru[0].length
    ensures Evicted(c) == if c.used > c.budget && c.lru != [] then
                            Evicted(c.(lru := c.lru[1..], entries := c.entries - {c.lru[0]},
                                      used := c.used - c.lru[0].length))
                          else c
  {
  }

  lemma AddedIsCoherent<B>(c: Cache<B>, key: Key, buffer: B, cold: bool)
    requires Coherent(c) && key !in c.entries
    ensures Coherent(Added(c, key, buffer, cold))
  {
    hide Sum;
    SumConcat(LengthOf, [key], c.lru);
    SumConcat(LengthOf, c.lru, [key]);
    SumOne(key);
  }

  lemma TouchedIsCoherent<B>(c: Cache<B>, key: Key)
    requires Coherent(c) && key in c.entries
    ensures Coherent(Touched(c, key))
  {
    hide Sum;
    WithoutHolds(c.lru, key);
    WithoutSum(c.lru, key);
    SumConcat(LengthOf, Without(c.lru, key), [key]);
    SumOne(key);
  }

  /** Every insert keeps the index coherent, the bytes within budget and the other buffers' identity. */
  lemma InsertKeepsAccounts<B>(c: Cache<B>, key: Key, buffer: B, cold: bool)
    requires Coherent(c)
    ensures var next := Inserted(c, key, buffer, cold);
            && Coherent(next) && next.budget == c.budget
            && (c.used <= c.budget ==> next.used <= c.budget)
            && (forall k | k in next.entries ::
                  if k in c.entries then next.entries[k] == c.entries[k] else k == key && next.entries[k] == buffer)
  {
    hide Sum, Coherent, Evicted;
    if c.budget == 0 || key.length > c.budget {
    } else if key in c.entries {
      TouchedIsCoherent(c, key);
    } else {
      AddedIsCoherent(c, key, buffer, cold);
      var _ := EvictsShortestPrefix(Added(c, key, buffer, cold));
    }
  }

  /** A demand insert that fits the budget leaves its key in the cache, as the most recent one. */
  lemma DemandInsertStays<B>(c: Cache<B>, key: Key, buffer: B)
    requires Coherent(c) && 0 < c.budget && key.length <= c.budget
    ensures var next := Inserted(c, key, buffer, false);
            && key in next.entries && next.lru != [] && next.lru[|next.lru| - 1] == key
            && (key !in c.entries ==> next.entries[key] == buffer)
  {
    hide Sum, Evicted;
    if key in c.entries {
      TouchedIsCoherent(c, key);
    } else {
      AddedIsCoherent(c, key, buffer, false);
      LastIsKept(Added(c, key, buffer, false));
    }
  }

  /** Eviction stops before the most recent entry, if that entry alone is within budget. */
  lemma LastIsKept<B>(c: Cache<B>)
    requires Coherent(c) && c.lru != [] && c.lru[|c.lru| - 1].length <= c.budget
    ensures var last, next := c.lru[|c.lru| - 1], Evicted(c);
            && next.lru != [] && next.lru[|next.lru| - 1] == last
            && last in next.entries && next.entries[last] == c.entries[last]
  {
    hide Sum, Evicted;
    var n := EvictsShortestPrefix(c);
    if n == |c.lru| {
      assert c.lru[|c.lru| - 1..] == [c.lru[|c.lru| - 1]];
      SumOne(c.lru[|c.lru| - 1]);
    }
    assert Evicted(c).lru[|Evicted(c).lru| - 1] in Evicted(c).lru;
  }

  /** A cold insert within budget evicts no resident entry: it enters only if there is room for it. */
  lemma ColdInsertEvictsNobody<B>(c: Cache<B>, key: Key, buffer: B)
    requires Coherent(c) && c.used <= c.budget && key !in c.entries && c.budget > 0 && key.length <= c.budget
    ensures Inserted(c, key, buffer, true)
         == if c.used + key.length <= c.budget then Added(c, key, buffer, true) else c
  {
    var added := Added(c, key, buffer, true);
    if c.used + key.length > c.budget {
      assert added.lru[1..] == c.lru;
      assert added.entries - {key} == c.entries;
      assert Evicted(added) == Evicted(c);
    }
  }

  // ----- whole runs -----

  datatype Access<B> = Find(key: Key) | Insert(key: Key, buffer: B, cold: bool)

  function Accessed<B>(c: Cache<B>, a: Access<B>): Cache<B> {
    match a
    case Find(key) => if key in c.entries then Touched(c, key) else c
    case Insert(key, buffer, cold) => Inserted(c, key, buffer, cold)
  }

  function AfterRun<B>(c: Cache<B>, run: seq<Access<B>>): Cache<B> {
    if run == [] then c else Accessed(AfterRun(c, run[..|run| - 1]), run[|run| - 1])
  }

  /** Any run that starts coherent and within budget stays so; a run that starts over budget, as a
      warm reload may leave it, stays coherent. */
  lemma {:induction false} RunKeepsAccounts<B>(c: Cache<B>, run: seq<Access<B>>)
    requires Coherent(c)
    ensures var end := AfterRun(c, run);
            Coherent(end) && end.budget == c.budget && (c.used <= c.budget ==> end.used <= c.budget)
  {
    hide Coherent, Inserted, Touched;
    if run == [] {
    } else {
      var n := |run| - 1;
      RunKeepsAccounts(c, run[..n]);
      var before := AfterRun(c, run[..n]);
      match run[n]
      case Find(key) =>
        if key in before.entries {
          TouchedIsCoherent(before, key);
          TouchedBytes(before, key);
        }
      case Insert(key, buffer, cold) =>
        InsertKeepsAccounts(before, key, buffer, cold);
    }
  }

  lemma TouchedBytes<B>(c: Cache<B>, key: Key)
    ensures Touched(c, key).used == c.used && Touched(c, key).budget == c.budget && Touched(c, key).entries == c.entries
  {
  }

  // ----- the cache object -----

  class WeightCache<B> {
    const budget: nat
    var lru: seq<Key>
    var entries: map<Key, B>
    var used: nat

    ghost function State(): Cache<B>
      reads this
    {
      Cache(budget, lru, entries, used)
    }

    constructor (budget: nat)
      ensures this.budget == budget && State() == Cache(budget, [], map[], 0)
    {
      this.budget := budget;
      lru, entries, used := [], map[], 0;
    }

    /** A hit makes the key the most recent one. */
    method Find(key: Key) returns (buffer: Option<B>)
      requires Coherent(State())
      modifies this
      ensures Coherent(State())
      ensures buffer == if key in old(entries) then Some(old(entries)[key]) else None
      ensures State() == if key in old(entries) then Touched(old(State()), key) else old(State())
      ensures key in old(entries) ==>
                && entries == old(entries) && used == old(used)
                && exists i | 0 <= i < |old(lru)| ::
                     old(lru)[i] == key && lru == old(lru)[..i] + old(lru)[i + 1..] + [key]
    {
      if key !in entries {
        return None;
      }
      ghost var i := TouchMovesOne(lru, key);
      TouchedIsCoherent(State(), key);
      lru := Without(lru, key) + [key];
      buffer := Some(entries[key]);
    }

    method InsertAt(key: Key, buffer: B, cold: bool)
      requires Coherent(State())
      modifies this
      ensures Coherent(State()) && State() == Inserted(old(State()), key, buffer, cold)
    {
      hide Sum, Without, Evicted, Coherent;
      InsertKeepsAccounts(State(), key, buffer, cold);
      if budget == 0 || key.length > budget {
        return;
      }
      if key in entries {
        if !cold {
          lru := Without(lru, key) + [key];
        }
        return;
      }
      AddedIsCoherent(State(), key, buffer, cold);
      lru := if cold then [key] + lru else lru + [key];
      entries := entries[key := buffer];
      used := used + key.length;
      assert State() == Added(old(State()), key, buffer, cold);
      while used > budget && lru != []
        invariant Coherent(State())
        invariant Evicted(State()) == Inserted(old(State()), key, buffer, cold)
        decreases |lru|
      {
        DropOldest(State());
        EvictOne(State());
        var oldest := lru[0];
        used := used - oldest.length;
        lru := lru[1..];
        entries := entries - {oldest};
      }
      EvictOne(State());
    }
  }
}
