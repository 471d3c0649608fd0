/** What becomes of a weight buffer (tools/memra_cpu_experts.cpp): a read that runs its course makes
    its key resident, a speculative one makes it promotable, and a block let go is taken again. */
module ExpertLifecycle {
  import opened Blocks
  import opened ExpertMemory
  import opened Options
  import opened Sorting
  import opened WeightCache
  import P = BlockPool
  import X = PrefetchAnnex

  lemma OneMoreStep(src: Source, s: State, run: seq<Action>, a: Action)
    requires Execute(src, s, run).Some? && Apply(src, Execute(src, s, run).value, a).Some?
    ensures Execute(src, s, run + [a]) == Apply(src, Execute(src, s, run).value, a)
  {
    hide Apply;
    assert (run + [a])[..|run|] == run;
  }

  /** All bytes of the first `n` reads of a slot arrive, each read landing before the next begins. */
  function Landings(id: nat, jobs: seq<Job>, n: nat): seq<Action>
    requires n <= |jobs|
  {
    if n == 0 then [] else Landings(id, jobs, n - 1) + [Arrive(id, n - 1, jobs[n - 1].length), Land(id, n - 1)]
  }

  function Finished(job: Job): Job {
    job.(done := job.length, status := Landed)
  }

  /** Reads change a slot's jobs and bytes in memory, and nothing else. */
  ghost predicate OnlyReads(s: State, next: State, id: nat)
    requires id in s.slots
  {
    && next == s.(bytes := next.bytes, slots := next.slots)
    && next.slots.Keys == s.slots.Keys
    && next.slots[id] == s.slots[id].(jobs := next.slots[id].jobs)
    && |next.slots[id].jobs| == |s.slots[id].jobs|
  }

  lemma OneLanding(src: Source, s: State, id: nat, j: nat)
    requires Sized(src) && Inv(src, s) && s.phase.Up? && id in s.slots && j < |s.slots[id].jobs|
    requires s.slots[id].jobs[j].status == Running && s.slots[id].jobs[j].done == 0
    ensures var arrive, land := Arrive(id, j, s.slots[id].jobs[j].length), Land(id, j);
            && Apply(src, s, arrive).Some? && Apply(src, Apply(src, s, arrive).value, land).Some?
            && var end := Apply(src, Apply(src, s, arrive).value, land).value;
               && Inv(src, end) && OnlyReads(s, end, id)
               && end.slots[id].jobs == s.slots[id].jobs[j := Finished(s.slots[id].jobs[j])]
  {
    hide Inv, Apply;
    var job := s.slots[id].jobs[j];
    BytesArrive(src, s, id, j);
    var arrived := Apply(src, s, Arrive(id, j, job.length)).value;
    ReadLands(src, arrived, id, j);
    assert s.slots[id].jobs[j := job.(done := job.length)][j := Finished(job)] == s.slots[id].jobs[j := Finished(job)];
  }

  lemma BytesArrive(src: Source, s: State, id: nat, j: nat)
    requires Sized(src) && Inv(src, s) && s.phase.Up? && id in s.slots && j < |s.slots[id].jobs|
    requires s.slots[id].jobs[j].status == Running && s.slots[id].jobs[j].done == 0
    ensures var job := s.slots[id].jobs[j];
            var arrive := Arrive(id, j, job.length);
            && Apply(src, s, arrive).Some? && Inv(src, Apply(src, s, arrive).value)
            && var end := Apply(src, s, arrive).value;
               OnlyReads(s, end, id) && end.slots[id].jobs == s.slots[id].jobs[j := job.(done := job.length)]
  {
    JobIsInside(src, s, id, j);
    hide Inv, Apply;
    ArriveDoes(src, s, id, j);
    StepKeepsInv(src, s, Arrive(id, j, s.slots[id].jobs[j].length));
  }

  lemma ArriveDoes(src: Source, s: State, id: nat, j: nat)
    requires s.phase.Up? && id in s.slots && j < |s.slots[id].jobs|
    requires s.slots[id].jobs[j].status == Running && s.slots[id].jobs[j].done == 0
    requires s.slots[id].jobs[j].offset + s.slots[id].jobs[j].length <= |src(s.slots[id].key)|
    ensures var job := s.slots[id].jobs[j];
            var arrive := Arrive(id, j, job.length);
            && Apply(src, s, arrive).Some?
            && var end := Apply(src, s, arrive).value;
               OnlyReads(s, end, id) && end.slots[id].jobs == s.slots[id].jobs[j := job.(done := job.length)]
  {
    hide Written;
  }

  lemma ReadLands(src: Source, s: State, id: nat, j: nat)
    requires Sized(src) && Inv(src, s) && s.phase.Up? && id in s.slots && j < |s.slots[id].jobs|
    requires s.slots[id].jobs[j].status == Running && s.slots[id].jobs[j].done == s.slots[id].jobs[j].length
    ensures Apply(src, s, Land(id, j)).Some? && Inv(src, Apply(src, s, Land(id, j)).value)
    ensures var end := Apply(src, s, Land(id, j)).value;
            OnlyReads(s, end, id) && end.slots[id].jobs == s.slots[id].jobs[j := Finished(s.slots[id].jobs[j])]
  {
    hide Inv;
    StepKeepsInv(src, s, Land(id, j));
  }

  lemma JobIsInside(src: Source, s: State, id: nat, j: nat)
    requires Inv(src, s) && s.phase.Up? && id in s.slots && j < |s.slots[id].jobs|
    ensures var job := s.slots[id].jobs[j];
            job.offset + job.length <= |src(s.slots[id].key)|
  {
    hide IndexHolds, Apart, Positive, CacheHolds, AnnexHolds, Cover, Exclusive, Intact, Agrees;
    assert SlotHolds(src, s, id);
  }

  /** The reads of a fresh slot can all land. */
  lemma {:induction false} AllLand(src: Source, s: State, id: nat, n: nat)
    requires Sized(src) && Inv(src, s) && s.phase.Up? && id in s.slots && n <= |s.slots[id].jobs|
    requires forall j | 0 <= j < |s.slots[id].jobs| ::
               s.slots[id].jobs[j].status == Running && s.slots[id].jobs[j].done == 0
    ensures Execute(src, s, Landings(id, s.slots[id].jobs, n)).Some?
    ensures var jobs := s.slots[id].jobs;
            var end := Execute(src, s, Landings(id, jobs, n)).value;
            && Inv(src, end) && OnlyReads(s, end, id)
            && (forall j | 0 <= j < |jobs| :: end.slots[id].jobs[j] == if j < n then Finished(jobs[j]) else jobs[j])
  {
    hide Inv, Apply;
    if n > 0 {
      var jobs := s.slots[id].jobs;
      AllLand(src, s, id, n - 1);
      var run := Landings(id, jobs, n - 1);
      var before := Execute(src, s, run).value;
      var arrive, land := Arrive(id, n - 1, jobs[n - 1].length), Land(id, n - 1);
      OneLanding(src, before, id, n - 1);
      OneMoreStep(src, s, run, arrive);
      OneMoreStep(src, s, run + [arrive], land);
      assert run + [arrive, land] == run + [arrive] + [land];
    }
  }

  // ----- a demand read -----

  /** The whole of a demand read. */
  function DemandRead(id: nat, key: Key, mirrored: bool, allocation: Block): seq<Action> {
    var jobs := JobsFor(key.length, mirrored);
    [StartRead(id, key, mirrored, allocation)] + Landings(id, jobs, |jobs|) + [InsertDemand(id)]
  }

  /** A started read has a slot with its reads still to run. */
  ghost predicate Begun(next: State, id: nat, key: Key, mirrored: bool, speculative: bool) {
    && id in next.slots && next.slots[id].key == key && next.slots[id].speculative == speculative
    && next.slots[id].jobs == JobsFor(key.length, mirrored)
    && next.slots[id].block.size == P.PoolBytes(key.length)
  }

  lemma FreshJobs(length: nat, mirrored: bool)
    ensures var jobs := JobsFor(length, mirrored);
            jobs != [] && forall j | 0 <= j < |jobs| :: jobs[j].status == Running && jobs[j].done == 0
  {
  }

  lemma StartBegins(src: Source, s: State, id: nat, key: Key, mirrored: bool, allocation: Block)
    requires Sized(src) && Inv(src, s) && s.phase.Up? && id !in s.slots && key.length > 0
    requires Allocatable(s, P.PoolBytes(key.length), allocation)
    ensures var start := StartRead(id, key, mirrored, allocation);
            && Apply(src, s, start).Some? && Inv(src, Apply(src, s, start).value)
            && var next := Apply(src, s, start).value;
               next.phase.Up? && next.cache == s.cache && next.annex == s.annex && Begun(next, id, key, mirrored, false)
  {
    hide Inv, Allocatable, JobsFor;
    StepKeepsInv(src, s, StartRead(id, key, mirrored, allocation));
    BlockHasSize(s, P.PoolBytes(key.length), allocation);
    hide TakeBlock;
  }

  lemma BlockHasSize(s: State, size: nat, allocation: Block)
    requires Allocatable(s, size, allocation)
    ensures TakeBlock(s, size, allocation).0.size == size
    ensures var next := TakeBlock(s, size, allocation).1;
            next.phase == s.phase && next.cache == s.cache && next.annex == s.annex && next.slots == s.slots
  {
    P.TakeIsLast(s.pool.free, size);
    hide P.Take, P.OfSize;
  }

  /** A demand read that runs its course leaves its key in the cache as the most recent one, in a buffer
      with the key's bytes, as long as the budget holds the key at all. */
  lemma DemandReadIsCached(src: Source, s: State, id: nat, key: Key, mirrored: bool, allocation: Block)
    requires Sized(src) && Inv(src, s) && s.phase.Up? && id !in s.slots && key.length > 0
    requires Allocatable(s, P.PoolBytes(key.length), allocation) && key.length <= s.cache.budget
    ensures var run := DemandRead(id, key, mirrored, allocation);
            && Execute(src, s, run).Some? && Inv(src, Execute(src, s, run).value)
            && var end := Execute(src, s, run).value;
               && end.phase.Up? && end.annex == s.annex
               && end.cache.lru != [] && end.cache.lru[|end.cache.lru| - 1] == key && key in end.cache.entries
               && Intact(src, end.bytes, end.cache.entries[key], key)
               && id in end.slots && Intact(src, end.bytes, end.slots[id].block, key)
               && (key !in s.cache.entries ==> end.cache.entries[key] == end.slots[id].block)
  {
    hide Inv, Allocatable, JobsFor, Intact, Apply, Inserted;
    var jobs := JobsFor(key.length, mirrored);
    var start := StartRead(id, key, mirrored, allocation);
    FreshJobs(key.length, mirrored);
    StartBegins(src, s, id, key, mirrored, allocation);
    var begun := Apply(src, s, start).value;
    OneMoreStep(src, s, [], start);
    assert [] + [start] == [start];
    AllLand(src, begun, id, |jobs|);
    RunJoins(src, s, [start], Landings(id, jobs, |jobs|));
    var run := [start] + Landings(id, jobs, |jobs|);
    var landed := Execute(src, s, run).value;
    LandedInserts(src, landed, id);
    OneMoreStep(src, s, run, InsertDemand(id));
  }

  lemma LandedInserts(src: Source, s: State, id: nat)
    requires Sized(src) && Inv(src, s) && s.phase.Up? && id in s.slots && !s.slots[id].speculative
    requires AllLanded(s.slots[id]) && 0 < s.slots[id].key.length <= s.cache.budget
    ensures Apply(src, s, InsertDemand(id)).Some? && Inv(src, Apply(src, s, InsertDemand(id)).value)
    ensures var end, key := Apply(src, s, InsertDemand(id)).value, s.slots[id].key;
            && end == s.(cache := end.cache)
            && end.cache.lru != [] && end.cache.lru[|end.cache.lru| - 1] == key && key in end.cache.entries
            && Intact(src, end.bytes, end.cache.entries[key], key) && Intact(src, end.bytes, end.slots[id].block, key)
            && (key !in s.cache.entries ==> end.cache.entries[key] == end.slots[id].block)
  {
    hide Inv, Inserted, AllLanded, Intact, Coherent, CacheHolds;
    StepKeepsInv(src, s, InsertDemand(id));
    CacheIsCoherent(src, s);
    DemandInsertStays(s.cache, s.slots[id].key, s.slots[id].block);
    var end := Apply(src, s, InsertDemand(id)).value;
    assert end == s.(cache := Inserted(s.cache, s.slots[id].key, s.slots[id].block, false));
    hide Apply;
    HeldByCache(src, end, s.slots[id].key);
    HeldBySlot(src, end, id);
  }

  lemma CacheIsCoherent(src: Source, s: State)
    requires Inv(src, s) && s.phase.Up?
    ensures Coherent(s.cache) && X.WithinBudget(s.annex)
  {
    hide IndexHolds, Apart, Positive, SlotsHold, Holds, Coherent, X.WithinBudget;
  }

  lemma HeldByCache(src: Source, s: State, key: Key)
    requires Inv(src, s) && s.phase.Up? && key in s.cache.entries
    ensures Intact(src, s.bytes, s.cache.entries[key], key)
  {
    hide IndexHolds, Apart, Positive, SlotsHold, AnnexHolds, Coherent, Intact;
  }

  lemma HeldBySlot(src: Source, s: State, id: nat)
    requires Inv(src, s) && s.phase.Up? && id in s.slots && AllLanded(s.slots[id])
    ensures Intact(src, s.bytes, s.slots[id].block, s.slots[id].key)
  {
    hide IndexHolds, Apart, Positive, CacheHolds, AnnexHolds, Intact, Cover, Arrived, Exclusive;
    assert SlotHolds(src, s, id);
  }

  /** And then a hit finds it: the caller holds the cached buffer, whose bytes are the key's, and the key
      is the most recent one. */
  lemma HitFinds(src: Source, s: State, id: nat, key: Key)
    requires Sized(src) && Inv(src, s) && s.phase.Up? && id !in s.slots && key in s.cache.entries
    ensures Apply(src, s, Hit(id, key)).Some? && Inv(src, Apply(src, s, Hit(id, key)).value)
    ensures var end := Apply(src, s, Hit(id, key)).value;
            && end == s.(cache := end.cache, slots := end.slots)
            && end.slots == s.slots[id := Slot(key, s.cache.entries[key], [], false)]
            && Intact(src, end.bytes, end.slots[id].block, key)
            && end.cache.entries == s.cache.entries && end.cache.used == s.cache.used
            && exists i | 0 <= i < |s.cache.lru| ::
                 s.cache.lru[i] == key && end.cache.lru == s.cache.lru[..i] + s.cache.lru[i + 1..] + [key]
  {
    hide Inv, Intact, Without;
    StepKeepsInv(src, s, Hit(id, key));
    CacheIsCoherent(src, s);
    var i := TouchMovesOne(s.cache.lru, key);
    HeldBySlot(src, Apply(src, s, Hit(id, key)).value, id);
  }

  // ----- a speculative read -----

  function SpeculativeRead(id: nat, key: Key, mirrored: bool, allocation: Block): seq<Action> {
    var jobs := JobsFor(key.length, mirrored);
    [StartPrefetch(id, key, mirrored, allocation)] + Landings(id, jobs, |jobs|) + [CompletePrefetch(id)]
  }

  lemma PrefetchBegins(src: Source, s: State, id: nat, key: Key, mirrored: bool, allocation: Block)
    requires Sized(src) && Inv(src, s) && s.phase.Up? && id !in s.slots && key.length > 0
    requires Allocatable(s, P.PoolBytes(key.length), allocation)
    requires key !in s.annex.held && key !in s.annex.inflight
    ensures var start := StartPrefetch(id, key, mirrored, allocation);
            && Apply(src, s, start).Some? && Inv(src, Apply(src, s, start).value)
            && var next := Apply(src, s, start).value;
               && next.phase.Up? && next.cache == s.cache && Begun(next, id, key, mirrored, true)
               && next.annex == s.annex.(inflight := s.annex.inflight + {key})
  {
    hide Inv, JobsFor;
    StepKeepsInv(src, s, StartPrefetch(id, key, mirrored, allocation));
    var marked := s.(annex := X.Begun(s.annex, key));
    assert Allocatable(marked, P.PoolBytes(key.length), allocation);
    BlockHasSize(marked, P.PoolBytes(key.length), allocation);
    hide TakeBlock, Allocatable;
  }

  /** A speculative read that runs its course leaves the main cache alone and, if the side budget has room,
      its key is held there in a buffer with the key's bytes. */
  lemma SpeculativeReadIsHeld(src: Source, s: State, id: nat, key: Key, mirrored: bool, allocation: Block)
    requires Sized(src) && Inv(src, s) && s.phase.Up? && id !in s.slots && key.length > 0
    requires Allocatable(s, P.PoolBytes(key.length), allocation)
    requires key !in s.annex.held && key !in s.annex.inflight && s.annex.used + key.length <= s.annex.budget
    ensures var run := SpeculativeRead(id, key, mirrored, allocation);
            && Execute(src, s, run).Some? && Inv(src, Execute(src, s, run).value)
            && var end := Execute(src, s, run).value;
               && end.phase.Up? && end.cache == s.cache && id in end.slots
               && end.annex.inflight == s.annex.inflight
               && end.annex.held == s.annex.held[key := end.slots[id].block]
               && Intact(src, end.bytes, end.annex.held[key], key)
  {
    hide Inv, Allocatable, JobsFor, Intact, Apply;
    var jobs := JobsFor(key.length, mirrored);
    var start := StartPrefetch(id, key, mirrored, allocation);
    FreshJobs(key.length, mirrored);
    PrefetchBegins(src, s, id, key, mirrored, allocation);
    var begun := Apply(src, s, start).value;
    OneMoreStep(src, s, [], start);
    assert [] + [start] == [start];
    AllLand(src, begun, id, |jobs|);
    RunJoins(src, s, [start], Landings(id, jobs, |jobs|));
    var run := [start] + Landings(id, jobs, |jobs|);
    var landed := Execute(src, s, run).value;
    LandedCompletes(src, landed, id);
    assert s.annex.inflight + {key} - {key} == s.annex.inflight;
    OneMoreStep(src, s, run, CompletePrefetch(id));
  }

  lemma LandedCompletes(src: Source, s: State, id: nat)
    requires Sized(src) && Inv(src, s) && s.phase.Up? && id in s.slots && s.slots[id].speculative
    requires AllLanded(s.slots[id])
    ensures Apply(src, s, CompletePrefetch(id)).Some? && Inv(src, Apply(src, s, CompletePrefetch(id)).value)
    ensures var end, key := Apply(src, s, CompletePrefetch(id)).value, s.slots[id].key;
            && end == s.(annex := end.annex)
            && end.annex.inflight == s.annex.inflight - {key}
            && (key !in s.annex.held && s.annex.used + key.length <= s.annex.budget ==>
                  && end.annex.held == s.annex.held[key := s.slots[id].block]
                  && Intact(src, end.bytes, end.annex.held[key], key))
            && (key in s.annex.held ==> end.annex.held == s.annex.held)
  {
    hide Inv, X.WithinBudget, X.Completed, Intact, AllLanded;
    StepKeepsInv(src, s, CompletePrefetch(id));
    CacheIsCoherent(src, s);
    var end := Apply(src, s, CompletePrefetch(id)).value;
    assert end == s.(annex := X.Completed(s.annex, s.slots[id].key, s.slots[id].block));
    hide Apply;
    X.CompleteKeepsBudget(s.annex, s.slots[id].key, s.slots[id].block);
    HeldBySlot(src, end, id);
  }

  /** A demand for a held key takes the buffer over: it leaves the side buffer, and the caller holds it. */
  lemma PromotionTakes(src: Source, s: State, id: nat, key: Key)
    requires Sized(src) && Inv(src, s) && s.phase.Up? && id !in s.slots && key in s.annex.held
    ensures Apply(src, s, Promote(id, key)).Some? && Inv(src, Apply(src, s, Promote(id, key)).value)
    ensures var end := Apply(src, s, Promote(id, key)).value;
            && end == s.(annex := end.annex, slots := end.slots)
            && end.slots == s.slots[id := Slot(key, s.annex.held[key], [], false)]
            && end.annex.held == s.annex.held - {key} && end.annex.inflight == s.annex.inflight
            && Intact(src, end.bytes, end.slots[id].block, key)
  {
    hide Inv, Intact, X.WithinBudget;
    StepKeepsInv(src, s, Promote(id, key));
    CacheIsCoherent(src, s);
    X.TakeKeepsBudget(s.annex, key);
    HeldBySlot(src, Apply(src, s, Promote(id, key)).value, id);
  }

  /** Any read still running can fail, which changes nothing but its own state; its slot never counts as landed. */
  lemma ReadFails(src: Source, s: State, id: nat, j: nat)
    requires s.phase.Up? && id in s.slots && j < |s.slots[id].jobs| && s.slots[id].jobs[j].status == Running
    ensures Apply(src, s, Fail(id, j)).Some?
    ensures var end := Apply(src, s, Fail(id, j)).value;
            && OnlyReads(s, end, id) && end.bytes == s.bytes
            && end.slots[id].jobs == s.slots[id].jobs[j := s.slots[id].jobs[j].(status := Failed)]
            && !AllLanded(end.slots[id])
  {
    assert Apply(src, s, Fail(id, j)).value.slots[id].jobs[j].status == Failed;
  }

  /** A speculative read that failed gives up its claim, so the key can be read again. */
  lemma AbortFreesTheKey(src: Source, s: State, id: nat)
    requires s.phase.Up? && id in s.slots && s.slots[id].speculative
    requires Settled(s.slots[id]) && !AllLanded(s.slots[id])
    ensures var end := Apply(src, s, AbortPrefetch(id));
            end == Some(s.(annex := s.annex.(inflight := s.annex.inflight - {s.slots[id].key})))
  {
  }

  // ----- reuse -----

  /** A settled slot can be dropped, and it alone goes. */
  lemma DropLetsGo(src: Source, s: State, id: nat)
    requires s.phase.Up? && id in s.slots && Settled(s.slots[id])
    ensures var end := Apply(src, s, DropSlot(id));
            end.Some? && id !in end.value.slots && end.value == s.(slots := s.slots - {id})
  {
  }

  /** A block nobody refers to goes back, and if the pool keeps it the next read of that size is given that
      very block. */
  lemma LetGoIsTakenAgain(src: Source, s: State, block: Block, id: nat, key: Key, mirrored: bool, allocation: Block)
    requires Sized(src) && Inv(src, s) && s.phase.Up? && block in s.live
    requires (forall k | k in s.cache.entries :: s.cache.entries[k] != block)
             && (forall k | k in s.annex.held :: s.annex.held[k] != block)
             && (forall i | i in s.slots :: s.slots[i].block != block)
    requires block.shared || s.pool.pooledBytes + block.size <= 2 * 1024 * 1024 * 1024
    requires id !in s.slots && key.length > 0 && P.PoolBytes(key.length) == block.size
    ensures Apply(src, s, Collect(block)).Some?
    ensures var freed := Apply(src, s, Collect(block)).value;
            && block !in freed.live && freed == s.(live := freed.live, pool := freed.pool)
            && (Allocatable(freed, block.size, allocation) ==>
                  var start := Apply(src, freed, StartRead(id, key, mirrored, allocation));
                  && start.Some? && id in start.value.slots && start.value.slots[id].block == block
                  && start.value.pool == s.pool && start.value.arena == s.arena
                  && start.value.live == freed.live[block := key])
  {
    hide Inv;
    assert !Referenced(s, block);
    var freed := Apply(src, s, Collect(block)).value;
    assert freed.pool.free == s.pool.free + [block];
    LastIsTaken(s.pool.free, block);
    hide P.Take;
  }

  lemma LastIsTaken(free: seq<Block>, block: Block)
    ensures P.Take(free + [block], block.size) == P.Taken(block, free)
  {
    assert (free + [block])[..|free|] == free;
  }
}
