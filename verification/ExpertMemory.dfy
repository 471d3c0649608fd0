/** Every buffer of the expert runtime at once (tools/memra_cpu_experts.cpp): blocks moving between
    the arena, the pool, the caches and the reads in flight, through crashes and warm restarts. */
module ExpertMemory {
  import opened Options
  import opened Blocks
  import opened Sorting
  import opened WeightCache
  import A = ShmArena
  import P = BlockPool
  import X = PrefetchAnnex

  type Byte = bv8

  /** The bytes a key pins; a changed file has another key. */
  type Source = Key -> seq<Byte>

  /** Shared and private addresses. */
  type Memory = (bool, nat) -> Byte

  datatype Status = Running | Landed | Failed

  /** One positioned read into a buffer, `done` bytes of which have arrived. */
  datatype Job = Job(offset: nat, length: nat, done: nat, status: Status)

  /** A call or a prefetch batch holding a buffer. With no jobs it holds a buffer found in a cache. */
  datatype Slot = Slot(key: Key, block: Block, jobs: seq<Job>, speculative: bool)

  datatype Row = Row(key: Key, block: Block)

  datatype Header = Header(clean: bool, segment: nat, count: nat)

  datatype Phase =
    | Down
    | Opened(reopened: bool)
    | Loaded
    | Up
    | Closing(next: nat, persisted: nat)

  /** `header`, `table` and the shared bytes outlive the process. `live` gives each buffer in use the
      key it was allocated for; buffers are named by their blocks. */
  datatype State = State(
    header: Header, table: map<nat, Row>, bytes: Memory,
    phase: Phase, arena: A.Arena, pool: P.Pool, live: map<Block, Key>,
    cache: Cache<Block>, annex: X.Annex<Block>, slots: map<nat, Slot>)

  const DATA: nat := 0x140_0000
  const INDEX_ENTRIES: nat := 262144

  // ----- contents -----

  ghost predicate Sized(src: Source) {
    forall key :: |src(key)| == key.length
  }

  /** The buffer's bytes from `first` up to `limit` are the source's. */
  ghost predicate Agrees(bytes: Memory, block: Block, data: seq<Byte>, first: nat, limit: nat)
    requires limit <= |data|
  {
    forall i: nat | first <= i < limit :: bytes(block.shared, block.addr + i) == data[i]
  }

  ghost predicate Intact(src: Source, bytes: Memory, block: Block, key: Key) {
    && |src(key)| == key.length <= block.size
    && Agrees(bytes, block, src(key), 0, key.length)
  }

  function Written(bytes: Memory, block: Block, at: nat, data: seq<Byte>): Memory {
    (shared: bool, addr: nat) =>
      if shared == block.shared && block.addr + at <= addr < block.addr + at + |data| then data[addr - block.addr - at]
      else bytes(shared, addr)
  }

  lemma WriteElsewhere(src: Source, bytes: Memory, block: Block, at: nat, data: seq<Byte>, other: Block, key: Key)
    requires Intact(src, bytes, other, key) && at + |data| <= block.size && !Overlap(block, other) && other.size > 0
    ensures Intact(src, Written(bytes, block, at, data), other, key)
  {
  }

  // ----- jobs -----

  predicate AllLanded(slot: Slot) {
    forall j | 0 <= j < |slot.jobs| :: slot.jobs[j].status == Landed
  }

  predicate Settled(slot: Slot) {
    forall j | 0 <= j < |slot.jobs| :: slot.jobs[j].status != Running
  }

  /** A mirrored read is split at a page boundary near the middle. */
  function JobsFor(length: nat, mirrored: bool): seq<Job> {
    if mirrored && length >= 8192 then
      var split := length / 2 / 4096 * 4096;
      [Job(0, split, 0, Running), Job(split, length - split, 0, Running)]
    else
      [Job(0, length, 0, Running)]
  }

  /** No jobs, or jobs that cover the buffer end to end. */
  ghost predicate Cover(jobs: seq<Job>, length: nat) {
    || jobs == []
    || (|jobs| == 1 && jobs[0].offset == 0 && jobs[0].length == length)
    || (|jobs| == 2 && jobs[0].offset == 0 && jobs[1].offset == jobs[0].length
        && jobs[0].length + jobs[1].length == length)
  }

  ghost predicate Arrived(src: Source, bytes: Memory, slot: Slot) {
    forall j | 0 <= j < |slot.jobs| ::
      var job := slot.jobs[j];
      && job.done <= job.length && job.offset + job.length <= |src(slot.key)|
      && (job.status == Landed ==> job.done == job.length)
      && Agrees(bytes, slot.block, src(slot.key), job.offset, job.offset + job.done)
  }

  lemma LandedIsIntact(src: Source, bytes: Memory, slot: Slot)
    requires Sized(src) && slot.jobs != [] && Cover(slot.jobs, slot.key.length) && Arrived(src, bytes, slot)
    requires AllLanded(slot) && slot.key.length <= slot.block.size
    ensures Intact(src, bytes, slot.block, slot.key)
  {
    assert slot.jobs[0].status == Landed;
    if |slot.jobs| == 2 {
      assert slot.jobs[1].status == Landed;
    }
  }

  // ----- steps -----

  datatype Action =
    | Open(segment: nat, budget: nat, annexBudget: nat)
    | Load
    | MarkDirty
    | Hit(id: nat, key: Key)
    | Promote(id: nat, key: Key)
    | StartRead(id: nat, key: Key, mirrored: bool, allocation: Block)
    | StartPrefetch(id: nat, key: Key, mirrored: bool, allocation: Block)
    | Arrive(id: nat, job: nat, count: nat)
    | Land(id: nat, job: nat)
    | Fail(id: nat, job: nat)
    | InsertDemand(id: nat)
    | CompletePrefetch(id: nat)
    | AbortPrefetch(id: nat)
    | DropSlot(id: nat)
    | Collect(block: Block)
    | BeginClose
    | PersistNext
    | MarkClean
    | Crash

  /** The process's memory as it starts: nothing in use, the arena empty or absent. */
  function Started(s: State, segment: nat, budget: nat, annexBudget: nat): State {
    var data := if segment == 0 then 0 else DATA;
    State(s.header, s.table, s.bytes, Up, A.Arena(segment, data, data, []), P.Pool([], 0), map[],
          Cache(budget, [], map[], 0), X.Annex(annexBudget, [], map[], {}, 0), map[])
  }

  /** The segment is trusted only if its header is clean and of the same size; otherwise the entry
      count is reset. Without a segment the cache is private. */
  function DoOpen(s: State, segment: nat, budget: nat, annexBudget: nat): Option<State> {
    var next := Started(s, segment, budget, annexBudget);
    if !s.phase.Down? || 0 < segment < DATA then None
    else if segment == 0 then Some(next)
    else if s.header.clean && s.header.segment == segment then Some(next.(phase := Opened(true)))
    else Some(next.(phase := Opened(false), header := Header(s.header.clean, segment, 0)))
  }

  // The reload of the persisted rows, oldest first.

  datatype Warm = Warm(cache: Cache<Block>, occupied: seq<Block>, live: map<Block, Key>)

  function ReloadRow(w: Warm, row: Row): Warm {
    if w.cache.used > w.cache.budget then w
    else if row.key.length == 0 || row.block.size < row.key.length then w
    else if row.key in w.cache.entries then w
    else
      Warm(w.cache.(lru := w.cache.lru + [row.key], entries := w.cache.entries[row.key := row.block],
                    used := w.cache.used + row.key.length),
           w.occupied + [row.block], w.live[row.block := row.key])
  }

  function ReloadRows(table: map<nat, Row>, n: nat, budget: nat): Warm {
    if n == 0 then Warm(Cache(budget, [], map[], 0), [], map[])
    else
      var w := ReloadRows(table, n - 1, budget);
      if n - 1 in table then ReloadRow(w, table[n - 1]) else w
  }

  function Min(a: nat, b: nat): nat {
    if a < b then a else b
  }

  function DoLoad(s: State): Option<State> {
    if !s.phase.Opened? then None
    else
      var n := if s.phase.reopened then Min(s.header.count, INDEX_ENTRIES) else 0;
      var w := ReloadRows(s.table, n, s.cache.budget);
      Some(s.(phase := Loaded, cache := w.cache, live := w.live, arena := A.Reloaded(s.arena, w.occupied)))
  }

  /** A recycled block, else one from the arena, else the private allocation. */
  function TakeBlock(s: State, size: nat, allocation: Block): (Block, State) {
    match P.Take(s.pool.free, size)
    case Taken(block, rest) =>
      (block, s.(pool := P.Pool(rest, if s.pool.pooledBytes >= size then s.pool.pooledBytes - size else 0)))
    case Nothing =>
      match A.Acquired(s.arena, size, P.Alignment(size))
      case Some(found) => (found.0, s.(arena := found.1))
      case None => (allocation, s)
  }

  /** What the allocator guarantees of a private block. */
  predicate Allocatable(s: State, size: nat, allocation: Block) {
    && !allocation.shared && allocation.size == size
    && (forall b | b in s.live.Keys :: !Overlap(b, allocation))
    && (forall i | 0 <= i < |s.pool.free| :: !Overlap(s.pool.free[i], allocation))
  }

  function DoStart(s: State, id: nat, key: Key, mirrored: bool, allocation: Block, speculative: bool): Option<State> {
    var size := P.PoolBytes(key.length);
    if id in s.slots || key.length == 0 || !Allocatable(s, size, allocation) then None
    else
      var (block, next) := TakeBlock(s, size, allocation);
      Some(next.(live := next.live[block := key],
                 slots := next.slots[id := Slot(key, block, JobsFor(key.length, mirrored), speculative)]))
  }

  function DoPrefetch(s: State, id: nat, key: Key, mirrored: bool, allocation: Block): Option<State> {
    if key in s.annex.held || key in s.annex.inflight then None
    else DoStart(s.(annex := X.Begun(s.annex, key)), id, key, mirrored, allocation, true)
  }

  function WithJob(s: State, id: nat, j: nat, job: Job): State
    requires id in s.slots && j < |s.slots[id].jobs|
  {
    var slot := s.slots[id];
    s.(slots := s.slots[id := slot.(jobs := slot.jobs[j := job])])
  }

  function DoArrive(src: Source, s: State, id: nat, j: nat, count: nat): Option<State> {
    if id !in s.slots || j >= |s.slots[id].jobs| then None
    else
      var slot, job := s.slots[id], s.slots[id].jobs[j];
      if job.status != Running || job.done + count > job.length || job.offset + job.length > |src(slot.key)| then None
      else
        var at := job.offset + job.done;
        Some(WithJob(s.(bytes := Written(s.bytes, slot.block, at, src(slot.key)[at..at + count])),
                     id, j, job.(done := job.done + count)))
  }

  function DoFinish(s: State, id: nat, j: nat, status: Status): Option<State> {
    if id !in s.slots || j >= |s.slots[id].jobs| then None
    else
      var job := s.slots[id].jobs[j];
      if job.status != Running || (status == Landed && job.done != job.length) then None
      else Some(WithJob(s, id, j, job.(status := status)))
  }

  /** Keys and buffers still referred to. */
  predicate Referenced(s: State, block: Block) {
    || block in s.cache.entries.Values
    || block in s.annex.held.Values
    || exists id | id in s.slots :: s.slots[id].block == block
  }

  function DoCollect(s: State, block: Block): Option<State> {
    if block !in s.live || Referenced(s, block) then None
    else Some(s.(live := s.live - {block}, pool := P.Put(s.pool, block)))
  }

  function DoPersist(s: State): Option<State> {
    match s.phase
    case Closing(next, persisted) =>
      if next < |s.cache.lru| && persisted < INDEX_ENTRIES && s.cache.lru[next] in s.cache.entries then
        var key := s.cache.lru[next];
        var block := s.cache.entries[key];
        if block.shared then
          Some(s.(table := s.table[persisted := Row(key, block)], phase := Closing(next + 1, persisted + 1)))
        else Some(s.(phase := Closing(next + 1, persisted)))
      else None
    case _ => None
  }

  function DoMarkClean(s: State): Option<State> {
    match s.phase
    case Closing(next, persisted) =>
      if next == |s.cache.lru| || persisted == INDEX_ENTRIES then
        Some(s.(phase := Down, header := Header(true, s.header.segment, persisted)))
      else None
    case _ => None
  }

  function WhileUp(src: Source, s: State, a: Action): Option<State>
    requires s.phase.Up?
  {
    match a
    case Hit(id, key) =>
      if id !in s.slots && key in s.cache.entries then
        Some(s.(cache := Touched(s.cache, key), slots := s.slots[id := Slot(key, s.cache.entries[key], [], false)]))
      else None
    case Promote(id, key) =>
      if id !in s.slots && key in s.annex.held then
        Some(s.(annex := X.Drop(s.annex, key), slots := s.slots[id := Slot(key, s.annex.held[key], [], false)]))
      else None
    case StartRead(id, key, mirrored, allocation) => DoStart(s, id, key, mirrored, allocation, false)
    case StartPrefetch(id, key, mirrored, allocation) => DoPrefetch(s, id, key, mirrored, allocation)
    case Arrive(id, j, count) => DoArrive(src, s, id, j, count)
    case Land(id, j) => DoFinish(s, id, j, Landed)
    case Fail(id, j) => DoFinish(s, id, j, Failed)
    case InsertDemand(id) =>
      if id in s.slots && !s.slots[id].speculative && AllLanded(s.slots[id]) then
        Some(s.(cache := Inserted(s.cache, s.slots[id].key, s.slots[id].block, false)))
      else None
    case CompletePrefetch(id) =>
      if id in s.slots && s.slots[id].speculative && AllLanded(s.slots[id]) then
        Some(s.(annex := X.Completed(s.annex, s.slots[id].key, s.slots[id].block)))
      else None
    case AbortPrefetch(id) =>
      if id in s.slots && s.slots[id].speculative && Settled(s.slots[id]) && !AllLanded(s.slots[id]) then
        Some(s.(annex := X.Aborted(s.annex, s.slots[id].key)))
      else None
    case DropSlot(id) =>
      if id in s.slots && Settled(s.slots[id]) then Some(s.(slots := s.slots - {id})) else None
    case Collect(block) => DoCollect(s, block)
    case BeginClose =>
      if (forall id | id in s.slots :: Settled(s.slots[id])) then
        Some(s.(phase := if s.arena.segment == 0 then Down else Closing(0, 0)))
      else None
    case _ => None
  }

  function Apply(src: Source, s: State, a: Action): Option<State> {
    match a
    case Crash => Some(s.(phase := Down))
    case Open(segment, budget, annexBudget) => DoOpen(s, segment, budget, annexBudget)
    case Load => DoLoad(s)
    case MarkDirty =>
      if s.phase.Loaded? then Some(s.(phase := Up, header := s.header.(clean := false))) else None
    case PersistNext => DoPersist(s)
    case MarkClean => DoMarkClean(s)
    case _ => if s.phase.Up? then WhileUp(src, s, a) else None
  }

  // ----- invariants -----

  /** A cache entry's buffer: in use, for this key, with the key's bytes. */
  ghost predicate Holds(src: Source, s: State, key: Key, block: Block) {
    block in s.live && s.live[block] == key && Intact(src, s.bytes, block, key)
  }

  ghost predicate CacheHolds(src: Source, s: State) {
    Coherent(s.cache) && forall key | key in s.cache.entries :: Holds(src, s, key, s.cache.entries[key])
  }

  ghost predicate AnnexHolds(src: Source, s: State) {
    X.WithinBudget(s.annex) && forall key | key in s.annex.held :: Holds(src, s, key, s.annex.held[key])
  }

  /** Nothing but this slot refers to the buffer it is filling. */
  ghost predicate Exclusive(s: State, id: nat)
    requires id in s.slots
  {
    var block := s.slots[id].block;
    && (forall key | key in s.cache.entries :: s.cache.entries[key] != block)
    && (forall key | key in s.annex.held :: s.annex.held[key] != block)
    && (forall other | other in s.slots && other != id :: s.slots[other].block != block)
  }

  ghost predicate SlotHolds(src: Source, s: State, id: nat)
    requires id in s.slots
  {
    var slot := s.slots[id];
    && slot.block in s.live && s.live[slot.block] == slot.key && slot.key.length <= slot.block.size
    && Cover(slot.jobs, slot.key.length) && Arrived(src, s.bytes, slot)
    && (if AllLanded(slot) then Intact(src, s.bytes, slot.block, slot.key) else Exclusive(s, id))
  }

  ghost predicate SlotsHold(src: Source, s: State) {
    forall id | id in s.slots :: SlotHolds(src, s, id)
  }

  /** Buffers in use, pooled blocks and holes share no byte. */
  ghost predicate Apart(s: State) {
    A.Sound(s.arena, multiset(s.live.Keys) + multiset(s.pool.free))
  }

  ghost predicate Positive(s: State) {
    forall block | block in s.live :: s.live[block].length > 0
  }

  ghost predicate Heap(src: Source, s: State) {
    Apart(s) && Positive(s) && CacheHolds(src, s) && AnnexHolds(src, s) && SlotsHold(src, s)
  }

  // The persisted index.

  function RowBlocks(table: map<nat, Row>, n: nat): seq<Block> {
    if n == 0 then []
    else RowBlocks(table, n - 1) + if n - 1 in table then [table[n - 1].block] else []
  }

  ghost predicate RowHolds(src: Source, bytes: Memory, segment: nat, row: Row) {
    && row.block.shared && DATA <= row.block.addr && row.block.addr + row.block.size <= segment
    && Intact(src, bytes, row.block, row.key)
  }

  ghost predicate RowsHold(src: Source, table: map<nat, Row>, bytes: Memory, segment: nat, n: nat) {
    && (forall i: nat | i < n :: i in table && RowHolds(src, bytes, segment, table[i]))
    && Separate(multiset(RowBlocks(table, n)))
  }

  /** A clean index describes only blocks whose bytes are intact. */
  ghost predicate IndexHolds(src: Source, s: State) {
    s.header.clean ==>
      s.header.count <= INDEX_ENTRIES && RowsHold(src, s.table, s.bytes, s.header.segment, s.header.count)
  }

  /** The arena-resident entries among the `n` oldest, in order. */
  function Resident(c: Cache<Block>, n: nat): seq<Row>
    requires n <= |c.lru|
  {
    if n == 0 then []
    else
      var key := c.lru[n - 1];
      Resident(c, n - 1)
      + if key in c.entries && c.entries[key].shared then [Row(key, c.entries[key])] else []
  }

  ghost predicate Lists(table: map<nat, Row>, rows: seq<Row>) {
    forall i | 0 <= i < |rows| :: i in table && table[i] == rows[i]
  }

  ghost predicate PhaseHolds(src: Source, s: State) {
    match s.phase
    case Down => true
    case Opened(reopened) =>
      && s.arena == A.Arena(s.header.segment, DATA, DATA, []) && DATA <= s.header.segment
      && s.pool == P.Pool([], 0) && s.slots == map[] && s.annex == X.Annex(s.annex.budget, [], map[], {}, 0)
      && (reopened ==> s.header.clean)
    case Loaded => Heap(src, s) && s.arena.segment == s.header.segment && s.arena.data == DATA
    case Up =>
      && Heap(src, s)
      && (s.arena.segment > 0 ==> !s.header.clean && s.arena.segment == s.header.segment && s.arena.data == DATA)
    case Closing(next, persisted) =>
      && Heap(src, s)
      && !s.header.clean && s.arena.segment == s.header.segment && s.arena.data == DATA
      && next <= |s.cache.lru| && persisted <= INDEX_ENTRIES
      && persisted == |Resident(s.cache, next)| && Lists(s.table, Resident(s.cache, next))
  }

  ghost predicate Inv(src: Source, s: State) {
    IndexHolds(src, s) && PhaseHolds(src, s)
  }

  // ----- every step keeps the invariants -----

  lemma HitKeepsHeap(src: Source, s: State, id: nat, key: Key)
    requires Heap(src, s) && id !in s.slots && key in s.cache.entries
    ensures Heap(src, s.(cache := Touched(s.cache, key),
                         slots := s.slots[id := Slot(key, s.cache.entries[key], [], false)]))
  {
    hide Apart, Coherent, Intact, Arrived, X.WithinBudget;
    var next := s.(cache := Touched(s.cache, key), slots := s.slots[id := Slot(key, s.cache.entries[key], [], false)]);
    TouchedIsCoherent(s.cache, key);
    ArrivedNothing(src, s.bytes, next.slots[id]);
    SameApart(s, next);
    IntactFits(src, s.bytes, s.cache.entries[key], key);
    forall i | i in next.slots ensures SlotHolds(src, next, i) {
      if i != id {
        assert SlotHolds(src, s, i);
        assert next.slots[i] == s.slots[i];
      }
    }
  }

  lemma SameApart(s: State, next: State)
    requires Apart(s) && s.arena == next.arena && s.live == next.live && s.pool == next.pool
    ensures Apart(next)
  {
  }

  lemma IntactFits(src: Source, bytes: Memory, block: Block, key: Key)
    requires Intact(src, bytes, block, key)
    ensures key.length <= block.size
  {
  }

  lemma ArrivedNothing(src: Source, bytes: Memory, slot: Slot)
    requires slot.jobs == []
    ensures Arrived(src, bytes, slot) && Cover(slot.jobs, slot.key.length) && AllLanded(slot)
  {
  }

  lemma PromoteKeepsHeap(src: Source, s: State, id: nat, key: Key)
    requires Heap(src, s) && id !in s.slots && key in s.annex.held
    ensures Heap(src, s.(annex := X.Drop(s.annex, key),
                       slots := s.slots[id := Slot(key, s.annex.held[key], [], false)]))
  {
    hide Apart, Coherent, Intact, Arrived, X.WithinBudget, X.Drop;
    var next := s.(annex := X.Drop(s.annex, key), slots := s.slots[id := Slot(key, s.annex.held[key], [], false)]);
    X.TakeKeepsBudget(s.annex, key);
    ArrivedNothing(src, s.bytes, next.slots[id]);
    SameApart(s, next);
    IntactFits(src, s.bytes, s.annex.held[key], key);
    forall i | i in next.slots ensures SlotHolds(src, next, i) {
      if i != id {
        assert SlotHolds(src, s, i);
        assert next.slots[i] == s.slots[i];
      }
    }
  }

  lemma InsertKeepsHeap(src: Source, s: State, id: nat)
    requires Heap(src, s) && id in s.slots && AllLanded(s.slots[id])
    ensures Heap(src, s.(cache := Inserted(s.cache, s.slots[id].key, s.slots[id].block, false)))
  {
    hide Apart, Coherent, Intact, Arrived, Cover, AllLanded, X.WithinBudget, Inserted;
    var slot := s.slots[id];
    var next := s.(cache := Inserted(s.cache, slot.key, slot.block, false));
    InsertKeepsAccounts(s.cache, slot.key, slot.block, false);
    SameApart(s, next);
    assert SlotHolds(src, s, id);
    forall key | key in next.cache.entries ensures Holds(src, next, key, next.cache.entries[key]) {
      assert key in s.cache.entries ==> Holds(src, s, key, s.cache.entries[key]);
    }
    forall i | i in next.slots ensures SlotHolds(src, next, i) {
      assert SlotHolds(src, s, i);
    }
  }

  lemma CompleteKeepsHeap(src: Source, s: State, id: nat)
    requires Heap(src, s) && id in s.slots && AllLanded(s.slots[id])
    ensures Heap(src, s.(annex := X.Completed(s.annex, s.slots[id].key, s.slots[id].block)))
  {
    hide Apart, Coherent, Intact, Arrived, Cover, AllLanded, X.WithinBudget, X.Completed;
    var slot := s.slots[id];
    var next := s.(annex := X.Completed(s.annex, slot.key, slot.block));
    X.CompleteKeepsBudget(s.annex, slot.key, slot.block);
    SameApart(s, next);
    assert SlotHolds(src, s, id);
    forall key | key in next.annex.held ensures Holds(src, next, key, next.annex.held[key]) {
      assert key in s.annex.held ==> Holds(src, s, key, s.annex.held[key]);
    }
    forall i | i in next.slots ensures SlotHolds(src, next, i) {
      assert SlotHolds(src, s, i);
    }
  }

  lemma AnnexKeysKeepHeap(src: Source, s: State, annex: X.Annex<Block>)
    requires Heap(src, s) && X.WithinBudget(annex) && annex.held == s.annex.held
    ensures Heap(src, s.(annex := annex))
  {
    hide Coherent, Intact, Arrived, Cover, AllLanded, X.WithinBudget, A.Sound;
    forall id | id in s.slots ensures SlotHolds(src, s.(annex := annex), id) {
      assert SlotHolds(src, s, id);
    }
  }

  lemma DropKeepsHeap(src: Source, s: State, id: nat)
    requires Heap(src, s) && id in s.slots
    ensures Heap(src, s.(slots := s.slots - {id}))
  {
    hide Coherent, Intact, Arrived, Cover, AllLanded, X.WithinBudget, A.Sound;
    var next := s.(slots := s.slots - {id});
    forall i | i in next.slots ensures SlotHolds(src, next, i) {
      assert SlotHolds(src, s, i);
    }
  }

  // Collecting an unreferenced buffer.

  lemma CollectKeepsApart(s: State, block: Block)
    requires Apart(s) && block in s.live
    ensures Apart(s.(live := s.live - {block}, pool := P.Put(s.pool, block)))
  {
    hide Separate;
    var rest := multiset(s.live.Keys - {block});
    var free, holes := multiset(s.pool.free), multiset(s.arena.holes);
    assert multiset(s.live.Keys) == rest + multiset{block};
    assert (s.live - {block}).Keys == s.live.Keys - {block};
    var kept := P.Put(s.pool, block);
    if P.Keeps(s.pool, block) {
      Joined(s.pool.free, [block]);
      Regroup(rest, multiset{block}, free);
      Regroup(rest, free, multiset{block});
      assert rest + multiset(kept.free) == multiset(s.live.Keys) + free;
    } else {
      Regroup(rest, multiset{block}, free);
      Regroup(rest + free, multiset{block}, holes);
      assert multiset(s.live.Keys) + free + holes == (rest + free + holes) + multiset{block};
      SeparatePart(rest + free + holes, multiset{block});
      assert forall b | b in rest + free :: b in multiset(s.live.Keys) + free;
    }
  }

  lemma CollectKeepsHeap(src: Source, s: State, block: Block)
    requires Heap(src, s) && block in s.live && !Referenced(s, block)
    ensures Heap(src, s.(live := s.live - {block}, pool := P.Put(s.pool, block)))
  {
    hide Apart, Coherent, Intact, Arrived, Cover, AllLanded, X.WithinBudget, P.Put;
    var next := s.(live := s.live - {block}, pool := P.Put(s.pool, block));
    CollectKeepsApart(s, block);
    forall key | key in next.cache.entries ensures Holds(src, next, key, next.cache.entries[key]) {
      assert Holds(src, s, key, s.cache.entries[key]);
      assert s.cache.entries[key] in s.cache.entries.Values;
    }
    forall key | key in next.annex.held ensures Holds(src, next, key, next.annex.held[key]) {
      assert Holds(src, s, key, s.annex.held[key]);
      assert s.annex.held[key] in s.annex.held.Values;
    }
    forall i | i in next.slots ensures SlotHolds(src, next, i) {
      assert SlotHolds(src, s, i);
    }
  }

  // Taking a block for a read.

  lemma RecycledIsApart(s: State, size: nat)
    requires Apart(s) && P.Take(s.pool.free, size).Taken?
    ensures var t := P.Take(s.pool.free, size);
            && t.block.size == size && t.block !in s.live
            && A.Sound(s.arena, multiset(s.live.Keys) + multiset{t.block} + multiset(t.rest))
  {
    hide Separate, P.Take;
    var t := P.Take(s.pool.free, size);
    P.TakeConserves(s.pool.free, size);
    P.TakeIsLast(s.pool.free, size);
    var live, rest := multiset(s.live.Keys), multiset(t.rest);
    Regroup(live, rest, multiset{t.block});
    OnlyOnce(live + multiset{t.block} + rest + multiset(s.arena.holes), t.block, live);
    assert forall b | b in live + multiset{t.block} + rest :: b in live + multiset(s.pool.free);
  }

  lemma OnlyOnce(m: multiset<Block>, block: Block, live: multiset<Block>)
    requires Separate(m) && live + multiset{block} <= m
    ensures block !in live
  {
    assert block in m && (live + multiset{block})[block] <= m[block];
  }

  lemma AcquiredIsApart(s: State, size: nat, alignment: nat)
    requires Apart(s) && size > 0 && alignment > 0 && A.Acquired(s.arena, size, alignment).Some?
    ensures var (block, arena) := A.Acquired(s.arena, size, alignment).value;
            && block.size == size && block !in s.live
            && arena.segment == s.arena.segment && arena.data == s.arena.data
            && A.Sound(arena, multiset(s.live.Keys) + multiset{block} + multiset(s.pool.free))
  {
    hide Separate, A.Acquired;
    var (block, arena) := A.Acquired(s.arena, size, alignment).value;
    var live, free := multiset(s.live.Keys), multiset(s.pool.free);
    A.AcquireIsSound(s.arena, live + free, size, alignment);
    Regroup(live, free, multiset{block});
    OnlyOnce(live + multiset{block} + free + multiset(arena.holes), block, live);
  }

  lemma AllocationIsApart(s: State, size: nat, block: Block)
    requires Apart(s) && Allocatable(s, size, block) && size > 0
    ensures block !in s.live && block.size == size
    ensures A.Sound(s.arena, multiset(s.live.Keys) + multiset{block} + multiset(s.pool.free))
  {
    hide Separate;
    var live, free, holes := multiset(s.live.Keys), multiset(s.pool.free), multiset(s.arena.holes);
    assert block !in s.live by {
      assert Overlap(block, block);
    }
    forall b | b in live + free + holes ensures !Overlap(b, block) {
      assert b in live || b in s.pool.free || b in s.arena.holes;
    }
    SeparateAdd(live + free + holes, block);
    Regroup(live, free, multiset{block});
    Regroup(live + free, holes, multiset{block});
    assert forall b | b in live + multiset{block} + free :: b in live + free || b == block;
  }

  lemma TakeBlockIsApart(s: State, size: nat, allocation: Block, key: Key)
    requires Apart(s) && Allocatable(s, size, allocation) && size > 0
    ensures var (block, next) := TakeBlock(s, size, allocation);
            && block.size == size && block !in s.live
            && next == s.(pool := next.pool, arena := next.arena)
            && next.arena.segment == s.arena.segment && next.arena.data == s.arena.data
            && Apart(next.(live := s.live[block := key]))
  {
    hide Separate, P.Take, A.Acquired, A.Sound, Allocatable;
    var (block, next) := TakeBlock(s, size, allocation);
    match P.Take(s.pool.free, size) {
      case Taken(b, rest) => RecycledIsApart(s, size);
      case Nothing =>
        match A.Acquired(s.arena, size, P.Alignment(size)) {
          case Some(found) => AcquiredIsApart(s, size, P.Alignment(size));
          case None => AllocationIsApart(s, size, allocation);
        }
    }
    assert s.live[block := key].Keys == s.live.Keys + {block};
    assert multiset(s.live.Keys + {block}) == multiset(s.live.Keys) + multiset{block};
  }

  lemma JobsForCover(src: Source, bytes: Memory, key: Key, block: Block, mirrored: bool, speculative: bool)
    requires Sized(src) && key.length > 0
    ensures var slot := Slot(key, block, JobsFor(key.length, mirrored), speculative);
            Cover(slot.jobs, key.length) && Arrived(src, bytes, slot) && !AllLanded(slot)
  {
    var slot := Slot(key, block, JobsFor(key.length, mirrored), speculative);
    assert slot.jobs[0].status == Running;
  }

  lemma StartKeepsHeap(src: Source, s: State, id: nat, key: Key, mirrored: bool, allocation: Block, speculative: bool)
    requires Sized(src) && Heap(src, s) && DoStart(s, id, key, mirrored, allocation, speculative).Some?
    ensures var next := DoStart(s, id, key, mirrored, allocation, speculative).value;
            Heap(src, next) && next.arena.segment == s.arena.segment && next.arena.data == s.arena.data
  {
    hide Apart, Coherent, Intact, Arrived, Cover, AllLanded, X.WithinBudget, Allocatable,
         TakeBlock, P.PoolBytes, JobsFor;
    PagesHold(key.length);
    var size := P.PoolBytes(key.length);
    var (block, taken) := TakeBlock(s, size, allocation);
    TakeBlockIsApart(s, size, allocation, key);
    var slot := Slot(key, block, JobsFor(key.length, mirrored), speculative);
    JobsForCover(src, s.bytes, key, block, mirrored, speculative);
    var next := DoStart(s, id, key, mirrored, allocation, speculative).value;
    SameApart(taken.(live := s.live[block := key]), next);
    forall k | k in next.cache.entries
      ensures Holds(src, next, k, next.cache.entries[k]) && next.cache.entries[k] != block {
      assert Holds(src, s, k, s.cache.entries[k]);
    }
    forall k | k in next.annex.held ensures Holds(src, next, k, next.annex.held[k]) && next.annex.held[k] != block {
      assert Holds(src, s, k, s.annex.held[k]);
    }
    forall i | i in next.slots ensures SlotHolds(src, next, i) {
      forall o | o in s.slots ensures s.slots[o].block != block {
        assert SlotHolds(src, s, o);
      }
      if i != id {
        assert SlotHolds(src, s, i);
        assert next.slots[i] == s.slots[i];
      }
    }
  }

  lemma PagesHold(length: nat)
    requires length > 0
    ensures P.PoolBytes(length) >= length
  {
  }

  // Bytes arriving in a buffer.

  lemma LiveApart(s: State, a: Block, b: Block)
    requires Apart(s) && a in s.live && b in s.live && a != b
    ensures !Overlap(a, b) && a.size > 0 && b.size > 0
  {
    hide Overlap;
    var m := multiset(s.live.Keys) + multiset(s.pool.free) + multiset(s.arena.holes);
    assert a in m && b in m;
  }

  lemma WriteBeside(src: Source, s: State, block: Block, at: nat, data: seq<Byte>, other: Block, key: Key)
    requires Apart(s) && block in s.live && other in s.live && block != other && at + |data| <= block.size
    requires Intact(src, s.bytes, other, key)
    ensures Intact(src, Written(s.bytes, block, at, data), other, key)
  {
    hide Apart, Intact, Overlap, Written;
    LiveApart(s, block, other);
    WriteElsewhere(src, s.bytes, block, at, data, other, key);
  }

  lemma ArrivedBeside(src: Source, s: State, block: Block, at: nat, data: seq<Byte>, slot: Slot)
    requires Sized(src) && Apart(s) && block in s.live && slot.block in s.live && block != slot.block
    requires at + |data| <= block.size
    requires Arrived(src, s.bytes, slot) && slot.key.length <= slot.block.size
    ensures Arrived(src, Written(s.bytes, block, at, data), slot)
  {
    hide Apart;
    LiveApart(s, block, slot.block);
  }

  lemma StillAgrees(bytes: Memory, block: Block, data: seq<Byte>, at: nat, end: nat, first: nat, limit: nat)
    requires at <= end <= |data| && limit <= |data| && Agrees(bytes, block, data, first, limit)
    ensures Agrees(Written(bytes, block, at, data[at..end]), block, data, first, limit)
  {
  }

  lemma NowAgrees(bytes: Memory, block: Block, data: seq<Byte>, at: nat, end: nat, first: nat)
    requires first <= at <= end <= |data| && Agrees(bytes, block, data, first, at)
    ensures Agrees(Written(bytes, block, at, data[at..end]), block, data, first, end)
  {
  }

  /** Writing the source's own bytes leaves agreed bytes agreed, and adds those written. */
  lemma ArriveInPlace(src: Source, bytes: Memory, slot: Slot, j: nat, count: nat)
    requires Arrived(src, bytes, slot) && j < |slot.jobs|
    requires slot.jobs[j].status == Running && slot.jobs[j].done + count <= slot.jobs[j].length
    ensures var job := slot.jobs[j];
            var at := job.offset + job.done;
            Arrived(src, Written(bytes, slot.block, at, src(slot.key)[at..at + count]),
                    slot.(jobs := slot.jobs[j := job.(done := job.done + count)]))
  {
    var job := slot.jobs[j];
    var at := job.offset + job.done;
    var next := Written(bytes, slot.block, at, src(slot.key)[at..at + count]);
    hide Agrees, Written;
    forall k | 0 <= k < |slot.jobs|
      ensures Agrees(next, slot.block, src(slot.key), slot.jobs[k].offset, slot.jobs[k].offset + slot.jobs[k].done)
    {
      StillAgrees(bytes, slot.block, src(slot.key), at, at + count,
                  slot.jobs[k].offset, slot.jobs[k].offset + slot.jobs[k].done);
    }
    StillAgrees(bytes, slot.block, src(slot.key), at, at + count, job.offset, at);
    NowAgrees(bytes, slot.block, src(slot.key), at, at + count, job.offset);
  }

  /** Entries of a cache are unaffected by bytes arriving in a buffer the cache does not hold. */
  lemma EntriesBeside(src: Source, s: State, next: State, block: Block, at: nat, data: seq<Byte>,
                      entries: map<Key, Block>)
    requires Apart(s) && block in s.live && at + |data| <= block.size
    requires next.bytes == Written(s.bytes, block, at, data) && next.live == s.live
    requires forall key | key in entries :: Holds(src, s, key, entries[key]) && entries[key] != block
    ensures forall key | key in entries :: Holds(src, next, key, entries[key])
  {
    hide Apart, Intact, Written;
    forall key | key in entries ensures Holds(src, next, key, entries[key]) {
      WriteBeside(src, s, block, at, data, entries[key], key);
    }
  }

  lemma SlotBeside(src: Source, s: State, next: State, id: nat, at: nat, data: seq<Byte>, other: nat)
    requires Sized(src) && Apart(s) && id in s.slots && other in s.slots && other != id
    requires SlotHolds(src, s, id) && SlotHolds(src, s, other) && !AllLanded(s.slots[id])
    requires at + |data| <= s.slots[id].block.size
    requires next == s.(bytes := Written(s.bytes, s.slots[id].block, at, data), slots := next.slots)
    requires next.slots.Keys == s.slots.Keys && next.slots[id].block == s.slots[id].block
    requires forall i | i in s.slots && i != id :: next.slots[i] == s.slots[i]
    ensures SlotHolds(src, next, other)
  {
    hide Apart, Intact, Arrived, Cover, Written, AllLanded;
    var block := s.slots[id].block;
    ArrivedBeside(src, s, block, at, data, s.slots[other]);
    if AllLanded(s.slots[other]) {
      WriteBeside(src, s, block, at, data, s.slots[other].block, s.slots[other].key);
    }
  }

  lemma ExclusiveOf(src: Source, s: State, id: nat)
    requires id in s.slots && SlotHolds(src, s, id) && !AllLanded(s.slots[id])
    ensures s.slots[id].block in s.live && s.slots[id].key.length <= s.slots[id].block.size
    ensures Exclusive(s, id) && Arrived(src, s.bytes, s.slots[id])
  {
  }

  lemma ArrivingSlot(src: Source, s: State, id: nat, j: nat, count: nat)
    requires id in s.slots && SlotHolds(src, s, id) && DoArrive(src, s, id, j, count).Some?
    ensures SlotHolds(src, DoArrive(src, s, id, j, count).value, id)
  {
    hide Intact, Arrived, Cover, Written, AllLanded;
    var slot, job := s.slots[id], s.slots[id].jobs[j];
    var next := DoArrive(src, s, id, j, count).value;
    RunningIsNotLanded(slot, j);
    ArriveInPlace(src, s.bytes, slot, j, count);
    RunningIsNotLanded(next.slots[id], j);
    CoverKept(slot.jobs, j, job.(done := job.done + count), slot.key.length);
  }

  lemma ArriveKeepsHeap(src: Source, s: State, id: nat, j: nat, count: nat)
    requires Sized(src) && Heap(src, s) && DoArrive(src, s, id, j, count).Some?
    ensures Heap(src, DoArrive(src, s, id, j, count).value)
  {
    hide Apart, Coherent, Arrived, X.WithinBudget, Written, AllLanded, Holds, SlotHolds;
    var slot, job := s.slots[id], s.slots[id].jobs[j];
    var at := job.offset + job.done;
    var data := src(slot.key)[at..at + count];
    var next := DoArrive(src, s, id, j, count).value;
    RunningIsNotLanded(slot, j);
    ExclusiveOf(src, s, id);
    SameApart(s, next);
    EntriesBeside(src, s, next, slot.block, at, data, s.cache.entries);
    EntriesBeside(src, s, next, slot.block, at, data, s.annex.held);
    ArrivingSlot(src, s, id, j, count);
    JobFits(src, s, id, j);
    forall i | i in next.slots && i != id ensures SlotHolds(src, next, i) {
      SlotBeside(src, s, next, id, at, data, i);
    }
  }

  lemma JobFits(src: Source, s: State, id: nat, j: nat)
    requires Sized(src) && id in s.slots && SlotHolds(src, s, id) && j < |s.slots[id].jobs|
    ensures s.slots[id].jobs[j].offset + s.slots[id].jobs[j].length <= s.slots[id].block.size
  {
  }

  lemma CoverKept(jobs: seq<Job>, j: nat, job: Job, length: nat)
    requires Cover(jobs, length) && j < |jobs| && job.offset == jobs[j].offset && job.length == jobs[j].length
    ensures Cover(jobs[j := job], length)
  {
  }

  lemma RunningIsNotLanded(slot: Slot, j: nat)
    requires j < |slot.jobs| && slot.jobs[j].status == Running
    ensures !AllLanded(slot)
  {
  }

  lemma ArrivedFinished(src: Source, bytes: Memory, slot: Slot, j: nat, status: Status)
    requires Arrived(src, bytes, slot) && j < |slot.jobs|
    requires status == Landed ==> slot.jobs[j].done == slot.jobs[j].length
    ensures Arrived(src, bytes, slot.(jobs := slot.jobs[j := slot.jobs[j].(status := status)]))
  {
    hide Agrees;
  }

  lemma FinishKeepsHeap(src: Source, s: State, id: nat, j: nat, status: Status)
    requires Sized(src) && Heap(src, s) && DoFinish(s, id, j, status).Some?
    ensures Heap(src, DoFinish(s, id, j, status).value)
  {
    hide Apart, Coherent, Intact, Agrees, Cover, X.WithinBudget, Arrived, AllLanded;
    var slot, job := s.slots[id], s.slots[id].jobs[j];
    var next := DoFinish(s, id, j, status).value;
    assert SlotHolds(src, s, id);
    RunningIsNotLanded(slot, j);
    CoverKept(slot.jobs, j, job.(status := status), slot.key.length);
    ArrivedFinished(src, s.bytes, slot, j, status);
    SameApart(s, next);
    if AllLanded(next.slots[id]) {
      LandedIsIntact(src, s.bytes, next.slots[id]);
    }
    forall i | i in next.slots ensures SlotHolds(src, next, i) {
      if i != id {
        assert SlotHolds(src, s, i) && next.slots[i] == s.slots[i];
      }
    }
  }

  lemma HeapSame(src: Source, s: State, next: State)
    requires Heap(src, s)
    requires next == s.(header := next.header, table := next.table, phase := next.phase)
    ensures Heap(src, next)
  {
    hide Coherent, Intact, Arrived, Cover, AllLanded, X.WithinBudget, A.Sound;
    forall i | i in next.slots ensures SlotHolds(src, next, i) {
      assert SlotHolds(src, s, i);
    }
  }

  // The reload.

  lemma SubSeparate(m: multiset<Block>, all: multiset<Block>)
    requires Separate(all) && m <= all
    ensures Separate(m)
  {
    hide Separate;
    assert all == m + (all - m);
    SeparatePart(m, all - m);
  }

  ghost predicate WarmHolds(src: Source, bytes: Memory, segment: nat, w: Warm, blocks: multiset<Block>) {
    && Coherent(w.cache)
    && multiset(w.occupied) <= blocks && w.live.Keys == Members(w.occupied)
    && (forall b | b in w.live ::
          b.shared && DATA <= b.addr && b.addr + b.size <= segment && w.live[b].length > 0)
    && (forall key | key in w.cache.entries ::
          var b := w.cache.entries[key]; b in w.live && w.live[b] == key && Intact(src, bytes, b, key))
  }

  lemma ReloadRowHolds(src: Source, bytes: Memory, segment: nat, w: Warm, blocks: seq<Block>, row: Row)
    requires WarmHolds(src, bytes, segment, w, multiset(blocks)) && RowHolds(src, bytes, segment, row)
    requires row.block !in blocks
    ensures WarmHolds(src, bytes, segment, ReloadRow(w, row), multiset(blocks + [row.block]))
    ensures ReloadRow(w, row).cache.budget == w.cache.budget
  {
    hide Sum, Intact, Coherent;
    var next := ReloadRow(w, row);
    Joined(blocks, [row.block]);
    if next != w {
      Joined(w.occupied, [row.block]);
      assert row.block !in multiset(blocks) && row.block !in multiset(w.occupied);
      AddedIsCoherent(w.cache, row.key, row.block, false);
      assert next.cache == Added(w.cache, row.key, row.block, false);
      assert Members(next.occupied) == Members(w.occupied) + {row.block};
    }
  }

  lemma {:induction false} ReloadHolds(src: Source, table: map<nat, Row>, bytes: Memory, segment: nat,
                                    n: nat, budget: nat)
    requires RowsHold(src, table, bytes, segment, n)
    ensures WarmHolds(src, bytes, segment, ReloadRows(table, n, budget), multiset(RowBlocks(table, n)))
    ensures ReloadRows(table, n, budget).cache.budget == budget
  {
    hide RowHolds, ReloadRow, WarmHolds, Separate;
    if n == 0 {
      NothingReloaded(src, bytes, segment, budget);
    } else {
      var before, block := RowBlocks(table, n - 1), table[n - 1].block;
      assert RowBlocks(table, n) == before + [block];
      Joined(before, [block]);
      SeparatePart(multiset(before), multiset{block});
      OnlyOnce(multiset(before) + multiset{block}, block, multiset(before));
      ReloadHolds(src, table, bytes, segment, n - 1, budget);
      ReloadRowHolds(src, bytes, segment, ReloadRows(table, n - 1, budget), before, table[n - 1]);
    }
  }

  lemma NothingReloaded(src: Source, bytes: Memory, segment: nat, budget: nat)
    ensures WarmHolds(src, bytes, segment, Warm(Cache(budget, [], map[], 0), [], map[]), multiset{})
  {
  }

  lemma MembersOnce(blocks: seq<Block>)
    requires Separate(multiset(blocks))
    ensures multiset(Members(blocks)) == multiset(blocks)
  {
    forall b ensures multiset(Members(blocks))[b] == multiset(blocks)[b] {
      assert b in blocks <==> b in multiset(blocks);
    }
  }

  /** The reloaded blocks and the holes the sweep leaves between them. */
  lemma WarmIsApart(src: Source, bytes: Memory, segment: nat, w: Warm, blocks: seq<Block>)
    requires WarmHolds(src, bytes, segment, w, multiset(blocks)) && Separate(multiset(blocks)) && DATA <= segment
    ensures var arena := A.Reloaded(A.Arena(segment, DATA, DATA, []), w.occupied);
            A.Sound(arena, multiset(w.live.Keys)) && arena.segment == segment && arena.data == DATA
  {
    hide Separate, Intact, Coherent, A.Sound, A.Reloaded;
    var arena := A.Arena(segment, DATA, DATA, []);
    SubSeparate(multiset(w.occupied), multiset(blocks));
    MembersOnce(w.occupied);
    assert forall b | b in w.occupied :: b in Members(w.occupied);
    A.ReloadIsSound(arena, w.occupied);
    ReloadedArena(arena, w.occupied);
  }

  lemma LoadKeepsInv(src: Source, s: State)
    requires Inv(src, s) && DoLoad(s).Some?
    ensures Inv(src, DoLoad(s).value)
  {
    hide Separate, RowHolds, ReloadRows, Intact, Coherent, A.Sound, A.Reloaded, RowBlocks;
    var n := if s.phase.reopened then Min(s.header.count, INDEX_ENTRIES) else 0;
    var w := ReloadRows(s.table, n, s.cache.budget);
    var next := DoLoad(s).value;
    NoRows(src, s.table, s.bytes, s.header.segment);
    assert RowsHold(src, s.table, s.bytes, s.header.segment, n);
    ReloadHolds(src, s.table, s.bytes, s.header.segment, n, s.cache.budget);
    WarmIsApart(src, s.bytes, s.header.segment, w, RowBlocks(s.table, n));
    assert multiset(w.live.Keys) + multiset(next.pool.free) == multiset(w.live.Keys);
    assert IndexHolds(src, next) by {
      IndexSame(src, s, next);
    }
    assert X.WithinBudget(next.annex);
  }

  lemma NoRows(src: Source, table: map<nat, Row>, bytes: Memory, segment: nat)
    ensures RowsHold(src, table, bytes, segment, 0)
  {
  }

  lemma ReloadedArena(a: A.Arena, occupied: seq<Block>)
    ensures A.Reloaded(a, occupied).segment == a.segment && A.Reloaded(a, occupied).data == a.data
  {
  }

  // The index.

  lemma IndexSame(src: Source, s: State, next: State)
    requires IndexHolds(src, s) && next.header == s.header && next.table == s.table && next.bytes == s.bytes
    ensures IndexHolds(src, next)
  {
  }

  /** A clean header is never seen while the segment is in use, so bytes that arrive meanwhile are private. */
  lemma ArriveKeepsIndex(src: Source, s: State, id: nat, j: nat, count: nat)
    requires Inv(src, s) && s.phase.Up? && DoArrive(src, s, id, j, count).Some?
    ensures IndexHolds(src, DoArrive(src, s, id, j, count).value)
  {
    if s.header.clean {
      var block := s.slots[id].block;
      assert SlotHolds(src, s, id);
      assert !block.shared by {
        assert block in multiset(s.live.Keys) + multiset(s.pool.free);
      }
      forall i: nat | i < s.header.count
        ensures RowHolds(src, DoArrive(src, s, id, j, count).value.bytes, s.header.segment, s.table[i])
      {
        assert RowHolds(src, s.bytes, s.header.segment, s.table[i]);
      }
    }
  }

  function BlocksOf(rows: seq<Row>): seq<Block> {
    if rows == [] then [] else BlocksOf(rows[..|rows| - 1]) + [rows[|rows| - 1].block]
  }

  lemma {:induction false} RowBlocksAre(table: map<nat, Row>, rows: seq<Row>, n: nat)
    requires Lists(table, rows) && n <= |rows|
    ensures RowBlocks(table, n) == BlocksOf(rows[..n])
  {
    if n == 0 {
    } else {
      RowBlocksAre(table, rows, n - 1);
      assert rows[..n][..n - 1] == rows[..n - 1];
    }
  }

  /** A row written from the cache describes a resident buffer. */
  ghost predicate Resides(src: Source, s: State, n: nat, row: Row)
    requires n <= |s.cache.lru|
  {
    && row.key in s.cache.lru[..n] && row.key in s.cache.entries && s.cache.entries[row.key] == row.block
    && RowHolds(src, s.bytes, s.arena.segment, row) && row.block in s.live && s.live[row.block] == row.key
  }

  lemma EntryResides(src: Source, s: State, n: nat)
    requires Apart(s) && CacheHolds(src, s) && s.arena.data == DATA && 0 < n <= |s.cache.lru|
    ensures var key := s.cache.lru[n - 1];
            key in s.cache.entries && key !in s.cache.lru[..n - 1]
            && (s.cache.entries[key].shared ==> Resides(src, s, n, Row(key, s.cache.entries[key])))
  {
    hide Intact, Sum, Apart;
    var key := s.cache.lru[n - 1];
    assert key in s.cache.lru && s.cache.lru[..n][n - 1] == key;
    assert Holds(src, s, key, s.cache.entries[key]);
    if s.cache.entries[key].shared {
      SharedInSegment(s, s.cache.entries[key]);
    }
  }

  lemma ResidentStep(c: Cache<Block>, n: nat)
    requires 0 < n <= |c.lru| && c.lru[n - 1] in c.entries
    ensures c.entries[c.lru[n - 1]].shared ==>
              Resident(c, n) == Resident(c, n - 1) + [Row(c.lru[n - 1], c.entries[c.lru[n - 1]])]
    ensures !c.entries[c.lru[n - 1]].shared ==> Resident(c, n) == Resident(c, n - 1)
  {
  }

  lemma NoResidents(c: Cache<Block>)
    ensures Resident(c, 0) == [] && Separate(multiset(BlocksOf([])))
  {
  }

  /** The rows written so far describe resident entries. */
  lemma {:induction false} ResidentHolds(src: Source, s: State, n: nat)
    requires Apart(s) && CacheHolds(src, s) && s.arena.data == DATA && n <= |s.cache.lru|
    ensures forall row | row in Resident(s.cache, n) :: Resides(src, s, n, row)
  {
    hide RowHolds, Apart, CacheHolds, Resident;
    if n == 0 {
      NoResidents(s.cache);
    } else {
      ResidentHolds(src, s, n - 1);
      EntryResides(src, s, n);
      ResidentStep(s.cache, n);
      assert s.cache.lru[..n] == s.cache.lru[..n - 1] + [s.cache.lru[n - 1]];
      forall row | row in Resident(s.cache, n - 1) ensures Resides(src, s, n, row) {
        assert Resides(src, s, n - 1, row);
      }
    }
  }

  lemma {:induction false} BlockOfRow(rows: seq<Row>, b: Block)
    ensures b in BlocksOf(rows) <==> exists row | row in rows :: row.block == b
  {
    if rows == [] {
    } else {
      var n := |rows| - 1;
      BlockOfRow(rows[..n], b);
      assert rows == rows[..n] + [rows[n]];
    }
  }

  lemma BlocksSnoc(rows: seq<Row>, row: Row)
    ensures BlocksOf(rows + [row]) == BlocksOf(rows) + [row.block]
  {
    assert (rows + [row])[..|rows|] == rows;
  }

  lemma RowIsNew(src: Source, s: State, n: nat, b: Block)
    requires Apart(s) && CacheHolds(src, s) && s.arena.data == DATA && 0 < n <= |s.cache.lru|
    requires s.cache.lru[n - 1] in s.cache.entries && s.cache.entries[s.cache.lru[n - 1]].shared
    requires b in BlocksOf(Resident(s.cache, n - 1))
    ensures !Overlap(b, s.cache.entries[s.cache.lru[n - 1]])
  {
    hide RowHolds, Apart, CacheHolds, Overlap, Resident;
    var key := s.cache.lru[n - 1];
    ResidentHolds(src, s, n - 1);
    EntryResides(src, s, n);
    BlockOfRow(Resident(s.cache, n - 1), b);
    var row :| row in Resident(s.cache, n - 1) && row.block == b;
    assert Resides(src, s, n - 1, row);
    LiveApart(s, b, s.cache.entries[key]);
  }

  /** Each row has its own block. */
  lemma {:induction false} ResidentIsSeparate(src: Source, s: State, n: nat)
    requires Apart(s) && CacheHolds(src, s) && s.arena.data == DATA && n <= |s.cache.lru|
    ensures Separate(multiset(BlocksOf(Resident(s.cache, n))))
  {
    hide Separate, RowHolds, Apart, CacheHolds, Overlap, BlocksOf, Resident;
    if n == 0 {
      NoResidents(s.cache);
    } else {
      ResidentIsSeparate(src, s, n - 1);
      EntryResides(src, s, n);
      ResidentStep(s.cache, n);
      var before, key := Resident(s.cache, n - 1), s.cache.lru[n - 1];
      var block := s.cache.entries[key];
      if block.shared {
        SharedInSegment(s, block);
        forall b | b in BlocksOf(before) ensures !Overlap(b, block) {
          RowIsNew(src, s, n, b);
        }
        BlocksSnoc(before, Row(key, block));
        Joined(BlocksOf(before), [block]);
        SeparateAdd(multiset(BlocksOf(before)), block);
      }
    }
  }

  lemma SharedInSegment(s: State, block: Block)
    requires Apart(s) && block in s.live && block.shared
    ensures s.arena.data <= block.addr && block.addr + block.size <= s.arena.segment && block.size > 0
  {
    assert block in multiset(s.live.Keys) + multiset(s.pool.free);
    assert block in multiset(s.live.Keys) + multiset(s.pool.free) + multiset(s.arena.holes);
  }

  lemma PersistKeepsInv(src: Source, s: State)
    requires Inv(src, s) && DoPersist(s).Some?
    ensures Inv(src, DoPersist(s).value)
  {
    hide Heap;
    HeapSame(src, s, DoPersist(s).value);
  }

  lemma MarkCleanKeepsInv(src: Source, s: State)
    requires Inv(src, s) && DoMarkClean(s).Some?
    ensures Inv(src, DoMarkClean(s).value)
  {
    hide RowHolds, Separate, Resident, BlocksOf, RowBlocks, Apart, CacheHolds;
    match s.phase
    case Closing(next, persisted) =>
      var rows := Resident(s.cache, next);
      ResidentHolds(src, s, next);
      ResidentIsSeparate(src, s, next);
      RowBlocksAre(s.table, rows, |rows|);
      assert rows[..|rows|] == rows;
      forall i: nat | i < persisted ensures i in s.table && RowHolds(src, s.bytes, s.header.segment, s.table[i]) {
        assert rows[i] in rows && Resides(src, s, next, rows[i]);
      }
    case _ =>
  }

  // ----- whole runs -----

  lemma StepKeepsInvUp(src: Source, s: State, a: Action)
    requires Sized(src) && Inv(src, s) && s.phase.Up? && WhileUp(src, s, a).Some? && !a.Arrive?
    ensures Inv(src, WhileUp(src, s, a).value)
  {
    hide Heap, DoStart, DoFinish, Inserted, Touched, X.Completed, X.Drop, X.Aborted, X.Begun,
         AllLanded, Settled, Referenced, P.Put;
    var next := WhileUp(src, s, a).value;
    match a
    case Hit(id, key) => HitKeepsHeap(src, s, id, key);
    case Promote(id, key) => PromoteKeepsHeap(src, s, id, key);
    case StartRead(id, key, mirrored, allocation) =>
      StartKeepsHeap(src, s, id, key, mirrored, allocation, false);
      StartTouches(s, id, key, mirrored, allocation, false);
      IndexSame(src, s, next);
    case StartPrefetch(id, key, mirrored, allocation) =>
      PrefetchKeepsHeap(src, s, key);
      var begun := s.(annex := X.Begun(s.annex, key));
      StartKeepsHeap(src, begun, id, key, mirrored, allocation, true);
      StartTouches(begun, id, key, mirrored, allocation, true);
      IndexSame(src, s, next);
    case Land(id, j) =>
      FinishKeepsHeap(src, s, id, j, Landed);
      FinishTouches(s, id, j, Landed);
    case Fail(id, j) =>
      FinishKeepsHeap(src, s, id, j, Failed);
      FinishTouches(s, id, j, Failed);
    case InsertDemand(id) => InsertKeepsHeap(src, s, id);
    case CompletePrefetch(id) => CompleteKeepsHeap(src, s, id);
    case AbortPrefetch(id) => AbortKeepsHeap(src, s, id);
    case DropSlot(id) => DropKeepsHeap(src, s, id);
    case Collect(block) => CollectKeepsHeap(src, s, block);
    case BeginClose => HeapSame(src, s, next);
    case _ =>
  }

  lemma PrefetchKeepsHeap(src: Source, s: State, key: Key)
    requires Heap(src, s)
    ensures Heap(src, s.(annex := X.Begun(s.annex, key)))
  {
    hide Heap;
    AnnexOf(src, s);
    AnnexKeysKeepHeap(src, s, X.Begun(s.annex, key));
  }

  lemma AbortKeepsHeap(src: Source, s: State, id: nat)
    requires Heap(src, s) && id in s.slots
    ensures Heap(src, s.(annex := X.Aborted(s.annex, s.slots[id].key)))
  {
    hide Heap;
    AnnexOf(src, s);
    AnnexKeysKeepHeap(src, s, X.Aborted(s.annex, s.slots[id].key));
  }

  lemma AnnexOf(src: Source, s: State)
    requires Heap(src, s)
    ensures X.WithinBudget(s.annex)
  {
  }

  lemma StartTouches(s: State, id: nat, key: Key, mirrored: bool, allocation: Block, speculative: bool)
    requires DoStart(s, id, key, mirrored, allocation, speculative).Some?
    ensures var next := DoStart(s, id, key, mirrored, allocation, speculative).value;
            next.header == s.header && next.table == s.table && next.bytes == s.bytes && next.phase == s.phase
  {
  }

  lemma FinishTouches(s: State, id: nat, j: nat, status: Status)
    requires DoFinish(s, id, j, status).Some?
    ensures DoFinish(s, id, j, status).value == s.(slots := DoFinish(s, id, j, status).value.slots)
  {
  }

  lemma ArriveTouches(src: Source, s: State, id: nat, j: nat, count: nat)
    requires DoArrive(src, s, id, j, count).Some?
    ensures var next := DoArrive(src, s, id, j, count).value; next == s.(slots := next.slots, bytes := next.bytes)
  {
  }

  lemma OpenKeepsInv(src: Source, s: State, segment: nat, budget: nat, annexBudget: nat)
    requires Inv(src, s) && DoOpen(s, segment, budget, annexBudget).Some?
    ensures Inv(src, DoOpen(s, segment, budget, annexBudget).value)
  {
    hide RowHolds, Heap, Separate;
    NoRows(src, s.table, s.bytes, segment);
    StartedHolds(src, s, budget, annexBudget);
  }

  lemma StartedHolds(src: Source, s: State, budget: nat, annexBudget: nat)
    ensures Heap(src, Started(s, 0, budget, annexBudget))
  {
    var next := Started(s, 0, budget, annexBudget);
    assert multiset(next.live.Keys) + multiset(next.pool.free) + multiset(next.arena.holes) == multiset{};
  }

  lemma StepKeepsInv(src: Source, s: State, a: Action)
    requires Sized(src) && Inv(src, s) && Apply(src, s, a).Some?
    ensures Inv(src, Apply(src, s, a).value)
  {
    hide Heap, WhileUp, DoOpen, DoLoad, DoPersist, DoMarkClean, RowsHold;
    match a
    case Crash =>
    case Open(segment, budget, annexBudget) => OpenKeepsInv(src, s, segment, budget, annexBudget);
    case Load => LoadKeepsInv(src, s);
    case MarkDirty => HeapSame(src, s, Apply(src, s, a).value);
    case PersistNext => PersistKeepsInv(src, s);
    case MarkClean => MarkCleanKeepsInv(src, s);
    case Arrive(id, j, count) =>
      ArriveIs(src, s, id, j, count);
      ArriveKeepsInv(src, s, id, j, count);
    case _ => StepKeepsInvUp(src, s, a);
  }

  lemma ArriveIs(src: Source, s: State, id: nat, j: nat, count: nat)
    requires s.phase.Up?
    ensures WhileUp(src, s, Arrive(id, j, count)) == DoArrive(src, s, id, j, count)
  {
    hide DoArrive;
  }

  lemma ArriveKeepsInv(src: Source, s: State, id: nat, j: nat, count: nat)
    requires Sized(src) && Inv(src, s) && s.phase.Up? && DoArrive(src, s, id, j, count).Some?
    ensures Inv(src, DoArrive(src, s, id, j, count).value)
  {
    hide Heap, IndexHolds, DoArrive;
    ArriveKeepsHeap(src, s, id, j, count);
    ArriveKeepsIndex(src, s, id, j, count);
    ArriveTouches(src, s, id, j, count);
  }

  function Execute(src: Source, s: State, actions: seq<Action>): Option<State> {
    if actions == [] then Some(s)
    else
      match Execute(src, s, actions[..|actions| - 1])
      case None => None
      case Some(before) => Apply(src, before, actions[|actions| - 1])
  }

  /** Nothing has run yet; the segment, if any, carries no clean index. */
  predicate Initial(s: State) {
    s.phase.Down? && !s.header.clean
  }

  lemma {:induction false} RunsKeepInv(src: Source, s: State, actions: seq<Action>)
    requires Sized(src) && Initial(s) && Execute(src, s, actions).Some?
    ensures Inv(src, Execute(src, s, actions).value)
  {
    hide Inv;
    if actions == [] {
      InitialHolds(src, s);
    } else {
      var n := |actions| - 1;
      RunsKeepInv(src, s, actions[..n]);
      StepKeepsInv(src, Execute(src, s, actions[..n]).value, actions[n]);
    }
  }

  lemma InitialHolds(src: Source, s: State)
    requires Initial(s)
    ensures Inv(src, s)
  {
  }

  /** Safety over every run, with crashes anywhere: while the process is up, a buffer held by the cache,
      by the annex or by a slot whose reads have landed has exactly the bytes of its key. */
  lemma HeldBuffersAreIntact(src: Source, s: State, actions: seq<Action>)
    requires Sized(src) && Initial(s) && Execute(src, s, actions).Some?
    ensures var end := Execute(src, s, actions).value;
            end.phase.Up? ==>
              && (forall key | key in end.cache.entries :: Intact(src, end.bytes, end.cache.entries[key], key))
              && (forall key | key in end.annex.held :: Intact(src, end.bytes, end.annex.held[key], key))
              && (forall id | id in end.slots && AllLanded(end.slots[id]) ::
                    Intact(src, end.bytes, end.slots[id].block, end.slots[id].key))
  {
    hide Intact, AllLanded, Apart, Execute, Initial;
    RunsKeepInv(src, s, actions);
    var end := Execute(src, s, actions).value;
    if end.phase.Up? {
      forall id | id in end.slots && AllLanded(end.slots[id])
        ensures Intact(src, end.bytes, end.slots[id].block, end.slots[id].key)
      {
        assert SlotHolds(src, end, id);
      }
    }
  }

  /** No byte range has two owners: buffers in use, pooled blocks and holes never overlap, and the buffer
      of an unfinished read is referred to by that read alone. */
  lemma NoByteHasTwoOwners(src: Source, s: State, actions: seq<Action>)
    requires Sized(src) && Initial(s) && Execute(src, s, actions).Some?
    ensures var end := Execute(src, s, actions).value;
            end.phase.Up? ==>
              && Separate(multiset(end.live.Keys) + multiset(end.pool.free) + multiset(end.arena.holes))
              && (forall id | id in end.slots && !AllLanded(end.slots[id]) :: Exclusive(end, id))
  {
    hide Intact, AllLanded, Separate, Execute, Initial, Exclusive;
    RunsKeepInv(src, s, actions);
    var end := Execute(src, s, actions).value;
    if end.phase.Up? {
      forall id | id in end.slots && !AllLanded(end.slots[id]) ensures Exclusive(end, id) {
        assert SlotHolds(src, end, id);
      }
    }
  }

  /** Whatever crashed or was shut down before, an index that would be reopened as clean lists only
      blocks inside the segment, apart from each other, holding their keys' bytes. */
  lemma CleanIndexIsTrue(src: Source, s: State, actions: seq<Action>)
    requires Sized(src) && Initial(s) && Execute(src, s, actions).Some?
    ensures var end := Execute(src, s, actions).value;
            end.header.clean ==> RowsHold(src, end.table, end.bytes, end.header.segment, end.header.count)
  {
    hide RowsHold, Execute, Initial, PhaseHolds;
    RunsKeepInv(src, s, actions);
  }

  // ----- shutdown and warm restart -----

  function KeysOf(rows: seq<Row>): seq<Key> {
    if rows == [] then [] else KeysOf(rows[..|rows| - 1]) + [rows[|rows| - 1].key]
  }

  lemma {:induction false} KeyOfRow(rows: seq<Row>, key: Key)
    ensures key in KeysOf(rows) <==> exists row | row in rows :: row.key == key
  {
    if rows == [] {
    } else {
      var n := |rows| - 1;
      KeyOfRow(rows[..n], key);
      assert rows == rows[..n] + [rows[n]];
    }
  }

  /** What a reload makes of rows that all fit: the same keys in the same order, at the same places. */
  ghost predicate Restores(w: Warm, rows: seq<Row>, budget: nat) {
    && w.cache.budget == budget && w.cache.lru == KeysOf(rows) && w.cache.used == Sum(LengthOf, KeysOf(rows))
    && (forall key :: key in w.cache.entries <==> key in KeysOf(rows))
    && (forall row | row in rows :: row.key in w.cache.entries && w.cache.entries[row.key] == row.block)
  }

  /** Rows that the reload loop does not skip. */
  ghost predicate Loadable(rows: seq<Row>) {
    && Distinct(KeysOf(rows))
    && forall row | row in rows :: 0 < row.key.length <= row.block.size
  }

  lemma {:induction false} ReloadRestores(table: map<nat, Row>, rows: seq<Row>, budget: nat)
    requires Lists(table, rows) && Loadable(rows) && Sum(LengthOf, KeysOf(rows)) <= budget
    ensures Restores(ReloadRows(table, |rows|, budget), rows, budget)
  {
    if rows == [] {
    } else {
      hide Sum;
      var n := |rows| - 1;
      var before, row := rows[..n], rows[n];
      assert rows == before + [row];
      SumSnoc(LengthOf, KeysOf(before), row.key);
      LoadableFront(rows);
      ReloadRestores(table, before, budget);
      var w := ReloadRows(table, n, budget);
      RestoresOneMore(w, before, row, budget);
    }
  }

  lemma LoadableFront(rows: seq<Row>)
    requires Loadable(rows) && rows != []
    ensures var n := |rows| - 1;
            Loadable(rows[..n]) && rows[n].key !in KeysOf(rows[..n]) && 0 < rows[n].key.length <= rows[n].block.size
  {
    var n := |rows| - 1;
    var before := KeysOf(rows[..n]);
    assert KeysOf(rows) == before + [rows[n].key];
    forall i, j | 0 <= i < j < |before| ensures before[i] != before[j] {
      assert KeysOf(rows)[i] == before[i] && KeysOf(rows)[j] == before[j];
    }
    forall i | 0 <= i < |before| ensures before[i] != rows[n].key {
      assert KeysOf(rows)[i] == before[i] && KeysOf(rows)[|before|] == rows[n].key;
    }
  }

  lemma RestoresOneMore(w: Warm, before: seq<Row>, row: Row, budget: nat)
    requires Restores(w, before, budget) && row.key !in KeysOf(before) && 0 < row.key.length <= row.block.size
    requires Sum(LengthOf, KeysOf(before)) <= budget
    ensures Restores(ReloadRow(w, row), before + [row], budget)
  {
    hide Sum;
    assert (before + [row])[..|before|] == before;
    SumSnoc(LengthOf, KeysOf(before), row.key);
    forall r | r in before + [row] ensures r == row || r in before {
    }
    forall r | r in before ensures r.key != row.key {
      KeyOfRow(before, r.key);
    }
  }

  lemma {:induction false} ResidentIsLoadable(src: Source, s: State, n: nat)
    requires Apart(s) && CacheHolds(src, s) && Positive(s) && s.arena.data == DATA && n <= |s.cache.lru|
    ensures Loadable(Resident(s.cache, n))
  {
    hide Apart, CacheHolds, Resident, RowHolds;
    if n == 0 {
      NoResidents(s.cache);
    } else {
      ResidentIsLoadable(src, s, n - 1);
      EntryResides(src, s, n);
      ResidentStep(s.cache, n);
      ResidentHolds(src, s, n - 1);
      var before, key := Resident(s.cache, n - 1), s.cache.lru[n - 1];
      var block := s.cache.entries[key];
      if block.shared {
        var row := Row(key, block);
        assert (before + [row])[..|before|] == before;
        KeyOfRow(before, key);
        ResidentFits(src, s, n, row);
        assert forall r | r in before :: Resides(src, s, n - 1, r);
      }
    }
  }

  lemma ResidentFits(src: Source, s: State, n: nat, row: Row)
    requires n <= |s.cache.lru| && Resides(src, s, n, row) && Positive(s)
    ensures 0 < row.key.length <= row.block.size
  {
  }

  /** What a restart brings back: `rows`, at the same places and in the same order of use. */
  ghost predicate BringsBack(end: State, rows: seq<Row>) {
    && end.cache.lru == KeysOf(rows)
    && (forall key :: key in end.cache.entries <==> key in KeysOf(rows))
    && (forall row | row in rows :: row.key in end.cache.entries && end.cache.entries[row.key] == row.block)
    && end.cache.used == Sum(LengthOf, KeysOf(rows)) <= end.cache.budget
  }

  /** Once the rows are written: mark clean, reopen, reload. */
  lemma ClosedRestartRestores(src: Source, s: State, budget: nat, annexBudget: nat)
    requires Inv(src, s) && s.phase.Closing?
    requires s.phase.next == |s.cache.lru| || s.phase.persisted == INDEX_ENTRIES
    requires Sum(LengthOf, KeysOf(Resident(s.cache, s.phase.next))) <= budget
    ensures var run := [MarkClean, Open(s.header.segment, budget, annexBudget), Load];
            && Execute(src, s, run).Some?
            && BringsBack(Execute(src, s, run).value, Resident(s.cache, s.phase.next))
  {
    hide Inv, Resident, Sum, ReloadRows, Restores, BringsBack, Execute, DoLoad;
    RowsAreWritten(src, s);
    var rows := Resident(s.cache, s.phase.next);
    var closed := s.(phase := Down, header := Header(true, s.header.segment, |rows|));
    var reopened := Started(closed, s.header.segment, budget, annexBudget).(phase := Opened(true));
    ReloadRestores(s.table, rows, budget);
    ThreeSteps(src, s, MarkClean, Open(s.header.segment, budget, annexBudget), Load, closed, reopened);
    LoadBringsBack(reopened, rows);
  }

  lemma SegmentHoldsData(src: Source, s: State)
    requires Inv(src, s) && s.phase.Closing?
    ensures s.header.segment >= DATA
  {
  }

  /** What closing has established when its loop is over. */
  lemma RowsAreWritten(src: Source, s: State)
    requires Inv(src, s) && s.phase.Closing?
    ensures s.header.segment >= DATA && s.phase.next <= |s.cache.lru|
    ensures var rows := Resident(s.cache, s.phase.next);
            s.phase.persisted == |rows| <= INDEX_ENTRIES && Lists(s.table, rows) && Loadable(rows)
  {
    SegmentHoldsData(src, s);
    hide IndexHolds, Apart, CacheHolds, Resident, Lists, Loadable;
    ResidentIsLoadable(src, s, s.phase.next);
  }

  lemma LoadBringsBack(s: State, rows: seq<Row>)
    requires s.phase == Opened(true) && s.header.count == |rows| <= INDEX_ENTRIES
    requires Restores(ReloadRows(s.table, |rows|, s.cache.budget), rows, s.cache.budget)
    requires Sum(LengthOf, KeysOf(rows)) <= s.cache.budget
    ensures DoLoad(s).Some? && BringsBack(DoLoad(s).value, rows)
  {
    hide ReloadRows, Sum, KeysOf;
  }

  function Persists(n: nat): (run: seq<Action>)
    ensures |run| == n
  {
    seq(n, _ => PersistNext)
  }

  ghost predicate RoomBefore(c: Cache<Block>, n: nat)
    requires n <= |c.lru|
  {
    forall k: nat | k < n :: |Resident(c, k)| < INDEX_ENTRIES
  }

  /** Where the loop that writes the rows stops: after the last entry, or when the table is full. */
  ghost predicate StopsAt(c: Cache<Block>, n: nat) {
    && n <= |c.lru| && RoomBefore(c, n) && |Resident(c, n)| <= INDEX_ENTRIES
    && (n == |c.lru| || |Resident(c, n)| == INDEX_ENTRIES)
  }

  lemma {:induction false} LoopEnd(c: Cache<Block>, limit: nat) returns (n: nat)
    requires limit <= |c.lru|
    ensures n <= limit && RoomBefore(c, n) && |Resident(c, n)| <= INDEX_ENTRIES
    ensures n == limit || |Resident(c, n)| == INDEX_ENTRIES
  {
    hide Resident;
    n := 0;
    NoResidents(c);
    if limit > 0 {
      n := LoopEnd(c, limit - 1);
      if |Resident(c, n)| < INDEX_ENTRIES {
        n := limit;
        OneRowAtMost(c, n);
      }
    }
  }

  lemma OneRowAtMost(c: Cache<Block>, n: nat)
    requires 0 < n <= |c.lru|
    ensures Resident(c, n) == Resident(c, n - 1)
            || (Resident(c, n) != [] && Resident(c, n)[..|Resident(c, n)| - 1] == Resident(c, n - 1))
  {
  }

  /** The loop's first `n` steps. */
  lemma {:induction false} PersistRun(src: Source, s: State, n: nat)
    requires Sized(src) && Inv(src, s) && s.phase == Closing(0, 0) && n <= |s.cache.lru|
    requires RoomBefore(s.cache, n)
    ensures Execute(src, s, Persists(n)).Some?
    ensures var end := Execute(src, s, Persists(n)).value;
            Inv(src, end) && end.cache == s.cache && end.header == s.header
            && end.phase == Closing(n, |Resident(s.cache, n)|)
  {
    hide Inv, Resident;
    if n == 0 {
      NoResidents(s.cache);
    } else {
      PersistRun(src, s, n - 1);
      var before := Execute(src, s, Persists(n - 1)).value;
      assert Persists(n)[..n - 1] == Persists(n - 1);
      EntriesAreListed(src, before);
      StepKeepsInv(src, before, PersistNext);
      ResidentStep(s.cache, n);
    }
  }

  lemma EntriesAreListed(src: Source, s: State)
    requires Inv(src, s) && s.phase.Closing?
    ensures forall i | 0 <= i < |s.cache.lru| :: s.cache.lru[i] in s.cache.entries
  {
    hide IndexHolds, SlotsHold, AnnexHolds, Apart, Resident;
  }

  lemma {:induction false} RunJoins(src: Source, s: State, first: seq<Action>, rest: seq<Action>)
    requires Execute(src, s, first).Some?
    ensures Execute(src, s, first + rest) == Execute(src, Execute(src, s, first).value, rest)
  {
    hide Apply;
    if rest == [] {
      assert first + rest == first;
    } else {
      var n := |rest| - 1;
      RunJoins(src, s, first, rest[..n]);
      assert (first + rest)[..|first| + n] == first + rest[..n];
    }
  }

  /** A clean shutdown and a reopening. From any running state with a segment whose calls and prefetches
      have settled, the process can close, writing the rows until the cache or the table is exhausted,
      and a reopening under a budget that holds those rows brings back exactly them. */
  lemma WarmRestartRestores(src: Source, s: State, budget: nat, annexBudget: nat) returns (n: nat)
    requires Sized(src) && Inv(src, s) && s.phase.Up? && s.arena.segment > 0
    requires forall id | id in s.slots :: Settled(s.slots[id])
    requires Sum(LengthOf, KeysOf(Resident(s.cache, |s.cache.lru|))) <= budget
    ensures StopsAt(s.cache, n)
    ensures var run := [BeginClose] + Persists(n) + [MarkClean, Open(s.header.segment, budget, annexBudget), Load];
            && Execute(src, s, run).Some?
            && BringsBack(Execute(src, s, run).value, Resident(s.cache, n))
  {
    hide Inv, Resident, BringsBack, Execute;
    n := LoopEnd(s.cache, |s.cache.lru|);
    var closing := s.(phase := Closing(0, 0));
    BeginCloseRuns(src, s);
    PersistRun(src, closing, n);
    var written := Execute(src, closing, Persists(n)).value;
    FewerRows(s.cache, n, |s.cache.lru|);
    ClosedRestartRestores(src, written, budget, annexBudget);
    RunJoins(src, s, [BeginClose], Persists(n));
    RunJoins(src, s, [BeginClose] + Persists(n), [MarkClean, Open(s.header.segment, budget, annexBudget), Load]);
  }

  lemma BeginCloseRuns(src: Source, s: State)
    requires Sized(src) && Inv(src, s) && s.phase.Up? && s.arena.segment > 0
    requires forall id | id in s.slots :: Settled(s.slots[id])
    ensures Execute(src, s, [BeginClose]) == Some(s.(phase := Closing(0, 0)))
    ensures Inv(src, s.(phase := Closing(0, 0)))
  {
    hide Inv;
    assert [BeginClose][..0] == [];
    assert Apply(src, s, BeginClose) == Some(s.(phase := Closing(0, 0)));
    StepKeepsInv(src, s, BeginClose);
  }

  lemma LastKey(rows: seq<Row>)
    ensures rows != [] ==> Sum(LengthOf, KeysOf(rows[..|rows| - 1])) <= Sum(LengthOf, KeysOf(rows))
  {
    if rows != [] {
      hide Sum;
      SumSnoc(LengthOf, KeysOf(rows[..|rows| - 1]), rows[|rows| - 1].key);
    }
  }

  function RowLengths(c: Cache<Block>, n: nat): nat
    requires n <= |c.lru|
  {
    Sum(LengthOf, KeysOf(Resident(c, n)))
  }

  lemma OneRowLonger(c: Cache<Block>, n: nat)
    requires 0 < n <= |c.lru|
    ensures RowLengths(c, n - 1) <= RowLengths(c, n)
  {
    hide Resident, Sum, KeysOf;
    OneRowAtMost(c, n);
    LastKey(Resident(c, n));
  }

  lemma {:induction false} FewerRows(c: Cache<Block>, n: nat, more: nat)
    requires n <= more <= |c.lru|
    ensures RowLengths(c, n) <= RowLengths(c, more)
    decreases more
  {
    hide RowLengths;
    if n < more {
      FewerRows(c, n, more - 1);
      OneRowLonger(c, more);
    }
  }

  lemma ThreeSteps(src: Source, s: State, a: Action, b: Action, c: Action, one: State, two: State)
    requires Apply(src, s, a) == Some(one) && Apply(src, one, b) == Some(two)
    ensures Execute(src, s, [a, b, c]) == Apply(src, two, c)
  {
    hide Apply;
    assert [a, b, c][..2] == [a, b] && [a, b][..1] == [a] && [a][..0] == [];
    assert Execute(src, s, []) == Some(s);
    assert Execute(src, s, [a]) == Some(one);
    assert Execute(src, s, [a, b]) == Some(two);
  }
}
