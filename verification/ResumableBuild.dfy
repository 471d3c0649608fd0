/** Resumable artifact builds and their completion receipts
    (tools/prepare_mixed_expert_repack.py), as runs of steps that a crash can cut anywhere. */
module ResumableBuild {
  import opened Options

  type Byte = bv8

  /** Everything a completion receipt records; `sizes` is its expert layout. */
  datatype Receipt = Receipt(about: string, sizes: seq<nat>)

  /** The bytes of the k-th expert. A receipt names its plan and sources, so it determines them. */
  type Encoder = (Receipt, nat) -> seq<Byte>

  function Expected(sizes: seq<nat>): nat {
    if sizes == [] then 0 else Expected(sizes[..|sizes| - 1]) + sizes[|sizes| - 1]
  }

  /** The first `n` experts' bytes. */
  function Written(enc: Encoder, r: Receipt, n: nat): seq<Byte> {
    if n == 0 then [] else Written(enc, r, n - 1) + enc(r, n - 1)
  }

  function Whole(enc: Encoder, r: Receipt): seq<Byte> {
    Written(enc, r, |r.sizes|)
  }

  // ----- the output directory and a run over it -----

  datatype Temporary = Partial | Full(receipt: Receipt)

  datatype Disk = Disk(data: map<string, seq<Byte>>, receipts: map<string, Receipt>,
                       temporaries: map<string, Temporary>)

  datatype Job = Job(name: string, receipt: Receipt)

  datatype Phase =
    | Check
    | Unlinking
    | Opening
    | Writing(done: nat, buffer: seq<Byte>)
    | Measuring(reused: bool)
    | Recording
    | Filling
    | Renaming

  datatype Process = Idle | Running(resume: bool, work: seq<Job>, next: nat, phase: Phase)

  datatype State = State(disk: Disk, process: Process)

  datatype Action =
    | Start(resume: bool, work: seq<Job>)
    | Decide
    | Unlink
    | Open
    | Encode
    | Flush(count: nat)
    | Close
    | Measure
    | BeginTemporary
    | EndTemporary
    | Rename
    | Finish
    | Crash

  /** One plan lists a file once, or lists it again with the same receipt. */
  ghost predicate Consistent(work: seq<Job>) {
    forall i, j | 0 <= i < |work| && 0 <= j < |work| && work[i].name == work[j].name :: work[i] == work[j]
  }

  /** A file is kept only if asked for, of the right size, and described by the very same receipt. */
  predicate Reusable(disk: Disk, resume: bool, job: Job) {
    && resume
    && job.name in disk.data && |disk.data[job.name]| == Expected(job.receipt.sizes)
    && job.name in disk.receipts && disk.receipts[job.name] == job.receipt
  }

  function At(s: State, phase: Phase): State
    requires s.process.Running?
  {
    s.(process := s.process.(phase := phase))
  }

  function Next(s: State): State
    requires s.process.Running?
  {
    s.(process := s.process.(next := s.process.next + 1, phase := Check))
  }

  ghost function Apply(enc: Encoder, s: State, a: Action): Option<State> {
    if a.Crash? then
      Some(s.(process := Idle))
    else if a.Start? then
      if s.process.Idle? && Consistent(a.work) then Some(s.(process := Running(a.resume, a.work, 0, Check))) else None
    else if !s.process.Running? then
      None
    else if s.process.next >= |s.process.work| then
      if a.Finish? then Some(s.(process := Idle)) else None
    else
      Step(enc, s, a)
  }

  function Step(enc: Encoder, s: State, a: Action): Option<State>
    requires s.process.Running? && s.process.next < |s.process.work|
  {
    var job := s.process.work[s.process.next];
    var name, disk := job.name, s.disk;
    match (s.process.phase, a)
    case (Check, Decide) =>
      Some(At(s, if Reusable(disk, s.process.resume, job) then Measuring(true) else Unlinking))
    case (Unlinking, Unlink) =>
      Some(At(s.(disk := disk.(receipts := disk.receipts - {name})), Opening))
    case (Opening, Open) =>
      Some(At(s.(disk := disk.(data := disk.data[name := []])), Writing(0, [])))
    case (Writing(done, buffer), Encode) =>
      if done < |job.receipt.sizes| && |enc(job.receipt, done)| == job.receipt.sizes[done] then
        Some(At(s, Writing(done + 1, buffer + enc(job.receipt, done))))
      else None
    case (Writing(done, buffer), Flush(count)) =>
      if name in disk.data && count <= |buffer| then
        Some(At(s.(disk := disk.(data := disk.data[name := disk.data[name] + buffer[..count]])),
                Writing(done, buffer[count..])))
      else None
    case (Writing(done, buffer), Close) =>
      if done == |job.receipt.sizes| && buffer == [] then Some(At(s, Measuring(false))) else None
    case (Measuring(reused), Measure) =>
      if name in disk.data && |disk.data[name]| == Expected(job.receipt.sizes) then
        Some(if reused then Next(s) else At(s, Recording))
      else None
    case (Recording, BeginTemporary) =>
      Some(At(s.(disk := disk.(temporaries := disk.temporaries[name := Partial])), Filling))
    case (Filling, EndTemporary) =>
      Some(At(s.(disk := disk.(temporaries := disk.temporaries[name := Full(job.receipt)])), Renaming))
    case (Renaming, Rename) =>
      if name in disk.temporaries && disk.temporaries[name].Full? then
        Some(Next(s.(disk := disk.(receipts := disk.receipts[name := disk.temporaries[name].receipt],
                                   temporaries := disk.temporaries - {name}))))
      else None
    case _ => None
  }

  ghost function Execute(enc: Encoder, s: State, actions: seq<Action>): Option<State> {
    if actions == [] then Some(s)
    else
      var n := |actions| - 1;
      match Execute(enc, s, actions[..n])
      case None => None
      case Some(before) => Apply(enc, before, actions[n])
  }

  // ----- receipts are true -----

  /** A receipt on disk describes the file beside it. */
  ghost predicate True(enc: Encoder, disk: Disk) {
    forall name | name in disk.receipts :: name in disk.data && disk.data[name] == Whole(enc, disk.receipts[name])
  }

  /** What the current file looks like in each phase of its job. */
  ghost predicate Progress(enc: Encoder, disk: Disk, job: Job, phase: Phase) {
    match phase
    case Check => true
    case Unlinking => true
    case Opening => job.name !in disk.receipts
    case Writing(done, buffer) =>
      && job.name !in disk.receipts && job.name in disk.data
      && done <= |job.receipt.sizes| && disk.data[job.name] + buffer == Written(enc, job.receipt, done)
    case Measuring(reused) =>
      && job.name in disk.data && disk.data[job.name] == Whole(enc, job.receipt)
      && if reused then job.name in disk.receipts && disk.receipts[job.name] == job.receipt
         else job.name !in disk.receipts
    case Recording => job.name in disk.data && disk.data[job.name] == Whole(enc, job.receipt)
    case Filling => job.name in disk.data && disk.data[job.name] == Whole(enc, job.receipt)
    case Renaming =>
      && job.name in disk.data && disk.data[job.name] == Whole(enc, job.receipt)
      && job.name in disk.temporaries && disk.temporaries[job.name] == Full(job.receipt)
  }

  ghost predicate Recorded(disk: Disk, job: Job) {
    job.name in disk.receipts && disk.receipts[job.name] == job.receipt
  }

  /** The jobs behind the current one are recorded, except for the file being rebuilt now. */
  ghost predicate Behind(disk: Disk, p: Process)
    requires p.Running?
  {
    && p.next <= |p.work|
    && forall i | 0 <= i < p.next ::
         || Recorded(disk, p.work[i])
         || (p.phase != Check && p.next < |p.work| && p.work[i].name == p.work[p.next].name)
  }

  ghost predicate Inv(enc: Encoder, s: State) {
    && True(enc, s.disk)
    && (s.process.Running? ==>
          && Consistent(s.process.work)
          && Behind(s.disk, s.process)
          && (s.process.next == |s.process.work| ==> s.process.phase == Check)
          && (s.process.next < |s.process.work| ==>
                Progress(enc, s.disk, s.process.work[s.process.next], s.process.phase)))
  }

  lemma StepKeepsInv(enc: Encoder, s: State, a: Action)
    requires Inv(enc, s) && Apply(enc, s, a).Some?
    ensures Inv(enc, Apply(enc, s, a).value)
  {
    if !a.Crash? && !a.Start? && s.process.next < |s.process.work| {
      hide Step, True, Behind, Progress, Consistent;
      StepShape(enc, s, a);
      StepKeepsTrue(enc, s, a);
      StepKeepsBehind(enc, s, a);
      StepKeepsProgress(enc, s, a);
    }
  }

  lemma StepShape(enc: Encoder, s: State, a: Action)
    requires s.process.Running? && s.process.next < |s.process.work| && Step(enc, s, a).Some?
    ensures var p := Step(enc, s, a).value.process;
            && p.Running? && p.work == s.process.work && p.resume == s.process.resume
            && (p.next == s.process.next || (p.next == s.process.next + 1 && p.phase == Check))
  {
  }

  lemma StepKeepsTrue(enc: Encoder, s: State, a: Action)
    requires s.process.Running? && s.process.next < |s.process.work| && Step(enc, s, a).Some?
    requires True(enc, s.disk) && Progress(enc, s.disk, s.process.work[s.process.next], s.process.phase)
    ensures True(enc, Step(enc, s, a).value.disk)
  {
    hide Written, Expected, Whole;
  }

  lemma StepKeepsBehind(enc: Encoder, s: State, a: Action)
    requires s.process.Running? && s.process.next < |s.process.work| && Step(enc, s, a).Some?
    requires Consistent(s.process.work) && Behind(s.disk, s.process)
    requires Progress(enc, s.disk, s.process.work[s.process.next], s.process.phase)
    ensures var n := Step(enc, s, a).value; n.process.Running? && Behind(n.disk, n.process)
  {
    hide Written, Expected, Whole;
  }

  lemma StepKeepsProgress(enc: Encoder, s: State, a: Action)
    requires s.process.Running? && s.process.next < |s.process.work| && Step(enc, s, a).Some?
    requires Progress(enc, s.disk, s.process.work[s.process.next], s.process.phase)
    requires True(enc, s.disk)
    ensures var n := Step(enc, s, a).value;
            n.process.Running? && n.process.next < |n.process.work| ==>
              Progress(enc, n.disk, n.process.work[n.process.next], n.process.phase)
  {
    hide Written, Expected;
    WrittenOne(enc, s.process.work[s.process.next].receipt);
  }

  lemma WrittenOne(enc: Encoder, r: Receipt)
    ensures Written(enc, r, 0) == []
    ensures forall n: nat :: Written(enc, r, n + 1) == Written(enc, r, n) + enc(r, n)
  {
  }

  ghost const EMPTY: State := State(Disk(map[], map[], map[]), Idle)

  lemma {:induction false} RunsKeepInv(enc: Encoder, s: State, actions: seq<Action>)
    requires Inv(enc, s) && Execute(enc, s, actions).Some?
    ensures Inv(enc, Execute(enc, s, actions).value)
  {
    if actions == [] {
    } else {
      var n := |actions| - 1;
      RunsKeepInv(enc, s, actions[..n]);
      StepKeepsInv(enc, Execute(enc, s, actions[..n]).value, actions[n]);
    }
  }

  /** Whatever runs, with whatever plans, were started, finished or cut short before:
      a completion receipt on disk implies that the file is the one it describes. */
  lemma ReceiptsAreTrue(enc: Encoder, actions: seq<Action>, name: string)
    requires Execute(enc, EMPTY, actions).Some?
    ensures var disk := Execute(enc, EMPTY, actions).value.disk;
            name in disk.receipts ==> name in disk.data && disk.data[name] == Whole(enc, disk.receipts[name])
  {
    RunsKeepInv(enc, EMPTY, actions);
  }

  ghost predicate AtTheEnd(s: State, work: seq<Job>) {
    s.process.Running? && s.process.work == work && s.process.next == |work|
  }

  /** A run that reaches its end has produced every file and receipt of its plan. */
  lemma FinishedIsComplete(enc: Encoder, actions: seq<Action>, work: seq<Job>)
    requires Execute(enc, EMPTY, actions).Some? && AtTheEnd(Execute(enc, EMPTY, actions).value, work)
    ensures var disk := Execute(enc, EMPTY, actions).value.disk;
            forall job | job in work ::
              && job.name in disk.data && disk.data[job.name] == Whole(enc, job.receipt)
              && job.name in disk.receipts && disk.receipts[job.name] == job.receipt
  {
    RunsKeepInv(enc, EMPTY, actions);
    var s := Execute(enc, EMPTY, actions).value;
    forall job | job in work ensures Recorded(s.disk, job) {
      var i :| 0 <= i < |work| && work[i] == job;
      assert i < s.process.next;
    }
  }

  /** A build resumed after any history of other plans and crashes leaves the same files
      as a fresh build in an empty directory. */
  lemma ResumedEqualsFresh(enc: Encoder, history: seq<Action>, straight: seq<Action>, work: seq<Job>)
    requires Execute(enc, EMPTY, history).Some? && AtTheEnd(Execute(enc, EMPTY, history).value, work)
    requires Execute(enc, EMPTY, straight).Some? && AtTheEnd(Execute(enc, EMPTY, straight).value, work)
    ensures var a, b := Execute(enc, EMPTY, history).value.disk, Execute(enc, EMPTY, straight).value.disk;
            forall job | job in work ::
              && job.name in a.data && job.name in b.data && a.data[job.name] == b.data[job.name]
              && job.name in a.receipts && job.name in b.receipts && a.receipts[job.name] == b.receipts[job.name]
  {
    FinishedIsComplete(enc, history, work);
    FinishedIsComplete(enc, straight, work);
  }

  // ----- the build loop -----

  lemma Extend(enc: Encoder, s: State, actions: seq<Action>, a: Action)
    requires Execute(enc, s, actions).Some?
    ensures Execute(enc, s, actions + [a]) == Apply(enc, Execute(enc, s, actions).value, a)
  {
    assert (actions + [a])[..|actions|] == actions;
  }

  lemma {:induction false} Join(enc: Encoder, s: State, first: seq<Action>, second: seq<Action>)
    requires Execute(enc, s, first).Some?
    ensures Execute(enc, s, first + second) == Execute(enc, Execute(enc, s, first).value, second)
  {
    if second == [] {
      assert first + second == first;
    } else {
      hide Apply;
      var n := |second| - 1;
      Join(enc, s, first, second[..n]);
      assert (first + second)[..|first| + n] == first + second[..n];
      assert (first + second)[|first| + n] == second[n];
    }
  }

  /** A run that got to the end of its plan stops there, and leaves the directory as it is. */
  lemma EndedRunStops(enc: Encoder, s: State, work: seq<Job>)
    requires AtTheEnd(s, work)
    ensures Apply(enc, s, Finish) == Some(State(s.disk, Idle))
  {
  }

  ghost predicate Reached(enc: Encoder, from: State, trace: seq<Action>, to: State) {
    Execute(enc, from, trace) == Some(to)
  }

  lemma Go(enc: Encoder, from: State, trace: seq<Action>, at: State, a: Action, to: State) returns (longer: seq<Action>)
    requires Reached(enc, from, trace, at) && Apply(enc, at, a) == Some(to)
    ensures Reached(enc, from, longer, to)
  {
    Extend(enc, from, trace, a);
    longer := trace + [a];
  }

  /** The receipt goes before the file is opened for writing. */
  lemma Begun(enc: Encoder, disk: Disk, p: Process, job: Job) returns (trace: seq<Action>)
    requires p.Running? && p.next < |p.work| && p.work[p.next] == job && p.phase == Check
    requires !Reusable(disk, p.resume, job)
    ensures Reached(enc, State(disk, p), trace,
                    State(disk.(receipts := disk.receipts - {job.name}, data := disk.data[job.name := []]),
                          p.(phase := Writing(0, []))))
  {
    hide Execute, Reached;
    var from := State(disk, p);
    StartedAt(enc, from);
    var unlinked := disk.(receipts := disk.receipts - {job.name});
    trace := Go(enc, from, [], from, Decide, State(disk, p.(phase := Unlinking)));
    trace := Go(enc, from, trace, State(disk, p.(phase := Unlinking)), Unlink, State(unlinked, p.(phase := Opening)));
    trace := Go(enc, from, trace, State(unlinked, p.(phase := Opening)), Open,
                State(unlinked.(data := disk.data[job.name := []]), p.(phase := Writing(0, []))));
  }

  lemma WroteOne(enc: Encoder, from: State, before: seq<Action>, disk: Disk, p: Process, k: nat)
    returns (trace: seq<Action>)
    requires p.Running? && p.next < |p.work| && k < |p.work[p.next].receipt.sizes|
    requires var job := p.work[p.next];
             job.name in disk.data && |enc(job.receipt, k)| == job.receipt.sizes[k]
    requires Reached(enc, from, before, State(disk, p.(phase := Writing(k, []))))
    ensures var job := p.work[p.next];
            Reached(enc, from, trace,
                    State(disk.(data := disk.data[job.name := disk.data[job.name] + enc(job.receipt, k)]),
                          p.(phase := Writing(k + 1, []))))
  {
    hide Execute, Reached;
    var job := p.work[p.next];
    var bytes := enc(job.receipt, k);
    assert [] + bytes == bytes && bytes[..|bytes|] == bytes && bytes[|bytes|..] == [];
    trace := Go(enc, from, before, State(disk, p.(phase := Writing(k, []))), Encode,
                State(disk, p.(phase := Writing(k + 1, bytes))));
    trace := Go(enc, from, trace, State(disk, p.(phase := Writing(k + 1, bytes))), Flush(|bytes|),
                State(disk.(data := disk.data[job.name := disk.data[job.name] + bytes]),
                      p.(phase := Writing(k + 1, []))));
  }

  /** The new receipt is complete in its temporary file before the rename. */
  lemma Committed(enc: Encoder, from: State, before: seq<Action>, disk: Disk, p: Process) returns (trace: seq<Action>)
    requires p.Running? && p.next < |p.work|
    requires Reached(enc, from, before, State(disk, p.(phase := Recording)))
    ensures var job := p.work[p.next];
            Reached(enc, from, trace,
                    State(disk.(receipts := disk.receipts[job.name := job.receipt],
                                temporaries := disk.temporaries - {job.name}),
                          p.(next := p.next + 1, phase := Check)))
  {
    hide Execute, Reached;
    var job := p.work[p.next];
    var part := disk.(temporaries := disk.temporaries[job.name := Partial]);
    var full := disk.(temporaries := disk.temporaries[job.name := Full(job.receipt)]);
    assert part.(temporaries := part.temporaries[job.name := Full(job.receipt)]) == full;
    assert full.temporaries - {job.name} == disk.temporaries - {job.name};
    trace := Go(enc, from, before, State(disk, p.(phase := Recording)), BeginTemporary,
                State(part, p.(phase := Filling)));
    trace := Go(enc, from, trace, State(part, p.(phase := Filling)), EndTemporary, State(full, p.(phase := Renaming)));
    trace := Go(enc, from, trace, State(full, p.(phase := Renaming)), Rename,
                State(disk.(receipts := disk.receipts[job.name := job.receipt],
                            temporaries := disk.temporaries - {job.name}),
                      p.(next := p.next + 1, phase := Check)));
  }

  /** How many encodings, from the k-th on, have their recorded size before one does not. */
  function Good(enc: Encoder, r: Receipt, k: nat): (n: nat)
    requires k <= |r.sizes|
    ensures k <= n <= |r.sizes|
    decreases |r.sizes| - k
  {
    if k < |r.sizes| && |enc(r, k)| == r.sizes[k] then Good(enc, r, k + 1) else k
  }

  /** Every expert's encoding has the size its receipt records. */
  ghost predicate Encodes(enc: Encoder, r: Receipt) {
    forall k: nat | k < |r.sizes| :: |enc(r, k)| == r.sizes[k]
  }

  lemma {:induction false} GoodIsEncodes(enc: Encoder, r: Receipt, k: nat)
    requires k <= |r.sizes|
    ensures Good(enc, r, k) == |r.sizes| <==> forall i: nat | k <= i < |r.sizes| :: |enc(r, i)| == r.sizes[i]
    decreases |r.sizes| - k
  {
    if k < |r.sizes| && |enc(r, k)| == r.sizes[k] {
      GoodIsEncodes(enc, r, k + 1);
    }
  }

  lemma {:induction false} WrittenLength(enc: Encoder, r: Receipt, n: nat)
    requires n <= |r.sizes| && forall k: nat | k < n :: |enc(r, k)| == r.sizes[k]
    ensures |Written(enc, r, n)| == Expected(r.sizes[..n])
  {
    if n == 0 {
    } else {
      WrittenLength(enc, r, n - 1);
      assert r.sizes[..n][..n - 1] == r.sizes[..n - 1];
    }
  }

  lemma WholeLength(enc: Encoder, r: Receipt)
    requires Encodes(enc, r)
    ensures |Whole(enc, r)| == Expected(r.sizes)
  {
    WrittenLength(enc, r, |r.sizes|);
    assert r.sizes[..|r.sizes|] == r.sizes;
  }

  /** The build of one file goes through. */
  ghost predicate Buildable(enc: Encoder, disk: Disk, resume: bool, job: Job) {
    Reusable(disk, resume, job) || Encodes(enc, job.receipt)
  }

  /** The directory after one file: as it was if the file is kept, with the new file and receipt if it is
      built, and without a receipt, the file cut at the first expert of another size, if it is not. */
  function Built(enc: Encoder, disk: Disk, resume: bool, job: Job): Disk {
    if Reusable(disk, resume, job) then disk
    else
      var n := Good(enc, job.receipt, 0);
      var data := disk.data[job.name := Written(enc, job.receipt, n)];
      if n == |job.receipt.sizes| then
        Disk(data, disk.receipts[job.name := job.receipt], disk.temporaries - {job.name})
      else
        Disk(data, disk.receipts - {job.name}, disk.temporaries)
  }

  /** The file of a job with its recorded size, and that very receipt beside it. */
  ghost predicate InPlace(disk: Disk, job: Job) {
    && job.name in disk.data && job.name in disk.receipts
    && disk.receipts[job.name] == job.receipt && |disk.data[job.name]| == Expected(job.receipt.sizes)
  }

  /** A file is left alone exactly when the build resumes and the file is in place. Every other file is made
      anew: a build that does not resume trusts nothing on the disk, and only the encodings decide. */
  lemma KeptOrMadeAnew(enc: Encoder, disk: Disk, resume: bool, job: Job)
    ensures var after := Built(enc, disk, resume, job);
            if resume && InPlace(disk, job) then
              Buildable(enc, disk, resume, job) && after == disk
            else
              && (Buildable(enc, disk, resume, job) <==> Encodes(enc, job.receipt))
              && (Encodes(enc, job.receipt) ==>
                    && after.data == disk.data[job.name := Whole(enc, job.receipt)]
                    && after.receipts == disk.receipts[job.name := job.receipt])
  {
    GoodMeansEncodes(enc, job.receipt);
  }

  class Directory {
    var data: map<string, seq<Byte>>
    var receipts: map<string, Receipt>
    var temporaries: map<string, Temporary>

    ghost function Contents(): Disk
      reads this
    {
      Disk(data, receipts, temporaries)
    }

    /** The receipt goes, and the encodings are appended one by one until one has another size than
        recorded. */
    method WriteFile(enc: Encoder, job: Job, ghost p: Process) returns (ok: bool, ghost trace: seq<Action>)
      requires p.Running? && p.next < |p.work| && p.work[p.next] == job && p.phase == Check
      requires !Reusable(Contents(), p.resume, job)
      modifies this
      ensures ok <==> Good(enc, job.receipt, 0) == |job.receipt.sizes|
      ensures Contents() == Disk(old(data)[job.name := Written(enc, job.receipt, Good(enc, job.receipt, 0))],
                                 old(receipts) - {job.name}, old(temporaries))
      ensures Reached(enc, State(old(Contents()), p), trace,
                      State(Contents(), p.(phase := if ok then Writing(|job.receipt.sizes|, [])
                                                    else Writing(Good(enc, job.receipt, 0), []))))
    {
      hide Reached, Execute, Apply, Step, Reusable, Good, Written;
      ghost var from := State(Contents(), p);
      ghost var before := Contents();
      var name := job.name;
      WrittenNone(enc, job.receipt);
      trace := Begun(enc, Contents(), p, job);
      receipts := receipts - {name};
      data := data[name := []];
      var offset := 0;
      while offset < |job.receipt.sizes|
        invariant offset <= |job.receipt.sizes|
        invariant Contents() == Disk(before.data[name := Written(enc, job.receipt, offset)],
                                     before.receipts - {name}, before.temporaries)
        invariant Good(enc, job.receipt, offset) == Good(enc, job.receipt, 0)
        invariant Reached(enc, from, trace, State(Contents(), p.(phase := Writing(offset, []))))
      {
        var bytes := enc(job.receipt, offset);
        GoodStep(enc, job.receipt, offset);
        WrittenNext(enc, job.receipt, offset);
        if |bytes| != job.receipt.sizes[offset] {
          return false, trace;
        }
        trace := WroteOne(enc, from, trace, Contents(), p, offset);
        data := data[name := data[name] + bytes];
        offset := offset + 1;
      }
      GoodEnds(enc, job.receipt);
      ok := true;
    }

    /** One file of a plan: kept, or written anew between the removal of its receipt and the
        atomic rename of the next one. It fails exactly when the file cannot be kept and some expert's
        encoding has another size than recorded. The loop is one of the runs of the step system. */
    method BuildFile(enc: Encoder, resume: bool, job: Job, ghost p: Process)
      returns (ok: bool, ghost trace: seq<Action>, ghost end: Process)
      requires p.Running? && p.next < |p.work| && p.work[p.next] == job && p.resume == resume && p.phase == Check
      modifies this
      ensures ok <==> Buildable(enc, old(Contents()), resume, job)
      ensures Contents() == Built(enc, old(Contents()), resume, job)
      ensures Reached(enc, State(old(Contents()), p), trace, State(Contents(), end))
      ensures ok ==> end == p.(next := p.next + 1)
    {
      hide Reached, Execute, Apply, Step, Expected, Reusable, Encodes, Good, Written;
      ghost var from := State(Contents(), p);
      var name := job.name;
      var reuse := Reusable(Disk(data, receipts, temporaries), resume, job);
      GoodMeansEncodes(enc, job.receipt);
      if reuse {
        trace := Kept(enc, Contents(), p, job);
        ReusableSize(Contents(), resume, job);
      } else {
        ok, trace := WriteFile(enc, job, p);
        if !ok {
          end := p.(phase := Writing(Good(enc, job.receipt, 0), []));
          return;
        }
        trace := Closed(enc, from, trace, Contents(), p);
        WholeLength(enc, job.receipt);
      }
      end := p.(phase := Measuring(reuse));
      if name !in data || |data[name]| != Expected(job.receipt.sizes) {
        ok := false;
        return;
      }
      trace := Measured(enc, from, trace, Contents(), p, reuse);
      if !reuse {
        trace := Committed(enc, from, trace, Contents(), p);
        receipts := receipts[name := job.receipt];
        temporaries := temporaries - {name};
      }
      end := p.(next := p.next + 1);
      ok := true;
    }

    /** The files of a plan, one after the other. From a directory whose receipts are true it leaves true
        receipts, and it ends with every file and receipt of the plan in place exactly when each file can be
        kept or encodes to its recorded sizes. */
    method Prepare(enc: Encoder, resume: bool, work: seq<Job>) returns (ok: bool)
      requires Consistent(work) && True(enc, Contents())
      modifies this
      ensures True(enc, Contents())
      ensures ok <==> forall job | job in work :: Buildable(enc, old(Contents()), resume, job)
      ensures ok ==> forall job | job in work :: Recorded(Contents(), job)
      ensures ok ==> forall job | job in work :: job.name in data && data[job.name] == Whole(enc, job.receipt)
    {
      hide Reached, Execute, Step, True, Recorded, Whole, Buildable, Built;
      ghost var from := State(Contents(), Running(resume, work, 0, Check));
      ghost var start := Contents();
      assert Inv(enc, from);
      ghost var trace: seq<Action> := [];
      StartedAt(enc, from);
      for i := 0 to |work|
        invariant Reached(enc, from, trace, State(Contents(), Running(resume, work, i, Check)))
        invariant forall job | job in work ::
                    Buildable(enc, Contents(), resume, job) <==> Buildable(enc, start, resume, job)
        invariant forall j | 0 <= j < i :: Buildable(enc, start, resume, work[j])
      {
        ghost var p := Running(resume, work, i, Check);
        ghost var disk := Contents();
        var built, more, end := BuildFile(enc, resume, work[i], p);
        trace := Chained(enc, from, trace, State(disk, p), more, State(Contents(), end));
        if !built {
          ReachedKeepsInv(enc, from, trace, State(Contents(), end));
          assert work[i] in work && !Buildable(enc, start, resume, work[i]);
          return false;
        }
        forall job | job in work
          ensures Buildable(enc, Contents(), resume, job) <==> Buildable(enc, disk, resume, job) {
          BuildingKeepsBuildable(enc, disk, resume, work, work[i], job);
        }
      }
      ReachedKeepsInv(enc, from, trace, State(Contents(), Running(resume, work, |work|, Check)));
      AllRecorded(enc, Contents(), resume, work);
      ok := true;
    }
  }

  lemma WrittenNone(enc: Encoder, r: Receipt)
    ensures Written(enc, r, 0) == []
  {
  }

  lemma WrittenNext(enc: Encoder, r: Receipt, n: nat)
    ensures Written(enc, r, n + 1) == Written(enc, r, n) + enc(r, n)
  {
  }

  lemma GoodMeansEncodes(enc: Encoder, r: Receipt)
    ensures Good(enc, r, 0) == |r.sizes| <==> Encodes(enc, r)
  {
    GoodIsEncodes(enc, r, 0);
  }

  lemma GoodStep(enc: Encoder, r: Receipt, k: nat)
    requires k < |r.sizes|
    ensures Good(enc, r, k) == if |enc(r, k)| == r.sizes[k] then Good(enc, r, k + 1) else k
  {
  }

  lemma GoodEnds(enc: Encoder, r: Receipt)
    ensures Good(enc, r, |r.sizes|) == |r.sizes|
  {
  }

  lemma ReusableSize(disk: Disk, resume: bool, job: Job)
    requires Reusable(disk, resume, job)
    ensures job.name in disk.data && |disk.data[job.name]| == Expected(job.receipt.sizes)
  {
  }

  /** Building one file of a plan changes nothing about which of its files can be built: files of the same
      name are the same job. */
  lemma BuildingKeepsBuildable(enc: Encoder, disk: Disk, resume: bool, work: seq<Job>, built: Job, job: Job)
    requires Consistent(work) && built in work && job in work && Buildable(enc, disk, resume, built)
    ensures Buildable(enc, Built(enc, disk, resume, built), resume, job) <==> Buildable(enc, disk, resume, job)
  {
    hide Good, Written, Expected, Encodes;
    if job.name == built.name {
      var i :| 0 <= i < |work| && work[i] == job;
      var j :| 0 <= j < |work| && work[j] == built;
      assert job == built;
    }
  }

  lemma Kept(enc: Encoder, disk: Disk, p: Process, job: Job) returns (trace: seq<Action>)
    requires p.Running? && p.next < |p.work| && p.work[p.next] == job && p.phase == Check
    requires Reusable(disk, p.resume, job)
    ensures Reached(enc, State(disk, p), trace, State(disk, p.(phase := Measuring(true))))
  {
    var from := State(disk, p);
    trace := Go(enc, from, [], from, Decide, State(disk, p.(phase := Measuring(true))));
  }

  lemma Closed(enc: Encoder, from: State, before: seq<Action>, disk: Disk, p: Process) returns (trace: seq<Action>)
    requires p.Running? && p.next < |p.work|
    requires Reached(enc, from, before, State(disk, p.(phase := Writing(|p.work[p.next].receipt.sizes|, []))))
    ensures Reached(enc, from, trace, State(disk, p.(phase := Measuring(false))))
  {
    trace := Go(enc, from, before, State(disk, p.(phase := Writing(|p.work[p.next].receipt.sizes|, []))), Close,
                State(disk, p.(phase := Measuring(false))));
  }

  lemma Measured(enc: Encoder, from: State, before: seq<Action>, disk: Disk, p: Process, reused: bool)
    returns (trace: seq<Action>)
    requires p.Running? && p.next < |p.work|
    requires var job := p.work[p.next];
             job.name in disk.data && |disk.data[job.name]| == Expected(job.receipt.sizes)
    requires Reached(enc, from, before, State(disk, p.(phase := Measuring(reused))))
    ensures Reached(enc, from, trace,
                    State(disk, if reused then p.(next := p.next + 1, phase := Check) else p.(phase := Recording)))
  {
    trace := Go(enc, from, before, State(disk, p.(phase := Measuring(reused))), Measure,
                State(disk, if reused then p.(next := p.next + 1, phase := Check) else p.(phase := Recording)));
  }

  lemma StartedAt(enc: Encoder, s: State)
    ensures Reached(enc, s, [], s)
  {
  }

  lemma Chained(enc: Encoder, from: State, first: seq<Action>, mid: State, second: seq<Action>, to: State)
    returns (trace: seq<Action>)
    requires Reached(enc, from, first, mid) && Reached(enc, mid, second, to)
    ensures Reached(enc, from, trace, to)
  {
    Join(enc, from, first, second);
    trace := first + second;
  }

  lemma ReachedKeepsInv(enc: Encoder, from: State, trace: seq<Action>, to: State)
    requires Inv(enc, from) && Reached(enc, from, trace, to)
    ensures Inv(enc, to)
  {
    RunsKeepInv(enc, from, trace);
  }

  lemma AllRecorded(enc: Encoder, disk: Disk, resume: bool, work: seq<Job>)
    requires Inv(enc, State(disk, Running(resume, work, |work|, Check)))
    ensures forall job | job in work :: Recorded(disk, job)
    ensures forall job | job in work :: job.name in disk.data && disk.data[job.name] == Whole(enc, job.receipt)
  {
    forall job | job in work ensures Recorded(disk, job) {
      var i :| 0 <= i < |work| && work[i] == job;
    }
  }

  // ----- a resumed build can finish -----

  /** The steps that build one file. */
  lemma JobRuns(enc: Encoder, disk: Disk, p: Process) returns (trace: seq<Action>)
    requires p.Running? && p.next < |p.work| && p.phase == Check
    requires Buildable(enc, disk, p.resume, p.work[p.next])
    ensures Reached(enc, State(disk, p), trace,
                    State(Built(enc, disk, p.resume, p.work[p.next]), p.(next := p.next + 1)))
  {
    hide Reached, Execute, Apply, Step, Expected, Reusable, Good, Written;
    var job, from := p.work[p.next], State(disk, p);
    var at := disk;
    if Reusable(disk, p.resume, job) {
      trace := Kept(enc, disk, p, job);
      ReusableSize(disk, p.resume, job);
    } else {
      GoodMeansEncodes(enc, job.receipt);
      WrittenNone(enc, job.receipt);
      trace := Begun(enc, disk, p, job);
      at := Disk(disk.data[job.name := []], disk.receipts - {job.name}, disk.temporaries);
      for k := 0 to |job.receipt.sizes|
        invariant at == Disk(disk.data[job.name := Written(enc, job.receipt, k)],
                             disk.receipts - {job.name}, disk.temporaries)
        invariant Reached(enc, from, trace, State(at, p.(phase := Writing(k, []))))
      {
        WrittenNext(enc, job.receipt, k);
        trace := WroteOne(enc, from, trace, at, p, k);
        at := at.(data := at.data[job.name := at.data[job.name] + enc(job.receipt, k)]);
      }
      trace := Closed(enc, from, trace, at, p);
      WholeLength(enc, job.receipt);
    }
    trace := Measured(enc, from, trace, at, p, Reusable(disk, p.resume, job));
    if !Reusable(disk, p.resume, job) {
      trace := Committed(enc, from, trace, at, p);
      assert disk.receipts - {job.name} == at.receipts
          && at.receipts[job.name := job.receipt] == disk.receipts[job.name := job.receipt];
    }
  }

  /** After any history of other plans and crashes, a run over a plan whose files can each be kept or encode
      to their recorded sizes can reach its end. */
  lemma ResumedBuildCanFinish(enc: Encoder, history: seq<Action>, resume: bool, work: seq<Job>)
    returns (more: seq<Action>)
    requires Execute(enc, EMPTY, history).Some? && Consistent(work)
    requires forall job | job in work :: Buildable(enc, Execute(enc, EMPTY, history).value.disk, resume, job)
    ensures Execute(enc, EMPTY, history + more).Some?
    ensures AtTheEnd(Execute(enc, EMPTY, history + more).value, work)
  {
    hide Execute, Step, Buildable, Built;
    var s := Execute(enc, EMPTY, history).value;
    assert Reached(enc, EMPTY, history, s);
    more := FinishFrom(enc, history, s, resume, work);
  }

  lemma FinishFrom(enc: Encoder, history: seq<Action>, s: State, resume: bool, work: seq<Job>)
    returns (more: seq<Action>)
    requires Reached(enc, EMPTY, history, s) && Consistent(work)
    requires forall job | job in work :: Buildable(enc, s.disk, resume, job)
    ensures Execute(enc, EMPTY, history + more).Some?
    ensures AtTheEnd(Execute(enc, EMPTY, history + more).value, work)
  {
    hide Execute, Step, Buildable, Built, Reached;
    var idle, started := s.(process := Idle), State(s.disk, Running(resume, work, 0, Check));
    StartedAt(enc, s);
    more := Go(enc, s, [], s, Crash, idle);
    more := Go(enc, s, more, idle, Start(resume, work), started);
    var at := started;
    for i := 0 to |work|
      invariant at.process == Running(resume, work, i, Check) && Reached(enc, s, more, at)
      invariant forall job | job in work :: Buildable(enc, at.disk, resume, job)
    {
      var trace := JobRuns(enc, at.disk, at.process);
      var next := State(Built(enc, at.disk, resume, work[i]), at.process.(next := i + 1));
      more := Chained(enc, s, more, at, trace, next);
      forall job | job in work ensures Buildable(enc, next.disk, resume, job) {
        BuildingKeepsBuildable(enc, at.disk, resume, work, work[i], job);
      }
      at := next;
    }
    JoinReached(enc, history, s, more, at);
  }

  lemma JoinReached(enc: Encoder, first: seq<Action>, mid: State, second: seq<Action>, to: State)
    requires Reached(enc, EMPTY, first, mid) && Reached(enc, mid, second, to)
    ensures Execute(enc, EMPTY, first + second) == Some(to)
  {
    Join(enc, EMPTY, first, second);
  }
}
