/** The per-call read pipeline and its drain (tools/memra_cpu_experts.cpp): a shared queue, its
    workers, and the counters a call waits on. */
module IoDrain {
  import opened Options
  import opened Sorting

  // ----- a call's jobs -----

  datatype Status = Queued | Taken(done: nat) | Finished(error: int)

  /** A read of `length` bytes at `offset` of a projection's buffer. Jobs of other calls and of
      prefetches share the queue; they are not `mine`. */
  datatype Job = Job(mine: bool, expert: nat, offset: nat, length: nat, status: Status)

  datatype Projection = Projection(expert: nat, needsRead: bool, mirrored: bool, length: nat)

  predicate Unfinished(job: Job, expert: nat) {
    job.mine && job.expert == expert && !job.status.Finished?
  }

  ghost function UnfinishedOf(jobs: seq<Job>, expert: nat): set<nat> {
    set j: nat | j < |jobs| && Unfinished(jobs[j], expert)
  }

  ghost function Waiting(pending: seq<int>): set<nat> {
    set e: nat | e < |pending| && pending[e] > 0
  }

  lemma UnfinishedSnoc(jobs: seq<Job>, job: Job, expert: nat)
    ensures |UnfinishedOf(jobs + [job], expert)|
         == |UnfinishedOf(jobs, expert)| + if Unfinished(job, expert) then 1 else 0
  {
    var more := if Unfinished(job, expert) then {|jobs|} else {};
    assert UnfinishedOf(jobs + [job], expert) == UnfinishedOf(jobs, expert) + more;
  }

  /** The reads submitted for a projection: one, or two for a mirrored source of at least two pages,
      which meet at a page boundary and cover the buffer. */
  ghost predicate CoverProjection(p: Projection, jobs: seq<Job>) {
    && (forall j | 0 <= j < |jobs| :: jobs[j].mine && jobs[j].expert == p.expert && jobs[j].status == Queued)
    && (if !p.needsRead then jobs == []
        else if p.mirrored && p.length >= 8192 then
          && |jobs| == 2 && jobs[0].offset == 0 && jobs[0].length > 0 && jobs[0].length % 4096 == 0
          && jobs[1].offset == jobs[0].length && jobs[0].length + jobs[1].length == p.length
        else |jobs| == 1 && jobs[0].offset == 0 && jobs[0].length == p.length)
  }

  /** `append_projection_jobs`: the expert's pending count stays the number of its reads. */
  method AppendProjectionJobs(jobs: seq<Job>, pending: seq<int>, p: Projection)
    returns (more: seq<Job>, counts: seq<int>)
    requires p.expert < |pending|
    requires forall e: nat | e < |pending| :: pending[e] == |UnfinishedOf(jobs, e)|
    ensures |more| >= |jobs| && more[..|jobs|] == jobs && CoverProjection(p, more[|jobs|..])
    ensures |counts| == |pending|
    ensures forall e: nat | e < |pending| :: counts[e] == |UnfinishedOf(more, e)|
  {
    more, counts := jobs, pending;
    if !p.needsRead {
      return;
    }
    var requests := 0;
    if p.mirrored && p.length >= 8192 {
      var split := p.length / 2 / 4096 * 4096;
      var first := Job(true, p.expert, 0, split, Queued);
      var second := Job(true, p.expert, split, p.length - split, Queued);
      forall e: nat ensures |UnfinishedOf(jobs + [first] + [second], e)|
                         == |UnfinishedOf(jobs, e)| + (if e == p.expert then 2 else 0) {
        UnfinishedSnoc(jobs, first, e);
        UnfinishedSnoc(jobs + [first], second, e);
      }
      more := jobs + [first] + [second];
      requests := 2;
    } else {
      var whole := Job(true, p.expert, 0, p.length, Queued);
      forall e: nat ensures |UnfinishedOf(jobs + [whole], e)|
                         == |UnfinishedOf(jobs, e)| + (if e == p.expert then 1 else 0) {
        UnfinishedSnoc(jobs, whole, e);
      }
      more := jobs + [whole];
      requests := 1;
    }
    counts := pending[p.expert := pending[p.expert] + requests];
  }

  // ----- the queue, the workers, the call -----

  datatype Worker = Idle | Busy(job: nat) | Exited

  /** `log` lists the jobs in the order workers took them. */
  datatype State = State(
    jobs: seq<Job>, queue: seq<nat>, workers: seq<Worker>, stopping: bool, log: seq<nat>,
    pending: seq<int>, outstanding: int, ready: seq<nat>, firstError: int, drained: bool)

  datatype Action =
    | SubmitOther(length: nat)
    | Take(worker: nat)
    | Read(worker: nat, count: nat)
    | Finish(worker: nat, error: int)
    | Stop
    | Exit(worker: nat)
    | Drain

  function DoTake(s: State, w: nat): Option<State> {
    if w < |s.workers| && s.workers[w].Idle? && s.queue != [] && s.queue[0] < |s.jobs| then
      var j := s.queue[0];
      Some(s.(jobs := s.jobs[j := s.jobs[j].(status := Taken(0))], queue := s.queue[1..],
              workers := s.workers[w := Busy(j)], log := s.log + [j]))
    else None
  }

  predicate Runs(s: State, w: nat) {
    && w < |s.workers| && s.workers[w].Busy?
    && s.workers[w].job < |s.jobs| && s.jobs[s.workers[w].job].status.Taken?
  }

  function DoRead(s: State, w: nat, count: nat): Option<State> {
    if !Runs(s, w) then None
    else
      var j := s.workers[w].job;
      var done := s.jobs[j].status.done;
      if 0 < count && done + count <= s.jobs[j].length then
        Some(s.(jobs := s.jobs[j := s.jobs[j].(status := Taken(done + count))]))
      else None
  }

  /** The call's bookkeeping after one of its reads, under its mutex. */
  function Counted(s: State, e: nat, error: int): State
    requires e < |s.pending|
  {
    var first := if error != 0 && s.firstError == 0 then error else s.firstError;
    var pending := s.pending[e := s.pending[e] - 1];
    if pending[e] == 0 then
      s.(firstError := first, pending := pending, outstanding := s.outstanding - 1, ready := s.ready + [e])
    else
      s.(firstError := first, pending := pending)
  }

  /** A read ends without error only when every byte has arrived. */
  function DoFinish(s: State, w: nat, error: int): Option<State> {
    if !Runs(s, w) then None
    else
      var j := s.workers[w].job;
      var job := s.jobs[j];
      if (error == 0 && job.status.done != job.length) || (job.mine && job.expert >= |s.pending|) then None
      else
        var next := s.(jobs := s.jobs[j := job.(status := Finished(error))], workers := s.workers[w := Idle]);
        Some(if job.mine then Counted(next, job.expert, error) else next)
  }

  function Apply(s: State, a: Action): Option<State> {
    match a
    case SubmitOther(length) =>
      if s.stopping then None
      else Some(s.(jobs := s.jobs + [Job(false, 0, 0, length, Queued)], queue := s.queue + [|s.jobs|]))
    case Take(w) => DoTake(s, w)
    case Read(w, count) => DoRead(s, w, count)
    case Finish(w, error) => DoFinish(s, w, error)
    case Stop => Some(s.(stopping := true))
    case Exit(w) =>
      if w < |s.workers| && s.workers[w].Idle? && s.stopping && s.queue == [] then
        Some(s.(workers := s.workers[w := Exited]))
      else None
    case Drain => if s.outstanding == 0 then Some(s.(drained := true)) else None
  }

  function Execute(s: State, actions: seq<Action>): Option<State> {
    if actions == [] then Some(s)
    else
      match Execute(s, actions[..|actions| - 1])
      case None => None
      case Some(before) => Apply(before, actions[|actions| - 1])
  }

  // ----- invariants -----

  /** Queued jobs are in the queue once; a taken job is with exactly one worker; the log names each job
      taken, once. */
  ghost predicate Placed(s: State) {
    && Distinct(s.queue)
    && (forall j: nat :: j in s.queue <==> j < |s.jobs| && s.jobs[j].status == Queued)
    && (forall w: nat | w < |s.workers| && s.workers[w].Busy? ::
          s.workers[w].job < |s.jobs| && s.jobs[s.workers[w].job].status.Taken?)
    && (forall j: nat | j < |s.jobs| && s.jobs[j].status.Taken? ::
          exists w: nat :: w < |s.workers| && s.workers[w] == Busy(j))
    && (forall v: nat, w: nat | v < |s.workers| && w < |s.workers| && v != w && s.workers[v].Busy? ::
          s.workers[v] != s.workers[w])
    && Distinct(s.log)
    && (forall j: nat :: j in s.log <==> j < |s.jobs| && s.jobs[j].status != Queued)
  }

  /** A worker leaves only when told to and with nothing queued, and nothing is queued after that. */
  ghost predicate ExitsLate(s: State) {
    forall w: nat | w < |s.workers| && s.workers[w].Exited? :: s.stopping && s.queue == []
  }

  /** The counters are the numbers of unfinished reads and of experts with any. */
  ghost predicate Accounted(s: State) {
    && (forall j: nat | j < |s.jobs| && s.jobs[j].mine :: s.jobs[j].expert < |s.pending|)
    && (forall e: nat | e < |s.pending| :: s.pending[e] == |UnfinishedOf(s.jobs, e)|)
    && s.outstanding == |Waiting(s.pending)|
  }

  ghost predicate HasJobs(s: State, e: nat) {
    exists j: nat :: j < |s.jobs| && s.jobs[j].mine && s.jobs[j].expert == e
  }

  /** Each missing expert is announced once, after its last read. */
  ghost predicate Announced(s: State) {
    && Distinct(s.ready)
    && forall e: nat :: e in s.ready <==> e < |s.pending| && HasJobs(s, e) && s.pending[e] == 0
  }

  ghost predicate Truthful(s: State) {
    && (forall j: nat | j < |s.jobs| && s.jobs[j].mine && s.jobs[j].status.Finished? && s.jobs[j].status.error != 0 ::
          s.firstError != 0)
    && (forall j: nat | j < |s.jobs| && s.jobs[j].status.Taken? :: s.jobs[j].status.done <= s.jobs[j].length)
    && (s.drained ==> s.outstanding == 0)
  }

  ghost predicate Inv(s: State) {
    Placed(s) && ExitsLate(s) && Accounted(s) && Announced(s) && Truthful(s)
  }

  /** A call as submitted: its jobs behind whatever the queue already held. */
  ghost predicate Submitted(s: State) {
    && Placed(s) && ExitsLate(s) && Accounted(s)
    && s.ready == [] && s.firstError == 0 && !s.drained
    && (forall j: nat | j < |s.jobs| && s.jobs[j].mine :: s.jobs[j].status == Queued)
    && (forall j: nat | j < |s.jobs| && s.jobs[j].status.Taken? :: s.jobs[j].status.done <= s.jobs[j].length)
  }

  lemma SubmittedHolds(s: State)
    requires Submitted(s)
    ensures Inv(s)
  {
    forall e: nat | e < |s.pending| && HasJobs(s, e) ensures s.pending[e] != 0 {
      var j: nat :| j < |s.jobs| && s.jobs[j].mine && s.jobs[j].expert == e;
      assert j in UnfinishedOf(s.jobs, e);
    }
  }

  // ----- every step keeps them -----

  lemma SameUnfinished(jobs: seq<Job>, j: nat, status: Status, e: nat)
    requires j < |jobs| && !jobs[j].status.Finished? && !status.Finished?
    ensures UnfinishedOf(jobs[j := jobs[j].(status := status)], e) == UnfinishedOf(jobs, e)
  {
  }

  lemma OneLessUnfinished(jobs: seq<Job>, j: nat, error: int, e: nat)
    requires j < |jobs| && !jobs[j].status.Finished?
    ensures var next := UnfinishedOf(jobs[j := jobs[j].(status := Finished(error))], e);
            if jobs[j].mine && jobs[j].expert == e
            then j in UnfinishedOf(jobs, e) && next == UnfinishedOf(jobs, e) - {j}
            else next == UnfinishedOf(jobs, e)
  {
  }

  lemma TakeKeepsPlaced(s: State, w: nat)
    requires Placed(s) && DoTake(s, w).Some?
    ensures Placed(DoTake(s, w).value)
  {
    var next, j := DoTake(s, w).value, s.queue[0];
    assert s.queue == [j] + s.queue[1..];
    assert j in s.queue && j !in s.queue[1..];
    assert next.workers[w] == Busy(j);
    forall i: nat | i < |next.jobs| && next.jobs[i].status.Taken?
      ensures exists v: nat :: v < |next.workers| && next.workers[v] == Busy(i)
    {
      if i != j {
        var v: nat :| v < |s.workers| && s.workers[v] == Busy(i);
        assert next.workers[v] == Busy(i);
      }
    }
    forall i: nat ensures i in next.queue <==> i < |next.jobs| && next.jobs[i].status == Queued {
      assert i in s.queue <==> i == j || i in s.queue[1..];
    }
  }

  lemma ReadKeepsPlaced(s: State, w: nat, count: nat)
    requires Placed(s) && DoRead(s, w, count).Some?
    ensures Placed(DoRead(s, w, count).value)
  {
    var next, j := DoRead(s, w, count).value, s.workers[w].job;
    forall i: nat | i < |next.jobs| && next.jobs[i].status.Taken?
      ensures exists v: nat :: v < |next.workers| && next.workers[v] == Busy(i)
    {
      assert s.jobs[i].status.Taken?;
    }
  }

  lemma FinishKeepsPlaced(s: State, w: nat, error: int)
    requires Placed(s) && DoFinish(s, w, error).Some?
    ensures Placed(DoFinish(s, w, error).value)
  {
    var next, j := DoFinish(s, w, error).value, s.workers[w].job;
    assert next.jobs == s.jobs[j := s.jobs[j].(status := Finished(error))] && next.workers == s.workers[w := Idle];
    forall i: nat | i < |next.jobs| && next.jobs[i].status.Taken?
      ensures exists v: nat :: v < |next.workers| && next.workers[v] == Busy(i)
    {
      var v: nat :| v < |s.workers| && s.workers[v] == Busy(i);
      assert next.workers[v] == Busy(i);
    }
  }

  lemma OtherJobsKeepAccounts(s: State, jobs: seq<Job>)
    requires Accounted(s) && Announced(s)
    requires forall e: nat :: UnfinishedOf(jobs, e) == UnfinishedOf(s.jobs, e)
    requires |jobs| >= |s.jobs|
    requires forall j: nat | j < |s.jobs| :: jobs[j].mine == s.jobs[j].mine && jobs[j].expert == s.jobs[j].expert
    requires forall j: nat | |s.jobs| <= j < |jobs| :: !jobs[j].mine
    ensures Accounted(s.(jobs := jobs)) && Announced(s.(jobs := jobs))
  {
    hide UnfinishedOf;
    var next := s.(jobs := jobs);
    forall e: nat ensures HasJobs(next, e) <==> HasJobs(s, e) {
      if HasJobs(s, e) {
        var j: nat :| j < |s.jobs| && s.jobs[j].mine && s.jobs[j].expert == e;
        assert next.jobs[j].mine;
      }
    }
  }

  lemma AccountsDependOn(s: State, next: State)
    requires Accounted(s) && Announced(s)
    requires next.jobs == s.jobs && next.pending == s.pending && next.outstanding == s.outstanding
             && next.ready == s.ready
    ensures Accounted(next) && Announced(next)
  {
    forall e: nat ensures HasJobs(next, e) <==> HasJobs(s, e) {
      if HasJobs(s, e) {
        var j: nat :| j < |s.jobs| && s.jobs[j].mine && s.jobs[j].expert == e;
        assert next.jobs[j].mine;
      }
    }
  }

  lemma SnocUnfinished(jobs: seq<Job>, job: Job, e: nat)
    requires !job.mine
    ensures UnfinishedOf(jobs + [job], e) == UnfinishedOf(jobs, e)
  {
  }

  /** The last read of an expert takes it off the count and announces it; an earlier one does neither. */
  lemma FinishKeepsAccounts(s: State, w: nat, error: int)
    requires Inv(s) && DoFinish(s, w, error).Some?
    ensures Accounted(DoFinish(s, w, error).value) && Announced(DoFinish(s, w, error).value)
  {
    hide UnfinishedOf, Placed, HasJobs, Waiting;
    var next, j := DoFinish(s, w, error).value, s.workers[w].job;
    var job := s.jobs[j];
    forall e: nat
      ensures if job.mine && job.expert == e then |UnfinishedOf(next.jobs, e)| == |UnfinishedOf(s.jobs, e)| - 1
              else UnfinishedOf(next.jobs, e) == UnfinishedOf(s.jobs, e)
      ensures job.mine && job.expert == e ==> |UnfinishedOf(s.jobs, e)| > 0
      ensures HasJobs(next, e) <==> HasJobs(s, e)
    {
      OneLessUnfinished(s.jobs, j, error, e);
      SameOwners(s, next, e);
    }
    if job.mine {
      WaitingAfter(s.pending, job.expert);
      OwnJob(s, j);
    }
  }

  lemma OwnJob(s: State, j: nat)
    requires j < |s.jobs| && s.jobs[j].mine
    ensures HasJobs(s, s.jobs[j].expert)
  {
  }

  lemma SameOwners(s: State, next: State, e: nat)
    requires |next.jobs| == |s.jobs|
    requires forall j: nat | j < |s.jobs| ::
               next.jobs[j].mine == s.jobs[j].mine && next.jobs[j].expert == s.jobs[j].expert
    ensures HasJobs(next, e) <==> HasJobs(s, e)
  {
    if HasJobs(s, e) {
      var j: nat :| j < |s.jobs| && s.jobs[j].mine && s.jobs[j].expert == e;
      assert next.jobs[j].mine;
    }
  }

  lemma WaitingAfter(pending: seq<int>, e: nat)
    requires e < |pending| && pending[e] > 0
    ensures |Waiting(pending[e := pending[e] - 1])| == |Waiting(pending)| - if pending[e] == 1 then 1 else 0
  {
    var next := pending[e := pending[e] - 1];
    if pending[e] == 1 {
      assert Waiting(next) == Waiting(pending) - {e};
    } else {
      assert Waiting(next) == Waiting(pending);
    }
  }

  lemma SubmitKeepsInv(s: State, length: nat)
    requires Inv(s) && Apply(s, SubmitOther(length)).Some?
    ensures Inv(Apply(s, SubmitOther(length)).value)
  {
    hide Placed, Accounted, Announced, UnfinishedOf;
    var next := Apply(s, SubmitOther(length)).value;
    SubmitKeepsPlaced(s, length);
    forall e: nat {
      SnocUnfinished(s.jobs, Job(false, 0, 0, length, Queued), e);
    }
    OtherJobsKeepAccounts(s, next.jobs);
    AccountsDependOn(s.(jobs := next.jobs), next);
  }

  lemma TakeKeepsInv(s: State, w: nat)
    requires Inv(s) && DoTake(s, w).Some?
    ensures Inv(DoTake(s, w).value)
  {
    hide Placed, Accounted, Announced, UnfinishedOf;
    var next := DoTake(s, w).value;
    TakeKeepsPlaced(s, w);
    QueuedFirst(s);
    forall e: nat {
      SameUnfinished(s.jobs, s.queue[0], Taken(0), e);
    }
    OtherJobsKeepAccounts(s, next.jobs);
    AccountsDependOn(s.(jobs := next.jobs), next);
  }

  lemma ReadKeepsInv(s: State, w: nat, count: nat)
    requires Inv(s) && DoRead(s, w, count).Some?
    ensures Inv(DoRead(s, w, count).value)
  {
    hide Placed, Accounted, Announced, UnfinishedOf;
    var next, j := DoRead(s, w, count).value, s.workers[w].job;
    ReadKeepsPlaced(s, w, count);
    forall e: nat {
      SameUnfinished(s.jobs, j, next.jobs[j].status, e);
    }
    OtherJobsKeepAccounts(s, next.jobs);
  }

  lemma StepKeepsInv(s: State, a: Action)
    requires Inv(s) && Apply(s, a).Some?
    ensures Inv(Apply(s, a).value)
  {
    hide Placed, Accounted, Announced, DoTake, DoRead, DoFinish;
    var next := Apply(s, a).value;
    match a
    case SubmitOther(length) => SubmitKeepsInv(s, length);
    case Take(w) => TakeKeepsInv(s, w);
    case Read(w, count) => ReadKeepsInv(s, w, count);
    case Finish(w, error) =>
      FinishKeepsPlaced(s, w, error);
      FinishKeepsAccounts(s, w, error);
      FinishKeepsRest(s, w, error);
    case Stop =>
      AccountsDependOn(s, next);
      PlacedDependsOn(s, next);
    case Exit(w) =>
      AccountsDependOn(s, next);
      ExitKeepsPlaced(s, w);
    case Drain =>
      AccountsDependOn(s, next);
      PlacedDependsOn(s, next);
  }

  lemma FinishKeepsRest(s: State, w: nat, error: int)
    requires Inv(s) && DoFinish(s, w, error).Some?
    ensures ExitsLate(DoFinish(s, w, error).value) && Truthful(DoFinish(s, w, error).value)
  {
    var j := s.workers[w].job;
    if s.jobs[j].mine {
      assert j in UnfinishedOf(s.jobs, s.jobs[j].expert);
      assert s.jobs[j].expert in Waiting(s.pending);
    }
  }

  lemma QueuedFirst(s: State)
    requires Placed(s) && s.queue != []
    ensures s.queue[0] < |s.jobs| && s.jobs[s.queue[0]].status == Queued
  {
    assert s.queue[0] in s.queue;
  }

  lemma SubmitKeepsPlaced(s: State, length: nat)
    requires Placed(s)
    ensures Placed(s.(jobs := s.jobs + [Job(false, 0, 0, length, Queued)], queue := s.queue + [|s.jobs|]))
  {
    var next := s.(jobs := s.jobs + [Job(false, 0, 0, length, Queued)], queue := s.queue + [|s.jobs|]);
    forall j: nat | j < |next.jobs| && next.jobs[j].status.Taken?
      ensures exists w: nat :: w < |next.workers| && next.workers[w] == Busy(j)
    {
      assert s.jobs[j].status.Taken?;
    }
    assert |s.jobs| !in s.queue;
  }

  lemma PlacedDependsOn(s: State, next: State)
    requires Placed(s)
    requires next.jobs == s.jobs && next.queue == s.queue && next.workers == s.workers && next.log == s.log
    ensures Placed(next)
  {
    forall j: nat | j < |next.jobs| && next.jobs[j].status.Taken?
      ensures exists w: nat :: w < |next.workers| && next.workers[w] == Busy(j)
    {
      assert s.jobs[j].status.Taken?;
    }
  }

  lemma ExitKeepsPlaced(s: State, w: nat)
    requires Placed(s) && w < |s.workers| && s.workers[w].Idle?
    ensures Placed(s.(workers := s.workers[w := Exited]))
  {
    var next := s.(workers := s.workers[w := Exited]);
    forall j: nat | j < |next.jobs| && next.jobs[j].status.Taken?
      ensures exists v: nat :: v < |next.workers| && next.workers[v] == Busy(j)
    {
      var v: nat :| v < |s.workers| && s.workers[v] == Busy(j);
      assert next.workers[v] == Busy(j);
    }
  }

  lemma {:induction false} RunsKeepInv(s: State, actions: seq<Action>)
    requires Inv(s) && Execute(s, actions).Some?
    ensures Inv(Execute(s, actions).value)
  {
    hide Inv, Apply;
    if actions == [] {
    } else {
      var n := |actions| - 1;
      RunsKeepInv(s, actions[..n]);
      StepKeepsInv(Execute(s, actions[..n]).value, actions[n]);
    }
  }

  // ----- what a call may rely on -----

  lemma NothingPending(s: State, j: nat)
    requires Inv(s) && s.outstanding == 0 && j < |s.jobs| && s.jobs[j].mine
    ensures s.jobs[j].status.Finished?
  {
    var e := s.jobs[j].expert;
    assert Waiting(s.pending) == {};
    assert e !in Waiting(s.pending) && |UnfinishedOf(s.jobs, e)| == 0;
    assert j !in UnfinishedOf(s.jobs, e);
  }

  lemma {:induction false} DrainedStays(s: State, actions: seq<Action>)
    requires Execute(s, actions).Some? && s.drained
    ensures Execute(s, actions).value.drained
  {
    if actions == [] {
    } else {
      DrainedStays(s, actions[..|actions| - 1]);
    }
  }

  /** After the drain nothing writes this call's buffers, whatever the workers and other calls go on to do. */
  lemma NoWriteAfterTheDrain(s: State, before: seq<Action>, after: seq<Action>)
    requires Submitted(s) && Execute(s, before).Some? && Execute(s, before).value.drained
    requires Execute(Execute(s, before).value, after).Some?
    ensures var end := Execute(Execute(s, before).value, after).value;
            && (forall w: nat, count: nat | DoRead(end, w, count).Some? :: !end.jobs[end.workers[w].job].mine)
            && (forall j: nat | j < |end.jobs| && end.jobs[j].mine :: end.jobs[j].status.Finished? && j !in end.queue)
  {
    hide Inv, Execute, Submitted;
    SubmittedHolds(s);
    RunsKeepInv(s, before);
    var mid := Execute(s, before).value;
    RunsKeepInv(mid, after);
    DrainedStays(mid, after);
    var end := Execute(mid, after).value;
    DrainedIsIdle(end);
    forall j: nat | j < |end.jobs| && end.jobs[j].mine ensures end.jobs[j].status.Finished? && j !in end.queue {
      NothingPending(end, j);
      NotQueued(end, j);
    }
  }

  lemma DrainedIsIdle(s: State)
    requires Inv(s) && s.drained
    ensures s.outstanding == 0
  {
  }

  lemma NotQueued(s: State, j: nat)
    requires Inv(s) && j < |s.jobs| && s.jobs[j].status.Finished?
    ensures j !in s.queue
  {
  }

  /** In every reachable state the outstanding count is the number of experts with pending reads, and
      each expert is announced once, exactly when its last read has ended. */
  lemma CountersAreExact(s: State, actions: seq<Action>)
    requires Submitted(s) && Execute(s, actions).Some?
    ensures var end := Execute(s, actions).value;
            && end.outstanding == |set e: nat | e < |end.pending| && UnfinishedOf(end.jobs, e) != {}|
            && Distinct(end.ready)
            && (forall e: nat :: e in end.ready <==>
                  e < |end.pending| && HasJobs(end, e) && UnfinishedOf(end.jobs, e) == {})
  {
    hide UnfinishedOf, Execute, Submitted, Placed, HasJobs;
    SubmittedHolds(s);
    RunsKeepInv(s, actions);
    var end := Execute(s, actions).value;
    forall e: nat | e < |end.pending| ensures end.pending[e] > 0 <==> UnfinishedOf(end.jobs, e) != {} {
      assert end.pending[e] == |UnfinishedOf(end.jobs, e)|;
    }
    assert Waiting(end.pending) == set e: nat | e < |end.pending| && UnfinishedOf(end.jobs, e) != {};
  }

  /** No job is taken twice, also while stopping; without an error every read of a drained call succeeded. */
  lemma EachJobRunsAtMostOnce(s: State, actions: seq<Action>)
    requires Submitted(s) && Execute(s, actions).Some?
    ensures var end := Execute(s, actions).value;
            && Distinct(end.log)
            && (forall j: nat :: j in end.log <==> j < |end.jobs| && end.jobs[j].status != Queued)
            && (end.drained && end.firstError == 0 ==>
                  forall j: nat | j < |end.jobs| && end.jobs[j].mine :: end.jobs[j].status == Finished(0))
  {
    hide Execute, Submitted, Inv;
    SubmittedHolds(s);
    RunsKeepInv(s, actions);
    var end := Execute(s, actions).value;
    LogIsExact(end);
    if end.drained && end.firstError == 0 {
      DrainedIsIdle(end);
      forall j: nat | j < |end.jobs| && end.jobs[j].mine ensures end.jobs[j].status == Finished(0) {
        NothingPending(end, j);
        NoError(end, j);
      }
    }
  }

  /** The error of the first read of the call that failed, in the order in which they ended. */
  ghost function FirstFailure(s: State, actions: seq<Action>): int
    requires Execute(s, actions).Some?
    decreases |actions|
  {
    if actions == [] then s.firstError
    else
      var n := |actions| - 1;
      var before, earlier := Execute(s, actions[..n]).value, FirstFailure(s, actions[..n]);
      if earlier != 0 then earlier
      else
        match actions[n]
        case Finish(w, error) =>
          if w < |before.workers| && before.workers[w].Busy? && before.workers[w].job < |before.jobs|
             && before.jobs[before.workers[w].job].mine
          then error else 0
        case _ => 0
  }

  /** The call reports that first error, whatever fails after it. */
  lemma {:induction false} FirstErrorIsKept(s: State, actions: seq<Action>)
    requires Execute(s, actions).Some?
    ensures Execute(s, actions).value.firstError == FirstFailure(s, actions)
    decreases |actions|
  {
    if actions != [] {
      FirstErrorIsKept(s, actions[..|actions| - 1]);
    }
  }

  /** How many of job `j`'s bytes the reads of a run have brought in. */
  ghost function Arrived(s: State, actions: seq<Action>, j: nat): nat
    requires Execute(s, actions).Some?
    decreases |actions|
  {
    if actions == [] then 0
    else
      var n := |actions| - 1;
      var before, earlier := Execute(s, actions[..n]).value, Arrived(s, actions[..n], j);
      match actions[n]
      case Read(w, count) => if w < |before.workers| && before.workers[w] == Busy(j) then earlier + count else earlier
      case _ => earlier
  }

  ghost predicate ReadSoFar(job: Job, bytes: nat) {
    && (job.status == Queued ==> bytes == 0)
    && (job.status.Taken? ==> bytes == job.status.done)
    && (job.status == Finished(0) ==> bytes == job.length)
  }

  lemma NothingRead(job: Job)
    requires job.status == Queued
    ensures ReadSoFar(job, 0)
  {
  }

  lemma StepCountsReads(s: State, a: Action, j: nat, bytes: nat)
    requires Inv(s) && Apply(s, a).Some? && j < |s.jobs| && ReadSoFar(s.jobs[j], bytes)
    ensures var next := Apply(s, a).value;
            && j < |next.jobs| && next.jobs[j].(status := s.jobs[j].status) == s.jobs[j]
            && ReadSoFar(next.jobs[j], if a.Read? && a.worker < |s.workers| && s.workers[a.worker] == Busy(j)
                                       then bytes + a.count else bytes)
  {
    hide Accounted, Announced, UnfinishedOf, ExitsLate, Truthful;
    if a.Take? {
      QueuedFirst(s);
    }
  }

  lemma {:induction false} ReadsAreCounted(s: State, actions: seq<Action>, j: nat)
    requires Submitted(s) && Execute(s, actions).Some? && j < |s.jobs| && s.jobs[j].status == Queued
    ensures var end := Execute(s, actions).value;
            && j < |end.jobs| && end.jobs[j].(status := Queued) == s.jobs[j]
            && ReadSoFar(end.jobs[j], Arrived(s, actions, j))
    decreases |actions|
  {
    hide Inv, Apply, ReadSoFar, Submitted;
    if actions == [] {
      NothingRead(s.jobs[j]);
    } else {
      var n := |actions| - 1;
      ReadsAreCounted(s, actions[..n], j);
      SubmittedHolds(s);
      RunsKeepInv(s, actions[..n]);
      StepCountsReads(Execute(s, actions[..n]).value, actions[n], j, Arrived(s, actions[..n], j));
    }
  }

  /** A drained call that reports no error has had every byte of every read. */
  lemma AllBytesArrive(s: State, actions: seq<Action>)
    requires Submitted(s) && Execute(s, actions).Some?
    requires Execute(s, actions).value.drained && Execute(s, actions).value.firstError == 0
    ensures forall j: nat | j < |s.jobs| && s.jobs[j].mine :: Arrived(s, actions, j) == s.jobs[j].length
  {
    hide Execute, Inv;
    EachJobRunsAtMostOnce(s, actions);
    forall j: nat | j < |s.jobs| && s.jobs[j].mine ensures Arrived(s, actions, j) == s.jobs[j].length {
      ReadsAreCounted(s, actions, j);
    }
  }

  lemma LogIsExact(s: State)
    requires Inv(s)
    ensures Distinct(s.log) && forall j: nat :: j in s.log <==> j < |s.jobs| && s.jobs[j].status != Queued
  {
  }

  lemma NoError(s: State, j: nat)
    requires Inv(s) && s.firstError == 0 && j < |s.jobs| && s.jobs[j].mine && s.jobs[j].status.Finished?
    ensures s.jobs[j].status == Finished(0)
  {
  }

  /** The runs above leave everyone else free: other callers queue reads behind whatever waits until the pool
      stops, the pool can stop at any time, and an idle worker then leaves once nothing is queued. */
  lemma OthersAreFree(s: State, length: nat, w: nat)
    ensures var next := Apply(s, SubmitOther(length));
            && (next.Some? <==> !s.stopping)
            && (next.Some? ==>
                  && next.value.queue == s.queue + [|s.jobs|] && |next.value.jobs| == |s.jobs| + 1
                  && next.value.jobs[..|s.jobs|] == s.jobs && !next.value.jobs[|s.jobs|].mine
                  && next.value.jobs[|s.jobs|].length == length && next.value.jobs[|s.jobs|].status == Queued)
    ensures Apply(s, Stop).Some? && Apply(s, Stop).value.stopping && Apply(s, Stop).value.queue == s.queue
    ensures w < |s.workers| && s.workers[w].Idle? && s.stopping && s.queue == [] ==> Apply(s, Exit(w)).Some?
  {
  }

  // ----- the drain is reached -----

  function Left(job: Job): nat {
    match job.status
    case Queued => job.length + 2
    case Taken(done) => if done <= job.length then job.length - done + 1 else 1
    case Finished(_) => 0
  }

  /** How much the workers still have to do. */
  function Measure(jobs: seq<Job>): nat {
    if jobs == [] then 0 else Measure(jobs[..|jobs| - 1]) + Left(jobs[|jobs| - 1])
  }

  lemma {:induction false} MeasureAt(jobs: seq<Job>, j: nat, job: Job)
    requires j < |jobs|
    ensures Measure(jobs[j := job]) == Measure(jobs) - Left(jobs[j]) + Left(job)
    ensures Measure(jobs) >= Left(jobs[j])
    decreases |jobs|
  {
    hide Left;
    var n := |jobs| - 1;
    var next := jobs[j := job];
    if j == n {
      assert next[..n] == jobs[..n];
    } else {
      assert next[..n] == jobs[..n][j := job];
      MeasureAt(jobs[..n], j, job);
    }
  }

  predicate OfWorker(a: Action) {
    a.Take? || a.Read? || a.Finish?
  }

  /** Every step of a worker leaves strictly less to do. */
  lemma WorkShrinks(s: State, a: Action)
    requires Inv(s) && OfWorker(a) && Apply(s, a).Some?
    ensures Measure(Apply(s, a).value.jobs) < Measure(s.jobs)
  {
    hide Measure, Accounted, Announced;
    var next := Apply(s, a).value;
    match a
    case Take(w) =>
      QueuedFirst(s);
      MeasureAt(s.jobs, s.queue[0], next.jobs[s.queue[0]]);
    case Read(w, count) =>
      MeasureAt(s.jobs, s.workers[w].job, next.jobs[s.workers[w].job]);
    case Finish(w, error) =>
      MeasureAt(s.jobs, s.workers[w].job, s.jobs[s.workers[w].job].(status := Finished(error)));
      assert next.jobs == s.jobs[s.workers[w].job := s.jobs[s.workers[w].job].(status := Finished(error))];
  }

  /** A run of the workers alone is no longer than what there was to do. */
  lemma {:induction false} WorkerRunsAreBounded(s: State, actions: seq<Action>)
    requires Inv(s) && (forall i | 0 <= i < |actions| :: OfWorker(actions[i])) && Execute(s, actions).Some?
    ensures |actions| + Measure(Execute(s, actions).value.jobs) <= Measure(s.jobs)
  {
    hide Inv, Apply, Measure;
    if actions == [] {
    } else {
      var n := |actions| - 1;
      WorkerRunsAreBounded(s, actions[..n]);
      RunsKeepInv(s, actions[..n]);
      WorkShrinks(Execute(s, actions[..n]).value, actions[n]);
    }
  }

  /** While any job is unfinished and there are workers, some worker can take a step, stopping or not:
      workers leave only an empty queue. */
  lemma SomeWorkerCanStep(s: State, j: nat) returns (a: Action)
    requires Inv(s) && |s.workers| > 0 && j < |s.jobs| && !s.jobs[j].status.Finished?
    ensures OfWorker(a) && Apply(s, a).Some?
  {
    if w: nat :| w < |s.workers| && s.workers[w].Busy? {
      BusyCanStep(s, w);
      a := Finish(w, 5);
    } else {
      assert s.jobs[j].status == Queued && j in s.queue;
      QueuedFirst(s);
      assert s.workers[0].Idle?;
      a := Take(0);
    }
  }

  lemma BusyCanStep(s: State, w: nat)
    requires Inv(s) && w < |s.workers| && s.workers[w].Busy?
    ensures DoFinish(s, w, 5).Some?
    ensures var job := s.jobs[s.workers[w].job];
            if job.status.done < job.length then DoRead(s, w, 1).Some? else DoFinish(s, w, 0).Some?
  {
  }

  /** So workers that keep going always reach the drain: when none of them can step any more,
      every job has run and the call's wait is over. */
  lemma StuckMeansDrained(s: State, actions: seq<Action>)
    requires Submitted(s) && |s.workers| > 0 && Execute(s, actions).Some?
    requires forall a | OfWorker(a) :: Apply(Execute(s, actions).value, a).None?
    ensures var end := Execute(s, actions).value;
            && (forall j: nat | j < |end.jobs| :: end.jobs[j].status.Finished?)
            && Apply(end, Drain).Some?
  {
    hide Execute, Submitted, Inv;
    SubmittedHolds(s);
    RunsKeepInv(s, actions);
    WorkersStay(s, actions);
    var end := Execute(s, actions).value;
    forall j: nat | j < |end.jobs| ensures end.jobs[j].status.Finished? {
      if !end.jobs[j].status.Finished? {
        var a := SomeWorkerCanStep(end, j);
      }
    }
    AllFinished(end);
  }

  lemma {:induction false} WorkersStay(s: State, actions: seq<Action>)
    requires Execute(s, actions).Some?
    ensures |Execute(s, actions).value.workers| == |s.workers|
  {
    if actions == [] {
    } else {
      WorkersStay(s, actions[..|actions| - 1]);
    }
  }

  lemma AllFinished(s: State)
    requires Inv(s) && forall j: nat | j < |s.jobs| :: s.jobs[j].status.Finished?
    ensures s.outstanding == 0
  {
    forall e: nat | e < |s.pending| ensures s.pending[e] == 0 {
      assert UnfinishedOf(s.jobs, e) == {};
    }
    assert Waiting(s.pending) == {};
  }

  // ----- a call drains however much others submit -----

  /** First come, first served: the `n` earliest jobs stay ahead of later ones in the queue, and while one
      of them is queued no worker is busy with a later one. */
  ghost predicate FirstCome(s: State, n: nat) {
    && n <= |s.jobs|
    && (forall i, j | 0 <= i < j < |s.queue| && s.queue[j] < n :: s.queue[i] < n)
    && (forall w: nat, j: nat | w < |s.workers| && s.workers[w].Busy? && j < n && s.jobs[j].status == Queued ::
          s.workers[w].job < n)
  }

  lemma SubmittedIsFirstCome(s: State)
    requires Submitted(s)
    ensures FirstCome(s, |s.jobs|)
  {
    forall i | 0 <= i < |s.queue| ensures s.queue[i] < |s.jobs| {
      assert s.queue[i] in s.queue;
    }
  }

  lemma QueuedMeansEarlierHead(s: State, n: nat, j: nat)
    requires Placed(s) && FirstCome(s, n) && j < n && s.jobs[j].status == Queued
    ensures s.queue != [] && s.queue[0] < n
  {
    assert j in s.queue;
    var k :| 0 <= k < |s.queue| && s.queue[k] == j;
  }

  lemma TakeKeepsFirstCome(s: State, w: nat, n: nat)
    requires Placed(s) && FirstCome(s, n) && DoTake(s, w).Some?
    ensures FirstCome(DoTake(s, w).value, n)
  {
    var next := DoTake(s, w).value;
    forall j: nat | j < n && next.jobs[j].status == Queued ensures s.queue[0] < n && s.jobs[j].status == Queued {
      QueuedMeansEarlierHead(s, n, j);
    }
  }

  lemma SubmitKeepsFirstCome(s: State, length: nat, n: nat)
    requires FirstCome(s, n) && Apply(s, SubmitOther(length)).Some?
    ensures FirstCome(Apply(s, SubmitOther(length)).value, n)
  {
  }

  lemma FinishKeepsFirstCome(s: State, w: nat, error: int, n: nat)
    requires FirstCome(s, n) && DoFinish(s, w, error).Some?
    ensures FirstCome(DoFinish(s, w, error).value, n)
  {
  }

  lemma StepKeepsFirstCome(s: State, a: Action, n: nat)
    requires Inv(s) && FirstCome(s, n) && Apply(s, a).Some?
    ensures FirstCome(Apply(s, a).value, n)
  {
    hide Accounted, Announced, Placed, Truthful, ExitsLate, DoFinish, DoTake;
    match a
    case SubmitOther(length) => SubmitKeepsFirstCome(s, length, n);
    case Take(w) => TakeKeepsFirstCome(s, w, n);
    case Finish(w, error) => FinishKeepsFirstCome(s, w, error, n);
    case _ =>
  }

  /** The job a worker's step is about. */
  function JobOf(s: State, a: Action): nat
    requires OfWorker(a) && Apply(s, a).Some?
  {
    match a
    case Take(w) => s.queue[0]
    case Read(w, _) => s.workers[w].job
    case Finish(w, _) => s.workers[w].job
  }

  lemma MeasureAmong(jobs: seq<Job>, n: nat, j: nat, job: Job)
    requires n <= |jobs| && j < |jobs|
    ensures Measure(jobs[j := job][..n]) == Measure(jobs[..n]) + if j < n then Left(job) - Left(jobs[j]) else 0
  {
    hide Measure, Left;
    if j < n {
      assert jobs[j := job][..n] == jobs[..n][j := job];
      MeasureAt(jobs[..n], j, job);
    } else {
      assert jobs[j := job][..n] == jobs[..n];
    }
  }

  lemma WorkerStepShape(s: State, a: Action)
    requires Inv(s) && OfWorker(a) && Apply(s, a).Some?
    ensures var j := JobOf(s, a);
            && j < |s.jobs| && Apply(s, a).value.jobs == s.jobs[j := Apply(s, a).value.jobs[j]]
            && Left(Apply(s, a).value.jobs[j]) < Left(s.jobs[j])
  {
    hide Accounted, Announced;
    if a.Take? {
      QueuedFirst(s);
    }
  }

  /** No step of anyone adds to what is left of the `n` earliest jobs, and a worker's step on one of them
      takes from it. */
  lemma NobodyAddsEarlierWork(s: State, a: Action, n: nat)
    requires Inv(s) && n <= |s.jobs| && Apply(s, a).Some?
    ensures var next := Apply(s, a).value;
            && n <= |next.jobs| && Measure(next.jobs[..n]) <= Measure(s.jobs[..n])
            && (OfWorker(a) && JobOf(s, a) < n ==> Measure(next.jobs[..n]) < Measure(s.jobs[..n]))
  {
    hide Inv, Measure, Left;
    var next := Apply(s, a).value;
    if OfWorker(a) {
      WorkerStepShape(s, a);
      MeasureAmong(s.jobs, n, JobOf(s, a), next.jobs[JobOf(s, a)]);
    } else {
      assert next.jobs[..n] == s.jobs[..n];
    }
  }

  /** How many steps of a run are a worker's on one of the `n` earliest jobs. */
  ghost function EarlierSteps(s: State, actions: seq<Action>, n: nat): nat
    requires Execute(s, actions).Some?
  {
    if actions == [] then 0
    else
      var k := |actions| - 1;
      var before := Execute(s, actions[..k]).value;
      EarlierSteps(s, actions[..k], n)
      + if OfWorker(actions[k]) && JobOf(before, actions[k]) < n then 1 else 0
  }

  /** In any run, whatever others submit, the workers take no more steps on the `n` earliest jobs than
      those had left. */
  lemma {:induction false} EarlierWorkIsBounded(s: State, actions: seq<Action>, n: nat)
    requires Inv(s) && n <= |s.jobs| && Execute(s, actions).Some?
    ensures var end := Execute(s, actions).value;
            n <= |end.jobs| && EarlierSteps(s, actions, n) + Measure(end.jobs[..n]) <= Measure(s.jobs[..n])
  {
    hide Inv, Apply, Measure;
    if actions == [] {
    } else {
      var k := |actions| - 1;
      EarlierWorkIsBounded(s, actions[..k], n);
      RunsKeepInv(s, actions[..k]);
      NobodyAddsEarlierWork(Execute(s, actions[..k]).value, actions[k], n);
    }
  }

  /** The queue order holds over every run from the submission of a call. */
  lemma {:induction false} RunsKeepFirstCome(s: State, actions: seq<Action>)
    requires Submitted(s) && Execute(s, actions).Some?
    ensures FirstCome(Execute(s, actions).value, |s.jobs|)
  {
    hide Inv, Apply, FirstCome, Submitted;
    if actions == [] {
      SubmittedIsFirstCome(s);
    } else {
      var k := |actions| - 1;
      RunsKeepFirstCome(s, actions[..k]);
      SubmittedHolds(s);
      RunsKeepInv(s, actions[..k]);
      StepKeepsFirstCome(Execute(s, actions[..k]).value, actions[k], |s.jobs|);
    }
  }

  /** Worker `w` is at one of the `n` earliest jobs, or idle while one of them is queued. */
  ghost predicate Serves(s: State, w: nat, n: nat)
    requires n <= |s.jobs|
  {
    && w < |s.workers|
    && (|| (s.workers[w].Busy? && s.workers[w].job < n)
        || (s.workers[w].Idle? && exists j: nat :: j < n && s.jobs[j].status == Queued))
  }

  predicate Acts(a: Action, w: nat) {
    OfWorker(a) && a.worker == w
  }

  ghost predicate CanAct(s: State, w: nat) {
    exists a :: Acts(a, w) && Apply(s, a).Some?
  }

  lemma {:induction false} SomethingLeft(jobs: seq<Job>) returns (j: nat)
    requires Measure(jobs) > 0
    ensures j < |jobs| && !jobs[j].status.Finished?
  {
    var n := |jobs| - 1;
    if Left(jobs[n]) > 0 {
      j := n;
    } else {
      j := SomethingLeft(jobs[..n]);
    }
  }

  /** While any of them is unfinished, some worker serves them. */
  lemma SomebodyServes(s: State, n: nat) returns (w: nat)
    requires Inv(s) && FirstCome(s, n) && |s.workers| > 0 && Measure(s.jobs[..n]) > 0
    ensures Serves(s, w, n)
  {
    hide Accounted, Announced, Truthful, Measure;
    var j := SomethingLeft(s.jobs[..n]);
    assert s.jobs[..n][j] == s.jobs[j];
    if s.jobs[j].status.Taken? {
      w :| w < |s.workers| && s.workers[w] == Busy(j);
    } else if v: nat :| v < |s.workers| && s.workers[v].Busy? {
      w := v;
    } else {
      assert j in s.queue;
      w := 0;
    }
  }

  /** A worker that serves them can take a step, and any step it takes leaves less of them. */
  lemma ServingCanAct(s: State, w: nat, n: nat) returns (a: Action)
    requires Inv(s) && FirstCome(s, n) && Serves(s, w, n)
    ensures Acts(a, w) && Apply(s, a).Some? && CanAct(s, w)
    ensures Measure(Apply(s, a).value.jobs[..n]) < Measure(s.jobs[..n])
  {
    hide Accounted, Announced, Truthful, Measure;
    if s.workers[w].Busy? {
      BusyCanStep(s, w);
      a := Finish(w, 5);
    } else {
      var j: nat :| j < n && s.jobs[j].status == Queued;
      QueuedMeansEarlierHead(s, n, j);
      QueuedFirst(s);
      a := Take(w);
    }
    assert Acts(a, w);
    NobodyAddsEarlierWork(s, a, n);
  }

  /** So whatever the queue holds behind them, a step that leaves less of the `n` earliest jobs is possible
      as long as any of them is unfinished. */
  lemma EarlierWorkCanGoOn(s: State, actions: seq<Action>) returns (a: Action)
    requires Submitted(s) && |s.workers| > 0 && Execute(s, actions).Some?
    requires var end := Execute(s, actions).value;
             exists j: nat :: j < |s.jobs| && j < |end.jobs| && !end.jobs[j].status.Finished?
    ensures var end := Execute(s, actions).value;
            && OfWorker(a) && Apply(end, a).Some? && |s.jobs| <= |end.jobs|
            && Measure(Apply(end, a).value.jobs[..|s.jobs|]) < Measure(end.jobs[..|s.jobs|])
  {
    hide Inv, Submitted, FirstCome, Measure, Serves;
    SubmittedHolds(s);
    RunsKeepInv(s, actions);
    RunsKeepFirstCome(s, actions);
    WorkersStay(s, actions);
    var end, n := Execute(s, actions).value, |s.jobs|;
    FirstComeSize(end, n);
    var j: nat :| j < n && !end.jobs[j].status.Finished?;
    UnfinishedIsLeft(end.jobs[..n], j);
    var w := SomebodyServes(end, n);
    a := ServingCanAct(end, w, n);
  }

  lemma FirstComeSize(s: State, n: nat)
    requires FirstCome(s, n)
    ensures n <= |s.jobs|
  {
  }

  lemma UnfinishedIsLeft(jobs: seq<Job>, j: nat)
    requires j < |jobs| && !jobs[j].status.Finished?
    ensures Measure(jobs) > 0
  {
    MeasureAt(jobs, j, jobs[j]);
  }

  /** A serving worker goes on serving until something is taken from the earliest jobs, which any step of
      its own does. */
  lemma ServingStays(s: State, a: Action, w: nat, n: nat)
    requires Inv(s) && FirstCome(s, n) && Serves(s, w, n) && Apply(s, a).Some?
    ensures var next := Apply(s, a).value;
            && n <= |next.jobs|
            && (|| Measure(next.jobs[..n]) < Measure(s.jobs[..n])
                || (Serves(next, w, n) && !Acts(a, w)))
  {
    hide Accounted, Announced, Truthful, Measure;
    NobodyAddsEarlierWork(s, a, n);
    var next := Apply(s, a).value;
    if s.workers[w].Idle? {
      var j: nat :| j < n && s.jobs[j].status == Queued;
      QueuedMeansEarlierHead(s, n, j);
      if !a.Take? {
        QueuedStays(s, a, j);
      }
    }
  }

  lemma QueuedStays(s: State, a: Action, j: nat)
    requires Inv(s) && j < |s.jobs| && s.jobs[j].status == Queued && !a.Take? && Apply(s, a).Some?
    ensures j < |Apply(s, a).value.jobs| && Apply(s, a).value.jobs[j].status == Queued
  {
    hide Accounted, Announced;
  }

  // ----- fair runs -----

  /** A run without end. Stopping may be repeated, so every finite run is the beginning of one. */
  ghost predicate RunOf(states: nat -> State, actions: nat -> Action) {
    forall t: nat :: Apply(states(t), actions(t)) == Some(states(t + 1))
  }

  /** No worker is able to act from some time on and yet never acts. */
  ghost predicate Fair(states: nat -> State, actions: nat -> Action) {
    forall t: nat, w: nat | w < |states(0).workers| :: HasTurn(states, actions, t, w)
  }

  ghost predicate HasTurn(states: nat -> State, actions: nat -> Action, t: nat, w: nat) {
    exists k: nat :: t <= k && (Acts(actions(k), w) || !CanAct(states(k), w))
  }

  lemma {:induction false} RunKeepsInv(states: nat -> State, actions: nat -> Action, t: nat)
    requires RunOf(states, actions) && Submitted(states(0))
    ensures Inv(states(t)) && FirstCome(states(t), |states(0).jobs|) && |states(t).workers| == |states(0).workers|
  {
    hide Inv, FirstCome, Submitted;
    if t == 0 {
      SubmittedHolds(states(0));
      SubmittedIsFirstCome(states(0));
    } else {
      RunKeepsInv(states, actions, t - 1);
      assert Apply(states(t - 1), actions(t - 1)) == Some(states(t));
      StepKeepsInv(states(t - 1), actions(t - 1));
      StepKeepsFirstCome(states(t - 1), actions(t - 1), |states(0).jobs|);
    }
  }

  /** In a fair run less is left sooner or later. */
  lemma LessIsLeft(states: nat -> State, actions: nat -> Action, t: nat) returns (k: nat)
    requires RunOf(states, actions) && Fair(states, actions) && Submitted(states(0)) && |states(0).workers| > 0
    requires |states(0).jobs| <= |states(t).jobs| && Measure(states(t).jobs[..|states(0).jobs|]) > 0
    ensures |states(0).jobs| <= |states(k).jobs|
    ensures Measure(states(k).jobs[..|states(0).jobs|]) < Measure(states(t).jobs[..|states(0).jobs|])
  {
    hide Inv, FirstCome, Submitted, Measure, Serves, Apply, Acts, CanAct;
    var n := |states(0).jobs|;
    RunKeepsInv(states, actions, t);
    var w := SomebodyServes(states(t), n);
    ServingIsWorker(states(t), w, n);
    assert HasTurn(states, actions, t, w);
    var m: nat :| t <= m && (Acts(actions(m), w) || !CanAct(states(m), w));
    k := t;
    while k < m
      invariant t <= k <= m && n <= |states(k).jobs| && Serves(states(k), w, n)
      invariant Measure(states(k).jobs[..n]) <= Measure(states(t).jobs[..n])
    {
      RunKeepsInv(states, actions, k);
      assert Apply(states(k), actions(k)) == Some(states(k + 1));
      ServingStays(states(k), actions(k), w, n);
      NobodyAddsEarlierWork(states(k), actions(k), n);
      k := k + 1;
      if Measure(states(k).jobs[..n]) < Measure(states(t).jobs[..n]) {
        return;
      }
    }
    RunKeepsInv(states, actions, m);
    var _ := ServingCanAct(states(m), w, n);
    assert Apply(states(m), actions(m)) == Some(states(m + 1));
    ServingStays(states(m), actions(m), w, n);
    k := m + 1;
  }

  lemma ServingIsWorker(s: State, w: nat, n: nat)
    requires n <= |s.jobs| && Serves(s, w, n)
    ensures w < |s.workers|
  {
  }

  /** Fair workers always reach the drain: whatever other callers go on submitting, whether or not the pool
      is stopping, there comes a time when every job queued at submission has finished and the wait is over. */
  lemma FairWorkersReachTheDrain(states: nat -> State, actions: nat -> Action) returns (t: nat)
    requires RunOf(states, actions) && Fair(states, actions) && Submitted(states(0)) && |states(0).workers| > 0
    ensures |states(0).jobs| <= |states(t).jobs|
    ensures forall j: nat | j < |states(0).jobs| :: states(t).jobs[j].status.Finished?
    ensures Apply(states(t), Drain).Some?
  {
    hide Inv, FirstCome, Submitted, Measure, RunOf, Fair;
    var n := |states(0).jobs|;
    t := 0;
    while Measure(states(t).jobs[..n]) > 0
      invariant n <= |states(t).jobs|
      decreases Measure(states(t).jobs[..n])
    {
      t := LessIsLeft(states, actions, t);
    }
    RunKeepsInv(states, actions, t);
    forall j: nat | j < n ensures states(t).jobs[j].status.Finished? {
      if !states(t).jobs[j].status.Finished? {
        UnfinishedIsLeft(states(t).jobs[..n], j);
      }
    }
    OwnJobsAreEarlier(states, actions, t);
    OwnFinished(states(t), n);
  }

  /** What is submitted later belongs to others. */
  lemma {:induction false} OwnJobsAreEarlier(states: nat -> State, actions: nat -> Action, t: nat)
    requires RunOf(states, actions)
    ensures forall j: nat | |states(0).jobs| <= j < |states(t).jobs| :: !states(t).jobs[j].mine
  {
    if t > 0 {
      OwnJobsAreEarlier(states, actions, t - 1);
      assert Apply(states(t - 1), actions(t - 1)) == Some(states(t));
      OwnersStay(states(t - 1), actions(t - 1));
    }
  }

  lemma OwnersStay(s: State, a: Action)
    requires Apply(s, a).Some?
    ensures var next := Apply(s, a).value;
            forall j: nat | j < |next.jobs| ::
              if j < |s.jobs| then next.jobs[j].mine == s.jobs[j].mine else !next.jobs[j].mine
  {
  }

  lemma OwnFinished(s: State, n: nat)
    requires Inv(s) && n <= |s.jobs|
    requires forall j: nat | j < n :: s.jobs[j].status.Finished?
    requires forall j: nat | n <= j < |s.jobs| :: !s.jobs[j].mine
    ensures s.outstanding == 0
  {
    forall e: nat | e < |s.pending| ensures s.pending[e] == 0 {
      assert UnfinishedOf(s.jobs, e) == {};
    }
    assert Waiting(s.pending) == {};
  }
}
