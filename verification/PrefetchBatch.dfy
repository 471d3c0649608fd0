/** The detached prefetch batch (tools/memra_cpu_experts.cpp): a heap object that the last of its reads
    frees, under any interleaving of the workers' atomic operations. */
module PrefetchBatch {
  import opened Options

  /** Where a worker stands with one read of the batch. */
  datatype Stage = Queued | Reading | Read | Stored | Counted | Settled | Left | Done

  /** `error` is the outcome of the read. `last` and `out` record that this read brought its
      projection's pending count, or the batch's outstanding count, to zero. */
  datatype Job = Job(projection: nat, stage: Stage, error: int, last: bool, out: bool)

  datatype Outcome = Completed | Aborted

  /** `outcomes` lists what was reported to the annex for each projection; `frees` counts deletions. */
  datatype State = State(jobs: seq<Job>, pending: seq<int>, failed: seq<bool>, outstanding: int,
                         outcomes: seq<seq<Outcome>>, frees: nat)

  function Rank(s: Stage): nat {
    match s
    case Queued => 0
    case Reading => 1
    case Read => 2
    case Stored => 3
    case Counted => 4
    case Settled => 5
    case Left => 6
    case Done => 7
  }

  // ----- the worker's steps on one job -----

  function With(s: State, j: nat, job: Job): State
    requires j < |s.jobs|
  {
    s.(jobs := s.jobs[j := job])
  }

  predicate Shaped(s: State) {
    && |s.failed| == |s.pending| == |s.outcomes|
    && forall j | 0 <= j < |s.jobs| :: s.jobs[j].projection < |s.pending|
  }

  /** The next atomic step of job `j`; `error` matters only where the read ends. */
  function Step(s: State, j: nat, error: int): State
    requires Shaped(s) && j < |s.jobs|
  {
    var job := s.jobs[j];
    var p := job.projection;
    match job.stage
    case Queued => With(s, j, job.(stage := Reading))
    case Reading => With(s, j, job.(stage := Read, error := error))
    case Read =>
      With(if job.error != 0 then s.(failed := s.failed[p := true]) else s, j, job.(stage := Stored))
    case Stored =>
      With(s.(pending := s.pending[p := s.pending[p] - 1]), j, job.(stage := Counted, last := s.pending[p] == 1))
    case Counted =>
      With(if job.last then
             s.(outcomes := s.outcomes[p := s.outcomes[p] + [if s.failed[p] then Aborted else Completed]])
           else s,
           j, job.(stage := Settled))
    case Settled =>
      With(s.(outstanding := s.outstanding - 1), j, job.(stage := Left, out := s.outstanding == 1))
    case Left => With(if job.out then s.(frees := s.frees + 1) else s, j, job.(stage := Done))
    case Done => s
  }

  /** A step that reads or writes the batch object. A worker past its own last decrement touches it
      only to delete it. */
  predicate Touches(job: Job) {
    Rank(job.stage) < 6
  }

  /** An interleaving: which job moves next, and how its read would end. */
  datatype Move = Move(job: nat, error: int)

  ghost predicate Moves(s: State, m: Move) {
    m.job < |s.jobs| && s.jobs[m.job].stage != Done
  }

  // ----- invariants -----

  ghost function Uncounted(jobs: seq<Job>, p: nat): set<nat> {
    set j: nat | j < |jobs| && jobs[j].projection == p && Rank(jobs[j].stage) < 4
  }

  ghost function Inside(jobs: seq<Job>): set<nat> {
    set j: nat | j < |jobs| && Rank(jobs[j].stage) < 6
  }

  ghost predicate Errs(jobs: seq<Job>, p: nat, rank: nat) {
    exists j: nat :: j < |jobs| && jobs[j].projection == p && Rank(jobs[j].stage) >= rank && jobs[j].error != 0
  }

  ghost predicate Counts(s: State) {
    && (forall p: nat | p < |s.pending| :: s.pending[p] == |Uncounted(s.jobs, p)|)
    && s.outstanding == |Inside(s.jobs)|
  }

  /** The failure flag is the disjunction of the errors stored so far. */
  ghost predicate Flags(s: State)
    requires Shaped(s)
  {
    && (forall p: nat | p < |s.pending| :: s.failed[p] <==> Errs(s.jobs, p, 3))
    && (forall j: nat | j < |s.jobs| && Rank(s.jobs[j].stage) < 2 :: s.jobs[j].error == 0)
  }

  /** One job per projection is the last, once none is pending. */
  ghost predicate Lasts(s: State)
    requires Shaped(s)
  {
    && (forall j: nat | j < |s.jobs| && s.jobs[j].last ::
          Rank(s.jobs[j].stage) >= 4 && s.pending[s.jobs[j].projection] == 0)
    && (forall i: nat, j: nat | i < |s.jobs| && j < |s.jobs| && i != j && s.jobs[i].last && s.jobs[j].last ::
          s.jobs[i].projection != s.jobs[j].projection)
    && (forall i: nat | i < |s.jobs| && s.pending[s.jobs[i].projection] == 0 ::
          HasLast(s.jobs, s.jobs[i].projection))
  }

  /** Some job counted a projection's pending reads down to zero. */
  ghost predicate HasLast(jobs: seq<Job>, p: nat) {
    exists j: nat :: j < |jobs| && jobs[j].last && jobs[j].projection == p
  }

  lemma HasLastAfter(jobs: seq<Job>, j: nat, job: Job, p: nat)
    requires j < |jobs| && job.projection == jobs[j].projection && (jobs[j].last ==> job.last)
    requires HasLast(jobs, p)
    ensures HasLast(jobs[j := job], p)
  {
    var k: nat :| k < |jobs| && jobs[k].last && jobs[k].projection == p;
    assert jobs[j := job][k].last && jobs[j := job][k].projection == p;
  }

  ghost predicate SettledBy(jobs: seq<Job>, p: nat) {
    exists j: nat :: j < |jobs| && jobs[j].last && jobs[j].projection == p && Rank(jobs[j].stage) >= 5
  }

  function Verdict(failed: bool): Outcome {
    if failed then Aborted else Completed
  }

  /** A projection is reported by its last job only. */
  ghost predicate Reports(s: State)
    requires Shaped(s)
  {
    forall p: nat | p < |s.pending| ::
      s.outcomes[p] == if SettledBy(s.jobs, p) then [Verdict(s.failed[p])] else []
  }

  /** One job is the one that leaves last, once none is inside; it alone frees the batch. */
  ghost predicate Frees(s: State) {
    && (forall j: nat | j < |s.jobs| && s.jobs[j].out :: Rank(s.jobs[j].stage) >= 6 && s.outstanding == 0)
    && (forall i: nat, j: nat | i < |s.jobs| && j < |s.jobs| && i != j :: !(s.jobs[i].out && s.jobs[j].out))
    && (|s.jobs| > 0 && s.outstanding == 0 ==> exists j: nat :: j < |s.jobs| && s.jobs[j].out)
    && s.frees == if exists j: nat :: j < |s.jobs| && s.jobs[j].out && s.jobs[j].stage == Done then 1 else 0
  }

  ghost predicate Inv(s: State) {
    Shaped(s) && Counts(s) && Flags(s) && Lasts(s) && Reports(s) && Frees(s)
  }

  /** A batch as it is submitted: every read queued, the counts those of its reads. */
  ghost predicate Submitted(s: State) {
    && Shaped(s) && Counts(s) && |s.jobs| > 0 && s.frees == 0
    && (forall j: nat | j < |s.jobs| :: s.jobs[j] == Job(s.jobs[j].projection, Queued, 0, false, false))
    && (forall p: nat | p < |s.pending| :: !s.failed[p] && s.outcomes[p] == [])
  }

  lemma SubmittedHolds(s: State)
    requires Submitted(s)
    ensures Inv(s)
  {
    forall i: nat | i < |s.jobs| ensures s.pending[s.jobs[i].projection] > 0 {
      assert i in Uncounted(s.jobs, s.jobs[i].projection);
    }
    assert 0 in Inside(s.jobs);
  }

  // ----- every step keeps them -----

  lemma CountedAfter(jobs: seq<Job>, j: nat, job: Job, p: nat)
    requires j < |jobs| && job.projection == jobs[j].projection && Rank(jobs[j].stage) <= Rank(job.stage)
    ensures Uncounted(jobs[j := job], p)
         == if jobs[j].projection == p && Rank(job.stage) >= 4 then Uncounted(jobs, p) - {j} else Uncounted(jobs, p)
    ensures j in Uncounted(jobs, p) <==> jobs[j].projection == p && Rank(jobs[j].stage) < 4
  {
  }

  lemma InsideAfter(jobs: seq<Job>, j: nat, job: Job)
    requires j < |jobs| && Rank(jobs[j].stage) <= Rank(job.stage)
    ensures Inside(jobs[j := job]) == if Rank(job.stage) >= 6 then Inside(jobs) - {j} else Inside(jobs)
    ensures j in Inside(jobs) <==> Rank(jobs[j].stage) < 6
  {
  }

  lemma StepKeepsCounts(s: State, j: nat, error: int)
    requires Inv(s) && j < |s.jobs|
    ensures Shaped(Step(s, j, error)) && Counts(Step(s, j, error))
  {
    hide Uncounted, Inside, Flags, Lasts, Reports, Frees;
    var next := Step(s, j, error);
    forall p: nat | p < |s.pending| ensures next.pending[p] == |Uncounted(next.jobs, p)| {
      CountedAfter(s.jobs, j, next.jobs[j], p);
    }
    InsideAfter(s.jobs, j, next.jobs[j]);
  }

  lemma ErrsAfter(jobs: seq<Job>, j: nat, job: Job, p: nat)
    requires j < |jobs| && job.projection == jobs[j].projection && Rank(jobs[j].stage) <= Rank(job.stage)
    requires Rank(jobs[j].stage) >= 2 ==> job.error == jobs[j].error
    ensures Errs(jobs[j := job], p, 3) <==>
              Errs(jobs, p, 3) || (jobs[j].projection == p && Rank(job.stage) >= 3 && job.error != 0)
  {
    var next := jobs[j := job];
    if Errs(jobs, p, 3) {
      var i: nat :| i < |jobs| && jobs[i].projection == p && Rank(jobs[i].stage) >= 3 && jobs[i].error != 0;
      assert next[i].projection == p && Rank(next[i].stage) >= 3 && next[i].error != 0;
    }
    if jobs[j].projection == p && Rank(job.stage) >= 3 && job.error != 0 {
      assert next[j] == job;
    }
    if Errs(next, p, 3) {
      var i: nat :| i < |next| && next[i].projection == p && Rank(next[i].stage) >= 3 && next[i].error != 0;
      if i != j {
        assert jobs[i] == next[i];
      }
    }
  }

  lemma StepKeepsFlags(s: State, j: nat, error: int)
    requires Inv(s) && j < |s.jobs|
    ensures Shaped(Step(s, j, error)) && Flags(Step(s, j, error))
  {
    hide Uncounted, Inside, Errs, Counts, Lasts, Reports, Frees;
    var next := Step(s, j, error);
    forall p: nat | p < |s.pending| ensures next.failed[p] <==> Errs(next.jobs, p, 3) {
      ErrsAfter(s.jobs, j, next.jobs[j], p);
      if s.jobs[j].projection == p && Rank(s.jobs[j].stage) >= 3 && s.jobs[j].error != 0 {
        ErrsAt(s.jobs, j, p);
      }
    }
  }

  lemma ErrsAt(jobs: seq<Job>, j: nat, p: nat)
    requires j < |jobs| && jobs[j].projection == p && Rank(jobs[j].stage) >= 3 && jobs[j].error != 0
    ensures Errs(jobs, p, 3)
  {
  }

  lemma PendingHere(s: State, j: nat)
    requires Inv(s) && j < |s.jobs| && Rank(s.jobs[j].stage) < 4
    ensures s.pending[s.jobs[j].projection] > 0
  {
    assert j in Uncounted(s.jobs, s.jobs[j].projection);
  }

  lemma InsideHere(s: State, j: nat)
    requires Inv(s) && j < |s.jobs| && Rank(s.jobs[j].stage) < 6
    ensures s.outstanding > 0
  {
    assert j in Inside(s.jobs);
  }

  lemma OtherStepShape(s: State, j: nat, error: int)
    requires Shaped(s) && j < |s.jobs| && s.jobs[j].stage != Stored
    ensures var next := Step(s, j, error);
            && Shaped(next) && next.pending == s.pending && next.jobs == s.jobs[j := next.jobs[j]]
            && next.jobs[j].projection == s.jobs[j].projection && next.jobs[j].last == s.jobs[j].last
            && Rank(next.jobs[j].stage) >= Rank(s.jobs[j].stage)
  {
  }

  /** Only the pending decrement touches what `Lasts` speaks of. */
  lemma OtherStepKeepsLasts(s: State, j: nat, error: int)
    requires Inv(s) && j < |s.jobs| && s.jobs[j].stage != Stored
    ensures Shaped(Step(s, j, error)) && Lasts(Step(s, j, error))
  {
    hide Counts, Flags, Reports, Frees, Step, Rank, HasLast;
    OtherStepShape(s, j, error);
    var next := Step(s, j, error);
    forall i: nat | i < |next.jobs| && next.pending[next.jobs[i].projection] == 0
      ensures HasLast(next.jobs, next.jobs[i].projection)
    {
      assert next.jobs[i].projection == s.jobs[i].projection;
      HasLastAfter(s.jobs, j, next.jobs[j], s.jobs[i].projection);
    }
  }

  lemma DecrementKeepsLasts(s: State, j: nat, error: int)
    requires Inv(s) && j < |s.jobs| && s.jobs[j].stage == Stored
    ensures Shaped(Step(s, j, error)) && Lasts(Step(s, j, error))
  {
    hide Counts, Flags, Reports, Frees;
    var next, p := Step(s, j, error), s.jobs[j].projection;
    PendingHere(s, j);
    forall i: nat | i < |s.jobs| && s.jobs[i].last ensures s.jobs[i].projection != p && i != j {
    }
    forall i: nat | i < |next.jobs| && next.pending[next.jobs[i].projection] == 0
      ensures HasLast(next.jobs, next.jobs[i].projection)
    {
      if s.jobs[i].projection == p {
        assert next.jobs[j].last;
      } else {
        HasLastAfter(s.jobs, j, next.jobs[j], s.jobs[i].projection);
      }
    }
  }

  lemma StepKeepsLasts(s: State, j: nat, error: int)
    requires Inv(s) && j < |s.jobs|
    ensures Shaped(Step(s, j, error)) && Lasts(Step(s, j, error))
  {
    hide Inv, Lasts;
    if s.jobs[j].stage == Stored {
      DecrementKeepsLasts(s, j, error);
    } else {
      OtherStepKeepsLasts(s, j, error);
    }
  }

  lemma SettledAfter(jobs: seq<Job>, j: nat, job: Job, p: nat)
    requires j < |jobs| && job.projection == jobs[j].projection && Rank(jobs[j].stage) <= Rank(job.stage)
    requires Rank(jobs[j].stage) >= 4 ==> job.last == jobs[j].last
    requires jobs[j].last ==> Rank(jobs[j].stage) >= 4
    ensures SettledBy(jobs[j := job], p) <==>
              SettledBy(jobs, p) || (jobs[j].projection == p && job.last && Rank(job.stage) >= 5)
  {
    var next := jobs[j := job];
    if SettledBy(jobs, p) {
      var i: nat :| i < |jobs| && jobs[i].last && jobs[i].projection == p && Rank(jobs[i].stage) >= 5;
      assert next[i].last && next[i].projection == p && Rank(next[i].stage) >= 5;
    }
    if jobs[j].projection == p && job.last && Rank(job.stage) >= 5 {
      assert next[j] == job;
    }
    if SettledBy(next, p) {
      var i: nat :| i < |next| && next[i].last && next[i].projection == p && Rank(next[i].stage) >= 5;
      if i != j {
        assert jobs[i] == next[i];
      }
    }
  }

  lemma StepKeepsReports(s: State, j: nat, error: int)
    requires Inv(s) && j < |s.jobs|
    ensures Shaped(Step(s, j, error)) && Reports(Step(s, j, error))
  {
    hide Counts, Flags, Frees, SettledBy;
    var next := Step(s, j, error);
    if Rank(s.jobs[j].stage) < 4 {
      PendingHere(s, j);
    }
    forall p: nat | p < |s.pending|
      ensures next.outcomes[p] == if SettledBy(next.jobs, p) then [Verdict(next.failed[p])] else []
    {
      SettledAfter(s.jobs, j, next.jobs[j], p);
      if SettledBy(s.jobs, p) {
        SettledMeansCounted(s, p);
      }
      if s.jobs[j].last && Rank(s.jobs[j].stage) == 4 && s.jobs[j].projection == p {
        NotYetSettled(s, j);
      }
      if s.jobs[j].last && Rank(s.jobs[j].stage) >= 5 && s.jobs[j].projection == p {
        SettledAt(s.jobs, j);
      }
    }
  }

  lemma SettledMeansCounted(s: State, p: nat)
    requires Inv(s) && p < |s.pending| && SettledBy(s.jobs, p)
    ensures s.pending[p] == 0
  {
  }

  lemma SettledAt(jobs: seq<Job>, j: nat)
    requires j < |jobs| && jobs[j].last && Rank(jobs[j].stage) >= 5
    ensures SettledBy(jobs, jobs[j].projection)
  {
  }

  lemma NotYetSettled(s: State, j: nat)
    requires Inv(s) && j < |s.jobs| && s.jobs[j].last && Rank(s.jobs[j].stage) == 4
    ensures !SettledBy(s.jobs, s.jobs[j].projection)
  {
  }

  lemma StepKeepsFrees(s: State, j: nat, error: int)
    requires Inv(s) && j < |s.jobs|
    ensures Frees(Step(s, j, error))
  {
    hide Counts, Flags, Reports, Lasts;
    var next := Step(s, j, error);
    if Rank(s.jobs[j].stage) < 6 {
      InsideHere(s, j);
    }
    if next.outstanding == 0 {
      if s.outstanding == 0 {
        var k: nat :| k < |s.jobs| && s.jobs[k].out;
        assert next.jobs[k].out;
      } else {
        assert next.jobs[j].out;
      }
    }
    if k: nat :| k < |s.jobs| && s.jobs[k].out && s.jobs[k].stage == Done {
      assert next.jobs[k].out && next.jobs[k].stage == Done;
    }
    if k: nat :| k < |next.jobs| && next.jobs[k].out && next.jobs[k].stage == Done {
      if k != j {
        assert s.jobs[k].out && s.jobs[k].stage == Done;
      }
    }
  }

  lemma StepKeepsInv(s: State, j: nat, error: int)
    requires Inv(s) && j < |s.jobs|
    ensures Inv(Step(s, j, error))
  {
    hide Counts, Flags, Lasts, Reports, Frees, Step;
    StepKeepsCounts(s, j, error);
    StepKeepsFlags(s, j, error);
    StepKeepsLasts(s, j, error);
    StepKeepsReports(s, j, error);
    StepKeepsFrees(s, j, error);
  }

  // ----- whole runs -----

  /** A run names, move by move, the job that takes its next step. */
  ghost function Execute(s: State, moves: seq<Move>): Option<State> {
    if moves == [] then Some(s)
    else
      match Execute(s, moves[..|moves| - 1])
      case None => None
      case Some(before) =>
        var m := moves[|moves| - 1];
        if Shaped(before) && Moves(before, m) then Some(Step(before, m.job, m.error)) else None
  }

  lemma {:induction false} RunsKeepInv(s: State, moves: seq<Move>)
    requires Inv(s) && Execute(s, moves).Some?
    ensures Inv(Execute(s, moves).value)
    ensures |Execute(s, moves).value.jobs| == |s.jobs| && |Execute(s, moves).value.pending| == |s.pending|
  {
    hide Inv;
    if moves == [] {
    } else {
      var n := |moves| - 1;
      RunsKeepInv(s, moves[..n]);
      StepKeepsInv(Execute(s, moves[..n]).value, moves[n].job, moves[n].error);
    }
  }

  /** In every reachable state a projection has been reported at most once; when it has, all its reads
      had ended, and it was completed if and only if none of them failed. */
  lemma ReportedOnceAfterAllReads(s: State, moves: seq<Move>, p: nat)
    requires Submitted(s) && Execute(s, moves).Some? && p < |s.pending|
    ensures var end := Execute(s, moves).value;
            && Shaped(end) && p < |end.outcomes| && |end.outcomes[p]| <= 1
            && (end.outcomes[p] != [] ==>
                  && (forall j: nat | j < |end.jobs| && end.jobs[j].projection == p :: Rank(end.jobs[j].stage) >= 4)
                  && (end.outcomes[p] == [Completed] <==>
                        forall j: nat | j < |end.jobs| && end.jobs[j].projection == p :: end.jobs[j].error == 0))
  {
    hide Submitted, Execute;
    SubmittedHolds(s);
    RunsKeepInv(s, moves);
    var end := Execute(s, moves).value;
    if end.outcomes[p] != [] {
      SettledMeansCounted(end, p);
      forall j: nat | j < |end.jobs| && end.jobs[j].projection == p ensures Rank(end.jobs[j].stage) >= 4 {
        if Rank(end.jobs[j].stage) < 4 {
          PendingHere(end, j);
        }
      }
    }
  }

  /** The batch is freed at most once, and once freed no worker will touch it again: nobody's next step
      reads or writes it, and nobody is left who would delete it. */
  lemma FreedOnceAfterTheLastAccess(s: State, moves: seq<Move>)
    requires Submitted(s) && Execute(s, moves).Some?
    ensures var end := Execute(s, moves).value;
            && end.frees <= 1
            && (end.frees == 1 ==>
                  forall j: nat | j < |end.jobs| ::
                    !Touches(end.jobs[j]) && (end.jobs[j].out ==> end.jobs[j].stage == Done))
  {
    hide Submitted, Execute, Counts, Flags, Lasts, Reports;
    SubmittedHolds(s);
    RunsKeepInv(s, moves);
    var end := Execute(s, moves).value;
    if end.frees == 1 {
      var k: nat :| k < |end.jobs| && end.jobs[k].out && end.jobs[k].stage == Done;
      forall j: nat | j < |end.jobs|
        ensures !Touches(end.jobs[j]) && (end.jobs[j].out ==> end.jobs[j].stage == Done)
      {
        if Rank(end.jobs[j].stage) < 6 {
          InsideHere(end, j);
        }
      }
    }
  }

  // ----- the batch always ends -----

  function ToGo(jobs: seq<Job>): nat {
    if jobs == [] then 0 else ToGo(jobs[..|jobs| - 1]) + (7 - Rank(jobs[|jobs| - 1].stage))
  }

  lemma {:induction false} ToGoAt(jobs: seq<Job>, j: nat, job: Job)
    requires j < |jobs|
    ensures ToGo(jobs[j := job]) == ToGo(jobs) + Rank(jobs[j].stage) - Rank(job.stage)
    decreases |jobs|
  {
    var n := |jobs| - 1;
    var next := jobs[j := job];
    if j == n {
      assert next[..n] == jobs[..n];
    } else {
      assert next[..n] == jobs[..n][j := job];
      ToGoAt(jobs[..n], j, job);
    }
  }

  lemma StepRises(s: State, j: nat, error: int)
    requires Shaped(s) && j < |s.jobs| && s.jobs[j].stage != Done
    ensures var next := Step(s, j, error);
            next.jobs == s.jobs[j := next.jobs[j]] && Rank(next.jobs[j].stage) == Rank(s.jobs[j].stage) + 1
  {
  }

  /** Every run has at most seven steps per read, and one that cannot go on has reported each projection
      once and freed the batch. */
  lemma {:induction false} RunsEnd(s: State, moves: seq<Move>)
    requires Submitted(s) && Execute(s, moves).Some?
    ensures |moves| + ToGo(Execute(s, moves).value.jobs) == ToGo(s.jobs)
  {
    hide Submitted, Step, ToGo;
    if moves == [] {
    } else {
      var n := |moves| - 1;
      RunsEnd(s, moves[..n]);
      var before := Execute(s, moves[..n]).value;
      StepRises(before, moves[n].job, moves[n].error);
      ToGoAt(before.jobs, moves[n].job, Step(before, moves[n].job, moves[n].error).jobs[moves[n].job]);
    }
  }

  lemma StuckMeansFreed(s: State, moves: seq<Move>)
    requires Submitted(s) && Execute(s, moves).Some?
    requires forall m :: !Moves(Execute(s, moves).value, m)
    ensures var end := Execute(s, moves).value;
            && end.frees == 1 && Shaped(end)
            && forall j: nat | j < |end.jobs| ::
                 end.jobs[j].stage == Done && |end.outcomes[end.jobs[j].projection]| == 1
  {
    hide Submitted, Execute;
    SubmittedHolds(s);
    SubmittedSize(s);
    RunsKeepInv(s, moves);
    var end := Execute(s, moves).value;
    forall j: nat | j < |end.jobs| ensures end.jobs[j].stage == Done {
      assert !Moves(end, Move(j, 0));
    }
    AllOut(end);
    forall j: nat | j < |end.jobs| ensures SettledBy(end.jobs, end.jobs[j].projection) {
      AllReported(end, j);
    }
  }

  lemma SubmittedSize(s: State)
    requires Submitted(s)
    ensures |s.jobs| > 0
  {
  }

  lemma AllOut(s: State)
    requires Inv(s) && |s.jobs| > 0 && forall j: nat | j < |s.jobs| :: s.jobs[j].stage == Done
    ensures s.frees == 1
  {
    assert Inside(s.jobs) == {};
  }

  lemma AllReported(s: State, j: nat)
    requires Inv(s) && j < |s.jobs| && forall i: nat | i < |s.jobs| :: s.jobs[i].stage == Done
    ensures SettledBy(s.jobs, s.jobs[j].projection)
  {
    assert Uncounted(s.jobs, s.jobs[j].projection) == {};
    assert s.pending[s.jobs[j].projection] == 0;
  }
}
