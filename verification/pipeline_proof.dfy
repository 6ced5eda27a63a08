/**
 * The invariant of the interleaved loop's main thread, its preservation
 * by every statement, and what follows: every join is legal, at most one
 * thread per stage and at most two batches are ever outstanding, threads
 * are launched in batch order, and the loop ends with nothing outstanding,
 * every batch freed once, and the whole input written in order.
 */
module PipelineProof {
  import opened Batches
  import opened Pipeline

  /** `j` processing threads launched; all but the last one joined. */
  ghost predicate ProcessPhase<R>(s: MainThread<R>, j: nat) {
    if j == 0 then !s.firstP && s.processTasks == {} && s.processed == []
    else s.firstP && s.tidP == j - 1 && s.processTasks == {j - 1} && s.processed == Range(j - 1)
  }

  /** `j` processing threads launched and all of them joined. */
  ghost predicate ProcessDrained<R>(s: MainThread<R>, j: nat) {
    s.firstP && s.processTasks == {} && s.processed == Range(j)
  }

  /** `j` post-processing threads launched; all but the last one joined. */
  ghost predicate PostPhase<R>(s: MainThread<R>, j: nat) {
    if j == 0 then !s.firstPP && s.postTasks == {} && s.freed == []
    else s.firstPP && s.tidPP == j - 1 && s.postTasks == {j - 1} && s.freed == Range(j - 1)
  }

  /** `j` post-processing threads launched and all of them joined. */
  ghost predicate PostDrained<R>(s: MainThread<R>, j: nat) {
    s.firstPP && s.postTasks == {} && s.freed == Range(j)
  }

  /** Between iterations: both threads of the `n`-th batch outstanding. */
  ghost predicate Settled<R>(s: MainThread<R>, n: nat) {
    && ProcessPhase(s, n)
    && PostPhase(s, n)
    && s.argBlocks == s.live
    && s.spawned == Schedule(n)
  }

  /** The loop was left by its test or by the debug break. */
  predicate Exited<R>(cfg: Config, s: MainThread<R>) {
    cfg.debugBreak || s.status < cfg.capacity
  }

  /** Facts that hold at every statement. */
  ghost predicate Common<R>(cfg: Config, input: seq<R>, s: MainThread<R>) {
    && cfg.capacity >= 1
    && Pending(cfg.capacity, input, s.batches, s.cursor, s.status)
    && |s.freed| <= |s.batches|
    && s.live == Between(|s.freed|, |s.batches|)
    && s.emitted == Concat(s.batches[..|s.freed|])
    && (cfg.debugBreak ==> |s.batches| <= 1)
  }

  /** The invariant, statement by statement; `n` is the number of batches
      allocated so far. */
  ghost predicate Inv<R>(cfg: Config, input: seq<R>, s: MainThread<R>) {
    var n := |s.batches|;
    && Common(cfg, input, s)
    && match s.pc
       case LoopTest =>
         && (n == 0 ==> s.status >= cfg.capacity)
         && (cfg.debugBreak ==> n == 0)
         && Settled(s, n)
       case Load =>
         && s.status >= cfg.capacity
         && (cfg.debugBreak ==> n == 0)
         && Settled(s, n)
       case JoinProcess =>
         && n >= 1
         && ProcessPhase(s, n - 1)
         && PostPhase(s, n - 1)
         && s.argBlocks == s.live - {n - 1}
         && s.spawned == Schedule(n - 1)
       case SpawnProcess =>
         && n >= 1
         && ProcessDrained(s, n - 1)
         && PostPhase(s, n - 1)
         && s.argBlocks == s.live - {n - 1}
         && s.spawned == Schedule(n - 1)
       case JoinPost =>
         && n >= 1
         && ProcessPhase(s, n)
         && PostPhase(s, n - 1)
         && s.argBlocks == s.live
         && s.spawned == Schedule(n - 1) + [Process(n - 1)]
       case SpawnPost =>
         && n >= 1
         && ProcessPhase(s, n)
         && PostDrained(s, n - 1)
         && s.argBlocks == s.live
         && s.spawned == Schedule(n - 1) + [Process(n - 1)]
       case BreakTest =>
         && n >= 1
         && Settled(s, n)
       case FinalJoinProcess =>
         && n >= 1
         && Settled(s, n)
         && Exited(cfg, s)
       case FinalJoinPost =>
         && n >= 1
         && ProcessDrained(s, n)
         && PostPhase(s, n)
         && s.argBlocks == s.live
         && s.spawned == Schedule(n)
         && Exited(cfg, s)
       case Done =>
         && n >= 1
         && ProcessDrained(s, n)
         && PostDrained(s, n)
         && s.argBlocks == s.live
         && s.spawned == Schedule(n)
         && Exited(cfg, s)
  }

  lemma StartInv<R>(cfg: Config, input: seq<R>)
    requires cfg.capacity >= 1
    ensures Inv(cfg, input, Start(cfg))
  {
    assert input[0..] == input;
  }

  lemma RangeLast(n: nat)
    requires n >= 1
    ensures n - 1 in Range(n)
  {
    assert Range(n)[n - 1] == n - 1;
  }

  /** Every join the main thread makes is legal (the thread is launched and
      not yet joined), and the post-processor it waits for finds its batch
      processed, allocated and owning its argument block. */
  lemma InvEnabled<R>(cfg: Config, input: seq<R>, s: MainThread<R>)
    requires Inv(cfg, input, s) && s.pc != Done
    ensures Enabled(cfg, input, s)
  {
    var n := |s.batches|;
    match s.pc
    case JoinPost =>
      if s.firstPP {
        RangeLast(n - 1);
        assert Range(n - 1) + [n - 1] == Range(n);
        assert n - 2 in Range(n - 1);
      }
    case FinalJoinPost =>
      RangeLast(n);
    case _ =>
  }

  lemma EmittedAfterJoin<R>(batches: seq<seq<R>>, f: nat)
    requires f < |batches|
    ensures Concat(batches[..f]) + batches[f] == Concat(batches[..f + 1])
  {
    assert batches[..f + 1] == batches[..f] + [batches[f]];
    ConcatAppend(batches[..f], batches[f]);
  }

  lemma StepLoopTestInv<R>(cfg: Config, input: seq<R>, s: MainThread<R>)
    requires Inv(cfg, input, s) && s.pc == LoopTest
    ensures Enabled(cfg, input, s)
    ensures Inv(cfg, input, Step(cfg, input, s))
  {
    InvEnabled(cfg, input, s);
    var s' := Step(cfg, input, s);
    var n := |s.batches|;
  }

  lemma StepLoadInv<R>(cfg: Config, input: seq<R>, s: MainThread<R>)
    requires Inv(cfg, input, s) && s.pc == Load
    ensures Enabled(cfg, input, s)
    ensures Inv(cfg, input, Step(cfg, input, s))
  {
    InvEnabled(cfg, input, s);
    var s' := Step(cfg, input, s);
    var n := |s.batches|;
    LoadStep(cfg.capacity, input, s.batches, s.cursor, s.status);
    assert |s'.batches| == n + 1;
    assert s'.batches[..|s'.freed|] == s.batches[..|s.freed|];
    assert s'.live == Between(|s.freed|, n + 1);
    assert n !in s.live;
    assert s'.argBlocks == s'.live - {n};
    assert Common(cfg, input, s');
    assert ProcessPhase(s', n) && PostPhase(s', n);
  }

  lemma StepJoinProcessInv<R>(cfg: Config, input: seq<R>, s: MainThread<R>)
    requires Inv(cfg, input, s) && s.pc == JoinProcess
    ensures Enabled(cfg, input, s)
    ensures Inv(cfg, input, Step(cfg, input, s))
  {
    InvEnabled(cfg, input, s);
    var s' := Step(cfg, input, s);
    var n := |s.batches|;
    if s.firstP {
      assert Range(n - 2) + [n - 2] == Range(n - 1);
    }
  }

  lemma StepSpawnProcessInv<R>(cfg: Config, input: seq<R>, s: MainThread<R>)
    requires Inv(cfg, input, s) && s.pc == SpawnProcess
    ensures Enabled(cfg, input, s)
    ensures Inv(cfg, input, Step(cfg, input, s))
  {
    InvEnabled(cfg, input, s);
    var s' := Step(cfg, input, s);
    var n := |s.batches|;
  }

  lemma StepJoinPostInv<R>(cfg: Config, input: seq<R>, s: MainThread<R>)
    requires Inv(cfg, input, s) && s.pc == JoinPost
    ensures Enabled(cfg, input, s)
    ensures Inv(cfg, input, Step(cfg, input, s))
  {
    InvEnabled(cfg, input, s);
    var s' := Step(cfg, input, s);
    var n := |s.batches|;
    if s.firstPP {
      EmittedAfterJoin(s.batches, n - 2);
      assert Range(n - 2) + [n - 2] == Range(n - 1);
    }
  }

  lemma StepSpawnPostInv<R>(cfg: Config, input: seq<R>, s: MainThread<R>)
    requires Inv(cfg, input, s) && s.pc == SpawnPost
    ensures Enabled(cfg, input, s)
    ensures Inv(cfg, input, Step(cfg, input, s))
  {
    InvEnabled(cfg, input, s);
    var s' := Step(cfg, input, s);
    var n := |s.batches|;
    assert Schedule(n - 1) + [Process(n - 1)] + [PostProcess(n - 1)] == Schedule(n);
  }

  lemma StepBreakTestInv<R>(cfg: Config, input: seq<R>, s: MainThread<R>)
    requires Inv(cfg, input, s) && s.pc == BreakTest
    ensures Enabled(cfg, input, s)
    ensures Inv(cfg, input, Step(cfg, input, s))
  {
    InvEnabled(cfg, input, s);
    var s' := Step(cfg, input, s);
    var n := |s.batches|;
  }

  lemma StepFinalJoinProcessInv<R>(cfg: Config, input: seq<R>, s: MainThread<R>)
    requires Inv(cfg, input, s) && s.pc == FinalJoinProcess
    ensures Enabled(cfg, input, s)
    ensures Inv(cfg, input, Step(cfg, input, s))
  {
    InvEnabled(cfg, input, s);
    var s' := Step(cfg, input, s);
    var n := |s.batches|;
    assert Range(n - 1) + [n - 1] == Range(n);
  }

  lemma StepFinalJoinPostInv<R>(cfg: Config, input: seq<R>, s: MainThread<R>)
    requires Inv(cfg, input, s) && s.pc == FinalJoinPost
    ensures Enabled(cfg, input, s)
    ensures Inv(cfg, input, Step(cfg, input, s))
  {
    InvEnabled(cfg, input, s);
    var s' := Step(cfg, input, s);
    var n := |s.batches|;
    EmittedAfterJoin(s.batches, n - 1);
    assert Range(n - 1) + [n - 1] == Range(n);
  }

  /** Every statement keeps the invariant. */
  lemma StepPreservesInv<R>(cfg: Config, input: seq<R>, s: MainThread<R>)
    requires Inv(cfg, input, s) && s.pc != Done
    ensures Enabled(cfg, input, s)
    ensures Inv(cfg, input, Step(cfg, input, s))
  {
    match s.pc
    case LoopTest => StepLoopTestInv(cfg, input, s);
    case Load => StepLoadInv(cfg, input, s);
    case JoinProcess => StepJoinProcessInv(cfg, input, s);
    case SpawnProcess => StepSpawnProcessInv(cfg, input, s);
    case JoinPost => StepJoinPostInv(cfg, input, s);
    case SpawnPost => StepSpawnPostInv(cfg, input, s);
    case BreakTest => StepBreakTestInv(cfg, input, s);
    case FinalJoinProcess => StepFinalJoinProcessInv(cfg, input, s);
    case FinalJoinPost => StepFinalJoinPostInv(cfg, input, s);
  }

  /** Loads still possible: while the last load was full, at most one more
      per unread record plus the final short one. */
  function Potential<R>(cfg: Config, input: seq<R>, s: MainThread<R>): nat
    requires s.cursor <= |input|
  {
    if s.status >= cfg.capacity then |input| - s.cursor + 1 else 0
  }

  /** Statements still to run before the next load or the end. */
  function Rank(pc: Stage): nat {
    match pc
    case JoinProcess => 9
    case SpawnProcess => 8
    case JoinPost => 7
    case SpawnPost => 6
    case BreakTest => 5
    case LoopTest => 4
    case FinalJoinProcess => 3
    case FinalJoinPost => 2
    case Load => 1
    case Done => 0
  }

  /** Each statement either loads (and so uses up potential) or moves
      closer to the next load. */
  lemma StepDecreases<R>(cfg: Config, input: seq<R>, s: MainThread<R>)
    requires Inv(cfg, input, s) && s.pc != Done
    ensures Enabled(cfg, input, s)
    ensures Step(cfg, input, s).cursor <= |input|
    ensures var s' := Step(cfg, input, s);
      || Potential(cfg, input, s') < Potential(cfg, input, s)
      || (Potential(cfg, input, s') == Potential(cfg, input, s) && Rank(s'.pc) < Rank(s.pc))
  {
    StepPreservesInv(cfg, input, s);
  }

  /** The main thread run to the end of `meth_main`'s interleaved branch.
      It always gets there: the loop stops once a load comes back short. */
  function Run<R>(cfg: Config, input: seq<R>, s: MainThread<R>): (r: MainThread<R>)
    requires Inv(cfg, input, s)
    ensures r.pc == Done
    ensures Inv(cfg, input, r)
    decreases Potential(cfg, input, s), Rank(s.pc)
  {
    if s.pc == Done then s
    else
      StepPreservesInv(cfg, input, s);
      StepDecreases(cfg, input, s);
      Run(cfg, input, Step(cfg, input, s))
  }

  /** The main thread after `k` statements (or at the end, if sooner). */
  function Iterate<R>(cfg: Config, input: seq<R>, s: MainThread<R>, k: nat): (r: MainThread<R>)
    requires Inv(cfg, input, s)
    ensures Inv(cfg, input, r)
    decreases k
  {
    if k == 0 || s.pc == Done then s
    else
      StepPreservesInv(cfg, input, s);
      Iterate(cfg, input, Step(cfg, input, s), k - 1)
  }

  lemma SingletonSize(x: nat)
    ensures |{x}| == 1
  {
  }

  lemma RangePrefix(a: nat, b: nat)
    requires a <= b
    ensures Range(a) <= Range(b)
  {
  }

  /** In every state the invariant allows, the batches freed and those
      processed are both `0, 1, ...` in order, at most two batches behind
      the allocations, and fewer freed than processed. */
  lemma InvProgress<R>(cfg: Config, input: seq<R>, s: MainThread<R>)
    requires Inv(cfg, input, s)
    ensures s.freed == Range(|s.freed|) && s.processed == Range(|s.processed|)
    ensures |s.freed| <= |s.processed|
    ensures |s.freed| + 2 >= |s.batches|
  {
  }

  /** In every state the invariant allows, each stage has at most one
      outstanding thread, and an argument block belongs to a live batch. */
  lemma InvTasks<R>(cfg: Config, input: seq<R>, s: MainThread<R>)
    requires Inv(cfg, input, s)
    ensures s.processTasks == {} || s.processTasks == {s.tidP}
    ensures s.postTasks == {} || s.postTasks == {s.tidPP}
    ensures s.argBlocks <= s.live
  {
  }

  /**
   * At every point of the run: at most one processing thread and at most
   * one post-processing thread are outstanding, at most two batches are
   * allocated and not yet freed, every argument block belongs to a live
   * batch, and the batches freed so far are a prefix of those processed
   * so far (a batch is only freed after it was processed, in the same
   * order).
   */
  lemma AlwaysBounded<R>(cfg: Config, input: seq<R>, k: nat)
    requires cfg.capacity >= 1
    ensures var s := (StartInv(cfg, input); Iterate(cfg, input, Start(cfg), k));
      && |s.processTasks| <= 1
      && |s.postTasks| <= 1
      && |s.live| <= 2
      && s.argBlocks <= s.live
      && s.freed <= s.processed
  {
    StartInv(cfg, input);
    var s := Iterate(cfg, input, Start<R>(cfg), k);
    InvProgress(cfg, input, s);
    InvTasks(cfg, input, s);
    assert Common(cfg, input, s);
    BetweenSize(|s.freed|, |s.batches|);
    if s.processTasks != {} {
      SingletonSize(s.tidP);
    }
    if s.postTasks != {} {
      SingletonSize(s.tidPP);
    }
    RangePrefix(|s.freed|, |s.processed|);
  }

  lemma {:induction false} ScheduleShape(n: nat)
    ensures |Schedule(n)| == 2 * n
    ensures forall k :: 0 <= k < n ==>
              Schedule(n)[2 * k] == Process(k) && Schedule(n)[2 * k + 1] == PostProcess(k)
  {
    if n > 0 {
      ScheduleShape(n - 1);
      assert Schedule(n)[2 * (n - 1)] == Process(n - 1);
    }
  }

  /** Position `i` of the schedule is batch `i / 2`, its processing thread
      when `i` is even and its post-processing thread when odd. */
  lemma ScheduleAt(n: nat, i: nat)
    requires i < 2 * n
    ensures |Schedule(n)| == 2 * n
    ensures Schedule(n)[i].batch == i / 2
    ensures Schedule(n)[i].Process? <==> i % 2 == 0
  {
    ScheduleShape(n);
    var k := i / 2;
    assert i == 2 * k || i == 2 * k + 1;
  }

  /**
   * The launch order: threads are launched in batch order, and for each
   * batch its processing thread comes first, immediately followed by its
   * post-processing thread.
   */
  lemma ScheduleOrdered(n: nat)
    ensures |Schedule(n)| == 2 * n
    ensures forall k :: 0 <= k < n ==>
              Schedule(n)[2 * k] == Process(k) && Schedule(n)[2 * k + 1] == PostProcess(k)
    ensures forall i, j :: 0 <= i < j < |Schedule(n)| ==> Schedule(n)[i].batch <= Schedule(n)[j].batch
    ensures forall i, j :: 0 <= i < j < |Schedule(n)| && Schedule(n)[i].batch == Schedule(n)[j].batch ==>
              Schedule(n)[i].Process? && Schedule(n)[j].PostProcess?
  {
    ScheduleShape(n);
    forall i, j | 0 <= i < j < |Schedule(n)|
      ensures Schedule(n)[i].batch <= Schedule(n)[j].batch
      ensures Schedule(n)[i].batch == Schedule(n)[j].batch ==> Schedule(n)[i].Process? && Schedule(n)[j].PostProcess?
    {
      ScheduleAt(n, i);
      ScheduleAt(n, j);
    }
  }

  /** What the invariant says once the main thread is done. */
  lemma Finished<R>(cfg: Config, input: seq<R>, r: MainThread<R>)
    requires Inv(cfg, input, r) && r.pc == Done
    ensures r.processTasks == {} && r.postTasks == {}
    ensures r.live == {} && r.argBlocks == {}
    ensures r.processed == Range(|r.batches|)
    ensures r.freed == Range(|r.batches|)
    ensures r.spawned == Schedule(|r.batches|)
    ensures !cfg.debugBreak ==> r.batches == Chunks(cfg.capacity, input)
    ensures !cfg.debugBreak ==> |r.batches| == |input| / cfg.capacity + 1
    ensures !cfg.debugBreak ==> r.emitted == input
    ensures cfg.debugBreak ==> r.batches == [Chunks(cfg.capacity, input)[0]]
    ensures cfg.debugBreak ==> r.emitted == input[..LoadCount(cfg.capacity, |input|)]
  {
    var n := |r.batches|;
    assert r.batches[..n] == r.batches;
    ChunksPartition(cfg.capacity, input);
    ChunksCount(cfg.capacity, input);
    FirstChunk(cfg.capacity, input);
    if cfg.debugBreak {
      PendingSingle(cfg.capacity, input, r.batches, r.cursor, r.status);
      assert r.batches == [r.batches[0]];
      ConcatAppend([], r.batches[0]);
      assert [] + [r.batches[0]] == [r.batches[0]];
    }
  }

  /**
   * The interleaved branch of `meth_main` from `status = batch_size` to the
   * final joins. When it ends no thread is outstanding; every allocated
   * batch has been processed and then freed exactly once with its argument
   * block, in allocation order, by its own post-processor; the threads
   * were launched in batch order. Without `--debug-break` the batches are
   * the partition of the input (floor(N / C) + 1 of them, the last short)
   * and the output is the whole input in order; with it, exactly one batch
   * is loaded and written.
   */
  function Interleaved<R>(cfg: Config, input: seq<R>): (r: MainThread<R>)
    requires cfg.capacity >= 1
    ensures r.pc == Done
    ensures r.processTasks == {} && r.postTasks == {}
    ensures r.live == {} && r.argBlocks == {}
    ensures r.processed == Range(|r.batches|)
    ensures r.freed == Range(|r.batches|)
    ensures r.spawned == Schedule(|r.batches|)
    ensures !cfg.debugBreak ==> r.batches == Chunks(cfg.capacity, input)
    ensures !cfg.debugBreak ==> |r.batches| == |input| / cfg.capacity + 1
    ensures !cfg.debugBreak ==> r.emitted == input
    ensures cfg.debugBreak ==> r.batches == [Chunks(cfg.capacity, input)[0]]
    ensures cfg.debugBreak ==> r.emitted == input[..LoadCount(cfg.capacity, |input|)]
  {
    StartInv(cfg, input);
    var r := Run(cfg, input, Start(cfg));
    Finished(cfg, input, r);
    r
  }

}
