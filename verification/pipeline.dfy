/**
 * The interleaved batch loop of `meth_main` (the default build), seen from
 * the main thread. Each iteration allocates and loads a batch, joins the
 * previous processing thread, launches `pthread_processor` on the new
 * batch, joins the previous post-processing thread, and launches
 * `pthread_post_processor` on the new batch; after the loop the last two
 * threads are joined.
 *
 * The threads themselves are not run: a launched thread is an outstanding
 * task token, and its effect is taken at the join that retires it -- the
 * batch is processed when its processing thread is joined, and its output
 * is written and the batch and its argument block are freed when its
 * post-processing thread is joined. The main thread's bookkeeping is a
 * small deterministic state machine over these tokens.
 */
module Pipeline {
  import opened Batches

  /** Where the main thread is: one stage per statement of the loop. */
  datatype Stage =
    | LoopTest          // while (status >= batch_size)
    | Load              // db = init_db(core); status = load_db(core, db)
    | JoinProcess       // if (first_flag_p) pthread_join(tid_p); first_flag_p = 1
    | SpawnProcess      // malloc the argument block; pthread_create(&tid_p, pthread_processor)
    | JoinPost          // if (first_flag_pp) pthread_join(tid_pp); first_flag_pp = 1
    | SpawnPost         // pthread_create(&tid_pp, pthread_post_processor)
    | BreakTest         // if (debug break) break
    | FinalJoinProcess  // pthread_join(tid_p) after the loop
    | FinalJoinPost     // pthread_join(tid_pp) after the loop
    | Done

  /** A launched thread, named by the batch it works on. */
  datatype Task = Process(batch: nat) | PostProcess(batch: nat)

  /**
   * The main thread's state. Batches are numbered in allocation order.
   * `tidP`/`tidPP` are the batches whose threads `tid_p`/`tid_pp` name
   * (meaningful once `firstP`/`firstPP` is set); `processTasks` and
   * `postTasks` hold the tokens of launched, not yet joined threads.
   */
  datatype MainThread<R> = MainThread(
    pc: Stage,
    status: int,
    firstP: bool,
    firstPP: bool,
    tidP: nat,
    tidPP: nat,
    processTasks: set<nat>,
    postTasks: set<nat>,
    batches: seq<seq<R>>,   // contents loaded into each allocated batch
    cursor: nat,            // records the loader has consumed
    live: set<nat>,         // batches allocated and not yet freed
    argBlocks: set<nat>,    // argument blocks (with their mutex and condition) not yet freed
    processed: seq<nat>,    // batches whose processing is complete, in order
    freed: seq<nat>,        // batches freed by their post-processor, in order
    emitted: seq<R>,        // output written so far
    spawned: seq<Task>)     // threads launched, in order

  /** Before the loop: `status = batch_size`, both first-flags clear. */
  function Start<R>(cfg: Config): MainThread<R> {
    MainThread(LoopTest, cfg.capacity, false, false, 0, 0, {}, {}, [], 0, {}, {}, [], [], [], [])
  }

  /** pthread_join(tid_p) may only be called on a launched, unjoined thread. */
  predicate ProcessJoinable<R>(s: MainThread<R>) {
    s.firstP && s.tidP in s.processTasks
  }

  /**
   * pthread_join(tid_pp) likewise; and its thread, which waits for the
   * processing thread's signal, then writes and frees the batch and its
   * argument block, needs that batch processed, allocated and still owning
   * its argument block.
   */
  predicate PostJoinable<R>(s: MainThread<R>) {
    && s.firstPP
    && s.tidPP in s.postTasks
    && s.tidPP < |s.batches|
    && s.tidPP in s.processed
    && s.tidPP in s.live
    && s.tidPP in s.argBlocks
  }

  /** Retiring the processing thread: its batch is now processed. */
  function JoinProcessTask<R>(s: MainThread<R>): MainThread<R>
    requires ProcessJoinable(s)
  {
    s.(processTasks := s.processTasks - {s.tidP},
       processed := s.processed + [s.tidP])
  }

  /** Retiring the post-processing thread: its batch has been written out
      and freed together with its argument block. */
  function JoinPostTask<R>(s: MainThread<R>): MainThread<R>
    requires PostJoinable(s)
  {
    s.(postTasks := s.postTasks - {s.tidPP},
       emitted := s.emitted + s.batches[s.tidPP],
       live := s.live - {s.tidPP},
       argBlocks := s.argBlocks - {s.tidPP},
       freed := s.freed + [s.tidPP])
  }

  /** What each statement needs of the state to be well defined. */
  predicate Enabled<R>(cfg: Config, input: seq<R>, s: MainThread<R>) {
    && s.pc != Done
    && cfg.capacity >= 1
    && s.cursor <= |input|
    && (s.pc == SpawnProcess || s.pc == SpawnPost ==> |s.batches| >= 1)
    && (s.pc == JoinProcess && s.firstP ==> ProcessJoinable(s))
    && (s.pc == FinalJoinProcess ==> ProcessJoinable(s))
    && (s.pc == JoinPost && s.firstPP ==> PostJoinable(s))
    && (s.pc == FinalJoinPost ==> PostJoinable(s))
  }

  /** One statement of the main thread. */
  function Step<R>(cfg: Config, input: seq<R>, s: MainThread<R>): MainThread<R>
    requires Enabled(cfg, input, s)
  {
    match s.pc
    case LoopTest =>
      s.(pc := if s.status >= cfg.capacity then Load else FinalJoinProcess)
    case Load =>
      var n := LoadCount(cfg.capacity, |input| - s.cursor);
      s.(pc := JoinProcess,
         status := n,
         batches := s.batches + [input[s.cursor..s.cursor + n]],
         cursor := s.cursor + n,
         live := s.live + {|s.batches|})
    case JoinProcess =>
      var s' := if s.firstP then JoinProcessTask(s) else s;
      s'.(pc := SpawnProcess, firstP := true)
    case SpawnProcess =>
      var k := |s.batches| - 1;
      s.(pc := JoinPost,
         argBlocks := s.argBlocks + {k},
         processTasks := s.processTasks + {k},
         tidP := k,
         spawned := s.spawned + [Process(k)])
    case JoinPost =>
      var s' := if s.firstPP then JoinPostTask(s) else s;
      s'.(pc := SpawnPost, firstPP := true)
    case SpawnPost =>
      var k := |s.batches| - 1;
      s.(pc := BreakTest,
         postTasks := s.postTasks + {k},
         tidPP := k,
         spawned := s.spawned + [PostProcess(k)])
    case BreakTest =>
      s.(pc := if cfg.debugBreak then FinalJoinProcess else LoopTest)
    case FinalJoinProcess =>
      JoinProcessTask(s).(pc := FinalJoinPost)
    case FinalJoinPost =>
      JoinPostTask(s).(pc := Done)
  }

  /** The threads launched by the first `n` iterations: for each batch in
      turn, its processing thread and then its post-processing thread. */
  function Schedule(n: nat): seq<Task> {
    if n == 0 then [] else Schedule(n - 1) + [Process(n - 1), PostProcess(n - 1)]
  }

  /** The batches `0 .. n-1` in order. */
  function Range(n: nat): (r: seq<nat>)
    ensures |r| == n
    ensures forall i :: 0 <= i < n ==> r[i] == i
  {
    if n == 0 then [] else Range(n - 1) + [n - 1]
  }

  /** The batches `lo .. hi-1`. */
  function Between(lo: nat, hi: nat): (r: set<nat>)
    ensures forall k :: k in r <==> lo <= k < hi
    decreases hi - lo
  {
    if lo >= hi then {} else {lo} + Between(lo + 1, hi)
  }

  lemma {:induction false} BetweenSize(lo: nat, hi: nat)
    requires lo <= hi
    ensures |Between(lo, hi)| == hi - lo
    decreases hi - lo
  {
    if lo < hi {
      BetweenSize(lo + 1, hi);
      assert lo !in Between(lo + 1, hi);
    }
  }

}
