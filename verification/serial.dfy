/**
 * The serial batch loop of `meth_main` (built with IO_PROC_NO_INTERLEAVE):
 * one batch is allocated, then load, process, output and `free_db_tmp`
 * repeat on it until a load comes back short or `--debug-break` stops the
 * loop after its first turn, and the batch is freed at the end.
 */
module SerialRunner {
  import opened Batches

  /** The loop's state: `status` (the last load's count), the input cursor
      of the loader, the batch contents loaded so far, the output written so
      far, and how many calls of `init_db`, `free_db_tmp` and `free_db` were made. */
  datatype Serial<R> = Serial(
    status: int,
    cursor: nat,
    batches: seq<seq<R>>,
    emitted: seq<R>,
    tmpFrees: nat,
    dbAllocs: nat,
    dbFrees: nat)

  /** The state at the loop test. With `--debug-break` that test is only
      reached before the first turn. */
  ghost predicate AtLoopTest<R>(cfg: Config, input: seq<R>, s: Serial<R>) {
    && cfg.capacity >= 1
    && Pending(cfg.capacity, input, s.batches, s.cursor, s.status)
    && s.emitted == Concat(s.batches)
    && s.tmpFrees == |s.batches|
    && s.dbAllocs == 1 && s.dbFrees == 0
    && (|s.batches| == 0 ==> s.status >= cfg.capacity)
    && (cfg.debugBreak ==> |s.batches| == 0)
  }

  /** One turn of the loop body: load_db, process_db, output_db, free_db_tmp. */
  function Turn<R>(cfg: Config, input: seq<R>, s: Serial<R>): Serial<R>
    requires cfg.capacity >= 1 && s.cursor <= |input|
  {
    var n := LoadCount(cfg.capacity, |input| - s.cursor);
    var batch := input[s.cursor..s.cursor + n];
    s.(status := n,
       cursor := s.cursor + n,
       batches := s.batches + [batch],
       emitted := s.emitted + batch,
       tmpFrees := s.tmpFrees + 1)
  }

  /**
   * `while (status >= capacity) { ... if (debug break) break; }`. Without
   * `--debug-break` the loop loads exactly the batches of the partition of
   * the input; with it, exactly the first of them. Either way every turn
   * frees the batch's temporaries once and writes the batch's records.
   */
  function Loop<R>(cfg: Config, input: seq<R>, s: Serial<R>): (r: Serial<R>)
    requires AtLoopTest(cfg, input, s)
    ensures r.emitted == Concat(r.batches)
    ensures r.tmpFrees == |r.batches|
    ensures r.dbAllocs == 1 && r.dbFrees == 0
    ensures !cfg.debugBreak ==> r.batches == Chunks(cfg.capacity, input)
    ensures cfg.debugBreak ==> r.batches == [Chunks(cfg.capacity, input)[0]]
    decreases if s.status >= cfg.capacity then |input| - s.cursor + 1 else 0
  {
    if s.status < cfg.capacity then s
    else
      var s' := Turn(cfg, input, s);
      LoadStep(cfg.capacity, input, s.batches, s.cursor, s.status);
      ConcatAppend(s.batches, s'.batches[|s.batches|]);
      if cfg.debugBreak then
        PendingSingle(cfg.capacity, input, s'.batches, s'.cursor, s'.status);
        s'
      else
        Loop(cfg, input, s')
  }

  /** What the loop leaves, read against the partition of the input. */
  lemma LoopOutcome<R>(cfg: Config, input: seq<R>, s: Serial<R>)
    requires cfg.capacity >= 1
    requires s.emitted == Concat(s.batches)
    requires !cfg.debugBreak ==> s.batches == Chunks(cfg.capacity, input)
    requires cfg.debugBreak ==> s.batches == [Chunks(cfg.capacity, input)[0]]
    ensures !cfg.debugBreak ==> |s.batches| == |input| / cfg.capacity + 1
    ensures !cfg.debugBreak ==> s.emitted == input
    ensures cfg.debugBreak ==> s.emitted == input[..LoadCount(cfg.capacity, |input|)]
  {
    ChunksPartition(cfg.capacity, input);
    ChunksCount(cfg.capacity, input);
    FirstChunk(cfg.capacity, input);
    ConcatAppend([], Chunks(cfg.capacity, input)[0]);
    assert [] + [Chunks(cfg.capacity, input)[0]] == [Chunks(cfg.capacity, input)[0]];
  }

  /**
   * The serial path from `init_db` to `free_db`: the single batch is
   * allocated once and freed once, `free_db_tmp` runs once per turn, and
   * the output is the whole input in order (without `--debug-break`, in
   * floor(N / C) + 1 turns) or its first batch (with it).
   */
  function RunSerial<R>(cfg: Config, input: seq<R>): (r: Serial<R>)
    requires cfg.capacity >= 1
    ensures r.dbAllocs == 1 && r.dbFrees == 1
    ensures r.tmpFrees == |r.batches|
    ensures !cfg.debugBreak ==> r.batches == Chunks(cfg.capacity, input)
    ensures !cfg.debugBreak ==> |r.batches| == |input| / cfg.capacity + 1
    ensures !cfg.debugBreak ==> r.emitted == input
    ensures cfg.debugBreak ==> r.batches == [Chunks(cfg.capacity, input)[0]]
    ensures cfg.debugBreak ==> r.emitted == input[..LoadCount(cfg.capacity, |input|)]
  {
    var start := Serial(cfg.capacity, 0, [], [], 0, 1, 0);
    assert input[0..] == input;
    var s := Loop(cfg, input, start);
    LoopOutcome(cfg, input, s);
    s.(dbFrees := s.dbFrees + 1)
  }

}
