/**
 * `meth_main` as a whole: the command line decides whether the program
 * stops before any batch or goes on to the batch loop, and the build
 * decides which of the two loops runs. Both loops write the same records.
 */
module MethMain {
  import opened Flags
  import opened Options
  import opened Batches
  import opened SerialRunner
  import opened PipelineProof
  import Pipeline

  /** The build-time switch `IO_PROC_NO_INTERLEAVE`. */
  datatype Mode = SerialMode | InterleavedMode

  /** How a call of `meth_main` ends: an exit before the batch loop, or
      the batches it loaded and the records it wrote, in order. */
  datatype MethMainResult<R> =
    | Stopped(status: ExitStatus, usagePrinted: bool)
    | Completed(batches: seq<seq<R>>, emitted: seq<R>)

  /** The loop configuration the parsed options give: the batch capacity
      is the batch size, and `--debug-break` is the flag word's bit. */
  function LoopConfig(layout: Layout, s: Settings): Config {
    Config(s.batchSize, s.flag * layout(DebugBreak) != {})
  }

  /** Whether the debug-break bit is set in the flag word the option loop
      leaves (`opt.flag & F5C_DEBUG_BRK`). */
  predicate BreaksAfterFirst(layout: Layout, haveCuda: bool, defaults: Settings, args: seq<Arg>) {
    match Parse(layout, haveCuda, Initial(defaults), args)
    case Continue(c) => c.settings.flag * layout(DebugBreak) != {}
    case Exit(_) => false
  }

  /**
   * `meth_main` on a command line and an input of reads. The defaults are
   * those of `init_opt`, whose batch size is positive.
   *
   * A terminal option (`-V`, or a `-K`/`-t` value below one) ends the
   * program without the usage text, with the status of the first such
   * option. Otherwise the program stops, printing the usage text, exactly
   * when `-r`, `-b` or `-g` is missing or `-h` is given, and that exit is a
   * success exactly when `-h` is given. A run that goes on uses the batch
   * size of the last `-K` (or the default) and, in either build, writes the
   * whole input in order as floor(N / C) + 1 batches of the partition, or
   * only the first batch when `--debug-break` is on.
   */
  function MethMainRun<R>(mode: Mode, layout: Layout, haveCuda: bool, defaults: Settings,
                          args: seq<Arg>, input: seq<R>): (r: MethMainResult<R>)
    requires defaults.batchSize >= 1
    ensures FirstTerminal(args).Some? ==>
              r == Stopped(if args[FirstTerminal(args).value].VersionArg? then ExitSuccess else ExitFailure, false)
    ensures FirstTerminal(args).None? ==>
              (r.Stopped? <==>
                 || !Occurs(args, (a: Arg) => a.ReadsArg?)
                 || !Occurs(args, (a: Arg) => a.BamArg?)
                 || !Occurs(args, (a: Arg) => a.GenomeArg?)
                 || Occurs(args, (a: Arg) => a.HelpArg?))
    ensures FirstTerminal(args).None? && r.Stopped? ==>
              r.usagePrinted && (r.status == ExitSuccess <==> Occurs(args, (a: Arg) => a.HelpArg?))
    ensures r.Completed? ==>
              var cap := LastGiven(args, BatchSizeGiven, defaults.batchSize);
              && cap >= 1
              && (!BreaksAfterFirst(layout, haveCuda, defaults, args) ==>
                    && r.batches == Chunks(cap, input)
                    && |r.batches| == |input| / cap + 1
                    && r.emitted == input)
              && (BreaksAfterFirst(layout, haveCuda, defaults, args) ==>
                    && r.batches == [Chunks(cap, input)[0]]
                    && r.emitted == input[..LoadCount(cap, |input|)])
  {
    StartupDecision(layout, haveCuda, defaults, args);
    ParseExitsAtFirstTerminal(layout, haveCuda, Initial(defaults), args);
    match Startup(layout, haveCuda, defaults, args)
    case Stop(st, usage) => Stopped(st, usage)
    case Launch(cmd) =>
      LaunchSettings(layout, haveCuda, defaults, args);
      var cfg := LoopConfig(layout, cmd.settings);
      if mode == SerialMode then
        var s := RunSerial(cfg, input);
        Completed(s.batches, s.emitted)
      else
        var m := Interleaved(cfg, input);
        Completed(m.batches, m.emitted)
  }

  /**
   * A command line that launches the batch loop: its capacity is the last
   * `-K` value (or the default) and at least one, and in either build the
   * whole input is written (or just its first batch with `--debug-break`).
   */
  lemma LaunchedOutput<R>(mode: Mode, layout: Layout, haveCuda: bool, defaults: Settings,
                          args: seq<Arg>, input: seq<R>)
    requires defaults.batchSize >= 1
    requires Startup(layout, haveCuda, defaults, args).Launch?
    ensures var cmd := Startup(layout, haveCuda, defaults, args).cmd;
      var cfg := LoopConfig(layout, cmd.settings);
      var r := MethMainRun(mode, layout, haveCuda, defaults, args, input);
      && cfg.capacity == LastGiven(args, BatchSizeGiven, defaults.batchSize)
      && cfg.capacity >= 1
      && (cfg.debugBreak <==> BreaksAfterFirst(layout, haveCuda, defaults, args))
      && r.Completed?
      && (!cfg.debugBreak ==> r.emitted == input && r.batches == Chunks(cfg.capacity, input)
                              && |r.batches| == |input| / cfg.capacity + 1)
      && (cfg.debugBreak ==> r.emitted == input[..LoadCount(cfg.capacity, |input|)] && |r.batches| == 1)
  {
    StartupDecision(layout, haveCuda, defaults, args);
    LaunchSettings(layout, haveCuda, defaults, args);
  }

  /** The serial and the interleaved builds load the same batches and write
      the same records, on every command line and input. */
  lemma ModesAgree<R>(layout: Layout, haveCuda: bool, defaults: Settings, args: seq<Arg>, input: seq<R>)
    requires defaults.batchSize >= 1
    ensures MethMainRun(SerialMode, layout, haveCuda, defaults, args, input)
         == MethMainRun(InterleavedMode, layout, haveCuda, defaults, args, input)
  {
    StartupDecision(layout, haveCuda, defaults, args);
    var o := Startup(layout, haveCuda, defaults, args);
    if o.Launch? {
      var cfg := LoopConfig(layout, o.cmd.settings);
      var s := RunSerial(cfg, input);
      var m := Interleaved(cfg, input);
      if cfg.debugBreak {
        FirstChunk(cfg.capacity, input);
        assert s.batches == [s.batches[0]];
        assert s.batches[0] == Concat(s.batches) by {
          ConcatAppend([], s.batches[0]);
          assert [] + [s.batches[0]] == s.batches;
        }
      }
    }
  }

  /** Ten reads with a batch size of four: three batches of 4, 4 and 2. */
  lemma TenReadsInBatchesOfFour(input: seq<int>)
    requires |input| == 10
    ensures var cfg := Config(4, false);
      var s := RunSerial(cfg, input);
      |s.batches| == 3 && |s.batches[0]| == 4 && |s.batches[1]| == 4 && |s.batches[2]| == 2
  {
    var rest := input[4..];
    assert Chunks(4, input) == [input[..4]] + Chunks(4, rest);
    assert Chunks(4, rest) == [rest[..4]] + Chunks(4, rest[4..]);
    assert Chunks(4, rest[4..]) == [rest[4..]];
  }

  /** An input with no reads still runs the loop body once, on an empty
      batch, in both builds, and writes nothing. */
  lemma EmptyInputOneTurn(cfg: Config)
    requires cfg.capacity >= 1
    ensures RunSerial<int>(cfg, []).batches == [[]]
    ensures Interleaved<int>(cfg, []).batches == [[]]
    ensures Interleaved<int>(cfg, []).spawned == [Pipeline.Process(0), Pipeline.PostProcess(0)]
  {
    ScheduleOrdered(1);
  }

}
