/**
 * Command-line handling of `meth_main`: the getopt loop that fills opt_t
 * and the file names, the fatal checks on the batch size and thread count,
 * and the decision to print the usage text and exit.
 *
 * getopt_long and atoi are library calls and stay abstract: the loop is
 * fed the sequence of options getopt_long returned, with numeric
 * arguments already converted.
 */
module Options {
  import opened Wrappers
  import opened Flags

  datatype ExitStatus = ExitSuccess | ExitFailure

  /** The fields of opt_t that the option loop writes. */
  datatype Settings = Settings(
    flag: Word,
    batchSize: int,
    numThread: int,
    verbosity: int,
    minMapq: int,
    modelFile: Option<string>,
    cudaBlockSize: int)

  /** The option record together with the locals of `meth_main` that the
      loop fills: the three input files (NULL until given) and whether the
      help text goes to stdout (`-h`). */
  datatype CommandLine = CommandLine(
    readsFile: Option<string>,
    bamFile: Option<string>,
    genomeFile: Option<string>,
    helpToStdout: bool,
    settings: Settings)

  /** The state before the first option: no files, help to stderr, and the
      defaults of init_opt (which is not part of this model). */
  function Initial(defaults: Settings): CommandLine {
    CommandLine(None, None, None, false, defaults)
  }

  /** One result of getopt_long. Numeric arguments carry atoi's value. */
  datatype Arg =
    | ReadsArg(path: string)                         // -r, --reads
    | BamArg(path: string)                           // -b, --bam
    | GenomeArg(path: string)                        // -g, --genome
    | PrintArg                                       // -p, --print
    | BatchSizeArg(value: int)                       // -K, --batchsize
    | ThreadsArg(value: int)                         // -t, --threads
    | VerboseArg(value: int)                         // -v
    | VersionArg                                     // -V, --version
    | HelpArg                                        // -h, --help
    | LongArg(index: int, text: string, value: int)  // a long-only option (getopt returns 0)
    | UnknownArg                                     // anything else, e.g. '?'

  /** Options that end the program on the spot. */
  predicate Fatal(a: Arg) {
    (a.BatchSizeArg? && a.value < 1) || (a.ThreadsArg? && a.value < 1)
  }

  predicate Terminal(a: Arg) {
    Fatal(a) || a.VersionArg?
  }

  /** The flag a long-only yes/no option controls, by its index in the
      long option table. `--disable-cuda` only has an effect in a CUDA build. */
  function YesNoFlag(index: int, haveCuda: bool): Option<FlagName> {
    if index == 10 then Some(SecondaryYes)
    else if index == 12 then Some(SkipUnreadable)
    else if index == 13 then Some(PrintEvents)
    else if index == 14 then Some(PrintBandedAln)
    else if index == 15 then Some(PrintScaling)
    else if index == 16 then Some(PrintRaw)
    else if index == 17 && haveCuda then Some(DisableCuda)
    else if index == 19 then Some(DebugBreak)
    else None
  }

  /** The bits of the flag word an option may change (none for most). */
  function ArgMask(layout: Layout, haveCuda: bool, a: Arg): Word {
    match a
    case PrintArg => layout(PrintRaw)
    case LongArg(index, _, _) =>
      (match YesNoFlag(index, haveCuda)
       case Some(f) => layout(f)
       case None => {})
    case _ => {}
  }

  /** The loop is either still reading options or has called exit(). */
  datatype Parsed = Continue(cmd: CommandLine) | Exit(status: ExitStatus)

  /**
   * One turn of the getopt loop. A batch size or thread count below one is
   * fatal (EXIT_FAILURE) and `-V` exits with EXIT_SUCCESS; every other
   * option updates at most its own field, and the flag word only in the
   * bits that option owns.
   */
  function ApplyArg(layout: Layout, haveCuda: bool, c: CommandLine, a: Arg): (r: Parsed)
    ensures r.Exit? <==> Terminal(a)
    ensures r.Exit? ==> (r.status == ExitSuccess <==> a.VersionArg?)
    ensures r.Continue? && a.BatchSizeArg? ==> a.value >= 1 && r.cmd.settings.batchSize == a.value
    ensures r.Continue? && !a.BatchSizeArg? ==> r.cmd.settings.batchSize == c.settings.batchSize
    ensures r.Continue? && a.ThreadsArg? ==> a.value >= 1 && r.cmd.settings.numThread == a.value
    ensures r.Continue? && !a.ThreadsArg? ==> r.cmd.settings.numThread == c.settings.numThread
    ensures r.Continue? && a.ReadsArg? ==> r.cmd.readsFile == Some(a.path)
    ensures r.Continue? && !a.ReadsArg? ==> r.cmd.readsFile == c.readsFile
    ensures r.Continue? && a.BamArg? ==> r.cmd.bamFile == Some(a.path)
    ensures r.Continue? && !a.BamArg? ==> r.cmd.bamFile == c.bamFile
    ensures r.Continue? && a.GenomeArg? ==> r.cmd.genomeFile == Some(a.path)
    ensures r.Continue? && !a.GenomeArg? ==> r.cmd.genomeFile == c.genomeFile
    ensures r.Continue? ==> (r.cmd.helpToStdout <==> c.helpToStdout || a.HelpArg?)
  {
    var s := c.settings;
    match a
    case ReadsArg(p) => Continue(c.(readsFile := Some(p)))
    case BamArg(p) => Continue(c.(bamFile := Some(p)))
    case GenomeArg(p) => Continue(c.(genomeFile := Some(p)))
    case PrintArg => Continue(c.(settings := s.(flag := SetBits(s.flag, layout(PrintRaw), true))))
    case BatchSizeArg(n) =>
      if n < 1 then Exit(ExitFailure) else Continue(c.(settings := s.(batchSize := n)))
    case ThreadsArg(n) =>
      if n < 1 then Exit(ExitFailure) else Continue(c.(settings := s.(numThread := n)))
    case VerboseArg(n) => Continue(c.(settings := s.(verbosity := n)))
    case VersionArg => Exit(ExitSuccess)
    case HelpArg => Continue(c.(helpToStdout := true))
    case LongArg(index, text, n) =>
      if index == 9 then Continue(c.(settings := s.(minMapq := n)))
      else if index == 11 then Continue(c.(settings := s.(modelFile := Some(text))))
      else if index == 18 then Continue(c.(settings := s.(cudaBlockSize := n)))
      else
        (match YesNoFlag(index, haveCuda)
         case Some(f) => Continue(c.(settings := s.(flag := YesOrNo(s.flag, layout(f), text, 1))))
         case None => Continue(c))
    case UnknownArg => Continue(c)
  }

  /** The whole getopt loop: options are applied in order until one of them
      exits. */
  function Parse(layout: Layout, haveCuda: bool, c: CommandLine, args: seq<Arg>): Parsed
    decreases |args|
  {
    if |args| == 0 then Continue(c)
    else
      match ApplyArg(layout, haveCuda, c, args[0])
      case Exit(st) => Exit(st)
      case Continue(c') => Parse(layout, haveCuda, c', args[1..])
  }

  /** The flag word after a long yes/no option is `yes_or_no` of the word
      before, with that option's mask and a non-zero `yes_to_set`. */
  lemma LongArgFlag(layout: Layout, haveCuda: bool, c: CommandLine, a: Arg)
    requires a.LongArg? && YesNoFlag(a.index, haveCuda).Some?
    ensures ArgMask(layout, haveCuda, a) == layout(YesNoFlag(a.index, haveCuda).value)
    ensures ApplyArg(layout, haveCuda, c, a).cmd.settings.flag
            == YesOrNo(c.settings.flag, ArgMask(layout, haveCuda, a), a.text, 1)
  {
  }

  /** Options that own no flag leave the flag word alone. */
  lemma OtherArgFlag(layout: Layout, haveCuda: bool, c: CommandLine, a: Arg)
    requires !a.PrintArg? && !(a.LongArg? && YesNoFlag(a.index, haveCuda).Some?)
    requires ApplyArg(layout, haveCuda, c, a).Continue?
    ensures ApplyArg(layout, haveCuda, c, a).cmd.settings.flag == c.settings.flag
  {
  }

  /** `-p` sets the raw-print bit. */
  lemma PrintArgFlag(layout: Layout, haveCuda: bool, c: CommandLine)
    ensures ApplyArg(layout, haveCuda, c, PrintArg).cmd.settings.flag
            == SetBits(c.settings.flag, layout(PrintRaw), true)
  {
  }

  /** The position of the first option that ends the program, if any. */
  function FirstTerminal(args: seq<Arg>): (r: Option<nat>)
    ensures r.None? <==> forall k :: 0 <= k < |args| ==> !Terminal(args[k])
    ensures r.Some? ==> r.value < |args| && Terminal(args[r.value])
    ensures r.Some? ==> forall j :: 0 <= j < r.value ==> !Terminal(args[j])
  {
    if |args| == 0 then None
    else if Terminal(args[0]) then Some(0)
    else
      match FirstTerminal(args[1..])
      case None => None
      case Some(k) => Some(k + 1)
  }

  /** The loop exits exactly when some option is terminal, and then with the
      status of the first such option: success for `-V`, failure for a bad
      batch size or thread count. */
  lemma {:induction false} ParseExitsAtFirstTerminal(layout: Layout, haveCuda: bool, c: CommandLine, args: seq<Arg>)
    ensures Parse(layout, haveCuda, c, args).Exit? <==> FirstTerminal(args).Some?
    ensures FirstTerminal(args).Some? ==>
              Parse(layout, haveCuda, c, args).status
              == (if args[FirstTerminal(args).value].VersionArg? then ExitSuccess else ExitFailure)
    decreases |args|
  {
    if |args| > 0 && !Terminal(args[0]) {
      var c' := ApplyArg(layout, haveCuda, c, args[0]).cmd;
      ParseExitsAtFirstTerminal(layout, haveCuda, c', args[1..]);
      match FirstTerminal(args[1..])
      case None =>
      case Some(k) => assert args[1..][k] == args[k + 1];
    }
  }

  /** A batch size or thread count below one that is not preceded by `-V`
      ends the program with EXIT_FAILURE. */
  lemma BadLimitFails(layout: Layout, haveCuda: bool, c: CommandLine, args: seq<Arg>, k: nat)
    requires k < |args| && Fatal(args[k])
    requires forall j :: 0 <= j < k ==> !args[j].VersionArg?
    ensures Parse(layout, haveCuda, c, args) == Exit(ExitFailure)
  {
    ParseExitsAtFirstTerminal(layout, haveCuda, c, args);
    var first := FirstTerminal(args);
    assert first.Some?;
    assert first.value <= k;
  }

  /** Some option of `args` satisfies `p`. */
  predicate Occurs(args: seq<Arg>, p: Arg -> bool) {
    exists k :: 0 <= k < |args| && p(args[k])
  }

  lemma OccursSplit(args: seq<Arg>, p: Arg -> bool)
    requires |args| > 0
    ensures Occurs(args, p) <==> p(args[0]) || Occurs(args[1..], p)
  {
    if Occurs(args, p) && !p(args[0]) {
      var k :| 0 <= k < |args| && p(args[k]);
      assert args[1..][k - 1] == args[k];
    }
    if Occurs(args[1..], p) {
      var k :| 0 <= k < |args[1..]| && p(args[1..][k]);
      assert args[k + 1] == args[1..][k];
    }
  }

  /** When the loop runs to the end, a file name is set exactly when it was
      set before or an option gave it, and likewise for `-h`; limits that
      were valid stay valid. */
  lemma {:induction false} ParseRecordsInputs(layout: Layout, haveCuda: bool, c: CommandLine, args: seq<Arg>)
    requires Parse(layout, haveCuda, c, args).Continue?
    ensures var d := Parse(layout, haveCuda, c, args).cmd;
      && (d.readsFile.Some? <==> c.readsFile.Some? || Occurs(args, (a: Arg) => a.ReadsArg?))
      && (d.bamFile.Some? <==> c.bamFile.Some? || Occurs(args, (a: Arg) => a.BamArg?))
      && (d.genomeFile.Some? <==> c.genomeFile.Some? || Occurs(args, (a: Arg) => a.GenomeArg?))
      && (d.helpToStdout <==> c.helpToStdout || Occurs(args, (a: Arg) => a.HelpArg?))
      && (c.settings.batchSize >= 1 ==> d.settings.batchSize >= 1)
      && (c.settings.numThread >= 1 ==> d.settings.numThread >= 1)
    decreases |args|
  {
    if |args| > 0 {
      var c' := ApplyArg(layout, haveCuda, c, args[0]).cmd;
      ParseRecordsInputs(layout, haveCuda, c', args[1..]);
      OccursSplit(args, (a: Arg) => a.ReadsArg?);
      OccursSplit(args, (a: Arg) => a.BamArg?);
      OccursSplit(args, (a: Arg) => a.GenomeArg?);
      OccursSplit(args, (a: Arg) => a.HelpArg?);
    }
  }

  /** What `meth_main` does before the pipeline starts. */
  datatype Outcome =
    | Launch(cmd: CommandLine)                         // init_core and run the batches
    | Stop(status: ExitStatus, usagePrinted: bool)     // exit() before any batch

  /**
   * The check after the option loop: the usage text is printed when any of
   * the reads, bam or genome file is missing or `-h` was given, and the
   * program then exits with success exactly when `-h` was given.
   */
  function CheckInputs(c: CommandLine): (o: Outcome)
    ensures o.Launch? ==> o.cmd == c && c.readsFile.Some? && c.bamFile.Some? && c.genomeFile.Some? && !c.helpToStdout
    ensures o.Stop? ==> o.usagePrinted && (o.status == ExitSuccess <==> c.helpToStdout)
    ensures o.Stop? <==> c.readsFile.None? || c.bamFile.None? || c.genomeFile.None? || c.helpToStdout
  {
    if c.readsFile.None? || c.bamFile.None? || c.genomeFile.None? || c.helpToStdout then
      Stop(if c.helpToStdout then ExitSuccess else ExitFailure, true)
    else Launch(c)
  }

  /** Option loop followed by the usage check. */
  function Startup(layout: Layout, haveCuda: bool, defaults: Settings, args: seq<Arg>): Outcome {
    match Parse(layout, haveCuda, Initial(defaults), args)
    case Exit(st) => Stop(st, false)
    case Continue(c) => CheckInputs(c)
  }

  /**
   * Startup in terms of the command line: without a terminal option, the
   * program stops with the usage text exactly when a file option is missing
   * or `-h` is present, and that exit is a success exactly when `-h` is
   * present. When it launches, the batch size and thread count are at least
   * one, provided the defaults were.
   */
  lemma StartupDecision(layout: Layout, haveCuda: bool, defaults: Settings, args: seq<Arg>)
    ensures var o := Startup(layout, haveCuda, defaults, args);
      && (Occurs(args, Terminal) ==> o.Stop? && !o.usagePrinted)
      && (!Occurs(args, Terminal) ==>
            && (o.Stop? <==>
                  || !Occurs(args, (a: Arg) => a.ReadsArg?)
                  || !Occurs(args, (a: Arg) => a.BamArg?)
                  || !Occurs(args, (a: Arg) => a.GenomeArg?)
                  || Occurs(args, (a: Arg) => a.HelpArg?))
            && (o.Stop? ==> o.usagePrinted && (o.status == ExitSuccess <==> Occurs(args, (a: Arg) => a.HelpArg?))))
      && (o.Launch? && defaults.batchSize >= 1 ==> o.cmd.settings.batchSize >= 1)
      && (o.Launch? && defaults.numThread >= 1 ==> o.cmd.settings.numThread >= 1)
  {
    var c := Initial(defaults);
    ParseExitsAtFirstTerminal(layout, haveCuda, c, args);
    if Occurs(args, Terminal) {
      var k :| 0 <= k < |args| && Terminal(args[k]);
      assert FirstTerminal(args).Some?;
    } else {
      assert FirstTerminal(args).None?;
      ParseRecordsInputs(layout, haveCuda, c, args);
    }
  }

  /** The value an option gives a setting, if it is an option for it. */
  function BatchSizeGiven(a: Arg): Option<int> {
    if a.BatchSizeArg? then Some(a.value) else None
  }

  function ThreadsGiven(a: Arg): Option<int> {
    if a.ThreadsArg? then Some(a.value) else None
  }

  function ReadsGiven(a: Arg): Option<Option<string>> {
    if a.ReadsArg? then Some(Some(a.path)) else None
  }

  function BamGiven(a: Arg): Option<Option<string>> {
    if a.BamArg? then Some(Some(a.path)) else None
  }

  function GenomeGiven(a: Arg): Option<Option<string>> {
    if a.GenomeArg? then Some(Some(a.path)) else None
  }

  /** `given` if there is one, else `dflt`. */
  function Latest<T>(given: Option<T>, dflt: T): T {
    if given.Some? then given.value else dflt
  }

  /**
   * The value the LAST option of `args` that `pick` recognises gives, or
   * `dflt` when there is none: found by scanning from the end, independently
   * of the option loop, which works from the front.
   */
  function LastGiven<T>(args: seq<Arg>, pick: Arg -> Option<T>, dflt: T): (v: T)
    ensures (forall k :: 0 <= k < |args| ==> pick(args[k]).None?) ==> v == dflt
    decreases |args|
  {
    if |args| == 0 then dflt
    else
      match pick(args[|args| - 1])
      case Some(x) => x
      case None => LastGiven(args[..|args| - 1], pick, dflt)
  }

  /** Peeling off the first option: it becomes the fallback of the rest. */
  lemma {:induction false} LastGivenFront<T>(args: seq<Arg>, pick: Arg -> Option<T>, dflt: T)
    requires |args| > 0
    ensures LastGiven(args, pick, dflt) == LastGiven(args[1..], pick, Latest(pick(args[0]), dflt))
    decreases |args|
  {
    var n := |args|;
    if n > 1 && pick(args[n - 1]).None? {
      var init := args[..n - 1];
      LastGivenFront(init, pick, dflt);
      assert init[1..] == args[1..][..n - 2];
      assert args[1..][n - 2] == args[n - 1];
    } else if n > 1 {
      assert args[1..][n - 2] == args[n - 1];
    }
  }

  /**
   * When the option loop runs to the end, the batch size, the thread count
   * and each file name are those of the last option that sets them, or what
   * they were before when no option does.
   */
  lemma {:induction false} ParseKeepsLastValues(layout: Layout, haveCuda: bool, c: CommandLine, args: seq<Arg>)
    requires Parse(layout, haveCuda, c, args).Continue?
    ensures var d := Parse(layout, haveCuda, c, args).cmd;
      && d.settings.batchSize == LastGiven(args, BatchSizeGiven, c.settings.batchSize)
      && d.settings.numThread == LastGiven(args, ThreadsGiven, c.settings.numThread)
      && d.readsFile == LastGiven(args, ReadsGiven, c.readsFile)
      && d.bamFile == LastGiven(args, BamGiven, c.bamFile)
      && d.genomeFile == LastGiven(args, GenomeGiven, c.genomeFile)
    decreases |args|
  {
    if |args| > 0 {
      var c' := ApplyArg(layout, haveCuda, c, args[0]).cmd;
      ParseKeepsLastValues(layout, haveCuda, c', args[1..]);
      LastGivenFront(args, BatchSizeGiven, c.settings.batchSize);
      LastGivenFront(args, ThreadsGiven, c.settings.numThread);
      LastGivenFront(args, ReadsGiven, c.readsFile);
      LastGivenFront(args, BamGiven, c.bamFile);
      LastGivenFront(args, GenomeGiven, c.genomeFile);
    }
  }

  /**
   * A launched program runs with the batch size and thread count of the
   * last `-K` and `-t` options (or the defaults) and the files of the last
   * `-r`, `-b` and `-g` options.
   */
  lemma LaunchSettings(layout: Layout, haveCuda: bool, defaults: Settings, args: seq<Arg>)
    requires Startup(layout, haveCuda, defaults, args).Launch?
    ensures var cmd := Startup(layout, haveCuda, defaults, args).cmd;
      && cmd.settings.batchSize == LastGiven(args, BatchSizeGiven, defaults.batchSize)
      && cmd.settings.numThread == LastGiven(args, ThreadsGiven, defaults.numThread)
      && cmd.readsFile == LastGiven(args, ReadsGiven, None)
      && cmd.bamFile == LastGiven(args, BamGiven, None)
      && cmd.genomeFile == LastGiven(args, GenomeGiven, None)
      && cmd.readsFile.Some? && cmd.bamFile.Some? && cmd.genomeFile.Some?
  {
    ParseKeepsLastValues(layout, haveCuda, Initial(defaults), args);
  }

}
