# f5c `call-methylation` driver, modelled in Dafny

This project models `meth_main`, the entry point of f5c's
`call-methylation` command (`src/meth_main.c`). The model covers three
parts of that function:

- **Command-line handling.** The `getopt_long` loop applies each option to
  the option record `opt_t` and to the three input-file names. Options
  include the yes/no long options that go through `yes_or_no`, the fatal
  checks on `-K` and `-t`, and `-V`. The usage check then decides whether
  the program exits before any work, and with which status.
- **The serial batch loop** (the `IO_PROC_NO_INTERLEAVE` build). Each turn
  loads a batch of at most `batch_size` reads, processes it, writes it
  out, and frees its temporaries. The loop keeps going while the last load
  was full, or stops after one batch with `--debug-break`.
- **The interleaved batch loop** (the default build). It is a state
  machine of the main thread, with one state per statement. Each iteration
  loads a batch, joins the previous processing thread and launches a new
  one, then joins the previous post-processing thread and launches a new
  one. The threads themselves are modelled by their effects, which take
  place when they are joined: processing a batch, or writing it and
  freeing it with its argument block. Ghost sets of outstanding threads,
  allocated batches and argument blocks let the proofs state that:
  - every `pthread_join` is legal;
  - at most one thread per stage and at most two batches are outstanding;
  - threads are launched in batch order;
  - the loop ends with everything joined and freed once;
  - the output is the whole input, in order.

`load_db` is modelled by what it returns: the next `min(capacity, remaining)`
reads of the input. The loop partition is compared with an independent
reference, `Batches.Chunks`. With N reads and capacity C, both builds run
floor(N / C) + 1 iterations: the last batch is short, and it is empty when
C divides N. Both builds write the same records.

Files (one module each):

- `wrappers.dfy`: `Option`.
- `flags.dfy`: the flag word and `yes_or_no`.
- `options.dfy`: option parsing and the usage check.
- `batches.dfy`: `load_db`'s count, the reference partition, and the loop
  measure.
- `serial.dfy`: the serial loop.
- `pipeline.dfy`: the interleaved main thread's statements.
- `pipeline_proof.dfy`: the interleaved loop's invariant and results.
- `meth_main.dfy`: the whole function, and the agreement of the two builds.

The 64-bit flag word of `opt_t` is represented by the set of positions
of its 1 bits, so `|=`, `&= ~` and `&` become union, difference and
intersection. The flag bit values (`F5C_SECONDARY_YES` and the rest) are
defined in a header that is not part of this model. They enter as a
parameter `layout: FlagName -> Word`. `init_opt` is not part of this model either,
so its defaults enter as a parameter.

## Model

| member | source | states |
|---|---|---|
| Flags.SetBits | src/meth_main.c:83-85 | setting or clearing a flag: the bits under the mask become all set or all clear, and the bits outside the mask keep their value |
| Flags.YesOrNo | src/meth_main.c:77-100 | an argument other than yes/y/no/n leaves every bit unchanged (only a warning is printed); otherwise the masked bits are set exactly when the answer agrees with `yes_to_set`; bits outside the mask never change |
| Flags.YesOrNoUnrecognised | src/meth_main.c:86-89 | an unrecognised argument leaves the whole flag word unchanged |
| Flags.YesOrNoIdempotent | src/meth_main.c:77-100 | giving the same yes/no option twice has the same effect as giving it once |
| Flags.YesOrNoLastWins | src/meth_main.c:77-100 | a later recognised answer for the same flag overrides any earlier one |
| Flags.YesOrNoPolarityYes | src/meth_main.c:90-93 | with a zero `yes_to_set`, "yes" clears the flag, as "no" does with a non-zero one |
| Flags.YesOrNoPolarityNo | src/meth_main.c:93-95 | with a zero `yes_to_set`, "no" sets the flag, as "yes" does with a non-zero one |
| Flags.YesOrNoCommute | src/meth_main.c:77-100 | yes/no options that own disjoint bits can be given in either order with the same result |
| Options.ApplyArg | src/meth_main.c:173-235 | one option: the program exits exactly on `-V` (success) or on a `-K`/`-t` value below one (failure); otherwise `-K n` and `-t n` store `n` (at least one), `-r`/`-b`/`-g` store the path given, `-h` sends the help text to stdout, and every other option leaves these settings as they were |
| Options.LongArgFlag | src/meth_main.c:207-234 | long options 10, 12-16, 19 (and 17 only when built for CUDA) apply `yes_or_no` to their own flag, with `yes_to_set` 1 |
| Options.PrintArgFlag | src/meth_main.c:181-182 | `-p` sets the raw-print bit and leaves every other bit alone |
| Options.OtherArgFlag | src/meth_main.c:173-235 | every option that owns no flag bit leaves the flag word unchanged, including `--disable-cuda` in a CPU build, which only prints a warning |
| Options.ParseExitsAtFirstTerminal | src/meth_main.c:173-235 | the option loop exits exactly when some option is terminal, with the status of the first such option: success for `-V`, failure for a bad limit |
| Options.BadLimitFails | src/meth_main.c:183-196 | a batch size or thread count below one, with no `-V` before it, ends the program with EXIT_FAILURE |
| Options.ParseRecordsInputs | src/meth_main.c:173-235 | after the whole loop, each file name is set exactly when its option occurs, `-h` likewise, and valid limits stay valid |
| Options.ParseKeepsLastValues | src/meth_main.c:173-196 | after the whole loop, the batch size, the thread count and each file name are those of the last option that sets them (found by an independent scan from the end), or their previous value when none does |
| Options.LaunchSettings | src/meth_main.c:173-292 | a launched program has all three files, from the last `-r`, `-b` and `-g`, and the batch size and thread count of the last `-K` and `-t`, or the `init_opt` defaults |
| Options.CheckInputs | src/meth_main.c:237-289 | the usage text is printed and the program exits exactly when a file is missing or `-h` was given; that exit is a success exactly when `-h` was given; otherwise it goes on with the parsed options |
| Options.StartupDecision | src/meth_main.c:173-289 | over the whole command line: a terminal option stops without usage; otherwise the program stops exactly when `-r`, `-b` or `-g` is absent or `-h` is present, succeeding exactly on `-h`; a launch has batch size and thread count at least one |
| Batches.LoadCount | src/meth_main.c:341-344 | a load returns at most the batch capacity and at most what remains, and is short only when the input is exhausted |
| Batches.ChunksPartition | src/meth_main.c:304-305 | the reference partition is non-empty, concatenates back to the input, and has every batch full except a short last one |
| Batches.ChunksCount | src/meth_main.c:341 | the loop `while (status >= batch_size)` yields floor(N / C) + 1 batches |
| Batches.LoadStep | src/meth_main.c:341-344 | each load appends the next batch of the reference partition and advances the input by the count returned |
| SerialRunner.Loop | src/meth_main.c:304-328 | from any loop test: the output is the loaded batches in order, one `free_db_tmp` per batch, and the batches are the partition (or its first batch after `--debug-break`) |
| SerialRunner.RunSerial | src/meth_main.c:298-331 | one `init_db` and one `free_db`; without `--debug-break` the batches are the partition, floor(N / C) + 1 of them, and the output is the whole input in order; with it, exactly one batch is read and written |
| PipelineProof.StartInv | src/meth_main.c:335-339 | before the loop (status = batch_size, both first-flags clear) the invariant holds |
| PipelineProof.InvEnabled | src/meth_main.c:350-387 | every `pthread_join` targets a launched, unjoined thread; the post-processor being joined finds its batch processed, allocated and owning its argument block |
| PipelineProof.StepPreservesInv | src/meth_main.c:341-419 | every statement of the main thread keeps the invariant |
| PipelineProof.StepDecreases | src/meth_main.c:341-403 | each statement either loads or moves closer to the next load, and a load that is full consumes input, so the loop ends |
| PipelineProof.Run | src/meth_main.c:341-419 | from any state satisfying the invariant, the main thread reaches the end of the function and the invariant holds there |
| PipelineProof.InvProgress | src/meth_main.c:350-392 | batches are processed and freed in allocation order, a batch is freed only after it was processed, and at most two allocated batches are not yet freed |
| PipelineProof.InvTasks | src/meth_main.c:350-392 | at most one processing and at most one post-processing thread are outstanding, and every argument block belongs to a live batch |
| PipelineProof.AlwaysBounded | src/meth_main.c:341-419 | after any number of statements: at most one thread per stage, at most two live batches, argument blocks only for live batches, and the freed batches a prefix of the processed ones |
| PipelineProof.ScheduleOrdered | src/meth_main.c:369-392 | threads are launched in batch order; for each batch its processing thread comes immediately before its post-processing thread |
| PipelineProof.Finished | src/meth_main.c:405-419 | after the final joins: no thread outstanding, nothing live, every batch processed and freed exactly once in order, and the output as the loop promises |
| PipelineProof.Interleaved | src/meth_main.c:333-419 | the interleaved build ends with every thread joined and every batch and argument block freed; without `--debug-break` the batches are the partition, floor(N / C) + 1 of them, and the output is the whole input in order; with it, exactly the first batch |
| MethMain.MethMainRun | src/meth_main.c:154-419 | a terminal option stops without usage, with the first such option's status; otherwise the program stops with the usage text exactly when `-r`, `-b` or `-g` is missing or `-h` is given, succeeding exactly on `-h`; a run that goes on uses the last `-K` (or the default, at least one) as capacity and, in either build, writes the whole input as floor(N / C) + 1 batches of the partition, or only the first batch when the debug-break bit is set |
| MethMain.LaunchedOutput | src/meth_main.c:291-419 | on a command line that launches, the loop capacity is the last `-K` value (or the default) and at least one, the debug break is on exactly when its bit is set after the option loop, and either build writes the whole input (or just its first batch with `--debug-break`) |
| MethMain.ModesAgree | src/meth_main.c:298-419 | the serial and the interleaved builds give the same outcome, batches and output on every command line and input |
| MethMain.TenReadsInBatchesOfFour | src/meth_main.c:341-344 | ten reads with batch size four are loaded as batches of 4, 4 and 2 |
| MethMain.EmptyInputOneTurn | src/meth_main.c:304-341 | an input with no reads still runs the loop body once on an empty batch, launching one processing and one post-processing thread |

## Left out

- The mutex/condition-variable handshake (lines 117-119 and 137-139) is
  not modelled. A post-processing thread is taken to write its batch only
  after the processing thread has finished; in the model this holds
  because effects happen at join time. The code does not guarantee it.
  `pthread_cond_signal` can run before the post-processor reaches
  `pthread_cond_wait`, and no predicate variable is checked, so that
  wake-up can be lost and the post-processor would then wait forever. The
  condition and mutex also live in the argument block that the
  post-processor frees. This hazard is named here and not verified.
- `load_db`, `process_db`, `output_db`, `init_db`, `free_db_tmp`,
  `free_db`, `init_core` and `init_opt` are not part of this model.
  `load_db` is modelled by its count; the others are modelled by their
  effects on the batch bookkeeping.
- `mm_parse_num` and the `getopt_long` mechanics (argument permutation,
  abbreviations, unknown options) are not modelled. Options arrive already
  split, with `atoi` already applied.
- `--verbose` is declared `no_argument` (line 36), yet its handler calls
  `atoi(optarg)` (line 198), where `optarg` is then NULL. The model treats
  `-v` as always carrying a number, as the short form `v:` does.
- Output to stderr, the timing calls, the verbosity-gated messages,
  `NEG_CHK` on failing `pthread_create`/`pthread_join`, and `malloc`
  failure are left out. They are I/O, or errors from the C runtime.
- The serial build tests `db->capacity_bam_rec` (line 304); the model
  assumes it equals `opt.batch_size`, which the interleaved build tests.
- The interleaved loop tests `core->opt.batch_size` (lines 335, 341) but
  reads the debug-break bit from the local `opt.flag` (line 400). The model
  uses one set of settings for both, which assumes `init_core` copies
  `opt` unchanged; `init_core` is not part of this model.
- Options.ApplyArg: its contract does not state that the flag word
  outside the option's mask is unchanged. That frame is stated per kind of
  option by Options.LongArgFlag, Options.PrintArgFlag and
  Options.OtherArgFlag, together with Flags.YesOrNo. It also does not
  state the values stored by `-v`, `--min-mapq`, `--kmer-model` and
  `--cuda-block-size` (lines 197-198, 204-206, 210-211, 228-230), which the
  batch loops do not read.
- An empty input gives one iteration, not zero: the code runs the loop body once with an empty batch (the
  first test compares `batch_size` with itself). The model follows the
  code; see MethMain.EmptyInputOneTurn.
- `p7_FLogsumInit` and the post-run summary are not modelled.
