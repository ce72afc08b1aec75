# libpmf training driver: command line and dispatch

This project models the driver of libpmf's `omp-pmf-train` program
(`libpmf-1.6/pmf-train.cpp`) and proves properties of it. The driver reads a
command line of the form `[options] data_dir weight_dir output_folder [model_name]`,
fills a training-parameter record, builds the model path, and hands the run to
one of three runners: CCDR1, ALS or SGD. Each runner opens its two output files
and calls at most one solver.

The model has five modules:

- `Results` (`results.dfy`): the `Option` and `Result` values. An `Err` stands
  for the program's `exit_with_help`.
- `CText` (`ctext.dfy`): the C library pieces the driver relies on.
  - `atoi`: white space, an optional sign, then decimal digits, over unbounded
    integers.
  - `sprintf("%d")`.
  - `strrchr`.
  - The in-place loop that overwrites trailing `/` with NUL, written as a method
    over a NUL-terminated `array<char>`.
- `Params` (`params.dfy`):
  - The parameter record.
  - The two process-wide variables `file_fmt` and `do_shuffle`, kept as fields
    of `Config`.
  - The option switch `SetOption`.
  - An independent table (`Assigns`, `Converted`, `Get`) stating which settings
    each letter assigns. `SetOptionSettings` and `ApplyAllSettings` tie that
    table to the switch and to runs of options.
- `CommandLine` (`commandline.dfy`): `parse_command_line`.
  - The option loop as a function (`ScanOptions`) and as the imperative loop the
    program runs (`ParseArgs`). `ParseArgs` is proved equal to the function.
  - The post-processing.
  - The positionals and the default model name.
  - General scanning lemmas over any stretch of option tokens (`OptionsBetween`
    reads a stretch back as options). Line 65 reads only the second character of
    an option token, so `-solver 1` acts as `-s 1`, and these lemmas cover such
    tokens too (`ScanOptionPairs` and its corollaries).
  - A function `RenderOptions` that writes options as `-` and one letter. The
    `…Rendered` lemmas restate the general ones for that form only.
- `Driver` (`driver.dfy`): `main` and the three runners.
  - A run is a finite sequence of `Action`s: making the directory, opening
    files, reading data, allocating the model, shuffling, calling a solver,
    saving, and reporting a wrong solver type.
  - `Program` gives the actions and the exit status.
  - `Train` is `main` as a method: parse, join the folder and the model name,
    switch on the type.

The file format is fixed: `TXT` is 0, the value the usage text gives as the
default plain-text format (lines 47-48).

Inputs the file does not define are parameters:

- The default values of the parameter record come from `pmf_parameter_t`'s
  constructor in `pmf.h`, so they are the `init` argument.
- The integer values of the solver-type enumerators are also in `pmf.h`, so
  they are a `SolverCodes` argument.
  - The usage text lists 0, 1, 2, 9, 10, 11, 12 and 22 for eight of the nine.
    `PU_CCDR1_SPEEDUP` is not listed.
  - Because `main` uses all nine as `case` labels of one `switch`, C requires
    them to be distinct. `Distinct(codes)` states that.

Two unchecked accesses in the code are preconditions (`PositionalsPresent`).
Each one excludes only inputs on which the program reads past the end of
`argv` or past the front of a string. A third quirk is modelled as it behaves:

- The count-file and output-folder positionals are read without checking that
  they exist (lines 177-183). A command line with one or two positionals
  therefore has no defined behaviour.
- With no fourth positional, the loop that strips trailing `/` walks backwards
  without a bound (lines 189-191). It therefore needs a folder name holding
  some character other than `/`.
- The stripping happens after the folder name is copied (line 183), so the
  output folder keeps its trailing slashes in the model prefix. This is no
  precondition: the model and `PrefixOfParse` state the behaviour.

## Model

| member | source | states |
|---|---|---|
| CText.Atoi | libpmf-1.6/pmf-train.cpp:68 | atoi: skips C white space, reads an optional sign and the longest run of decimal digits, and gives 0 when no digit follows; its read-back property is AtoiIntToString |
| CText.IntToString | libpmf-1.6/pmf-train.cpp:214 | the %d conversion: a '-' for negative numbers, then the digits without leading zeros; the result starts with '-' or a digit |
| CText.LastIndexOf | libpmf-1.6/pmf-train.cpp:192 | strrchr: the index of the last occurrence of the character, with nothing equal to it after that index, or None when the string holds none |
| CText.AtoiIntToString | libpmf-1.6/pmf-train.cpp:214 | atoi reads back, as the same integer, every number that %d prints |
| CText.IntToStringInjective | libpmf-1.6/pmf-train.cpp:214 | different iteration counts print as different decimal strings |
| CText.TrimTrailingSlashes | libpmf-1.6/pmf-train.cpp:189-191 | the result is the prefix of the name beyond which only '/' remains; it is empty or ends in a non-'/', and it is nonempty whenever the name holds a non-'/' |
| CText.LastComponent | libpmf-1.6/pmf-train.cpp:192-196 | the result is a suffix without '/' that is either the whole string or preceded by a '/' (strrchr's NULL and non-NULL cases) |
| CText.StripTrailingSlashes | libpmf-1.6/pmf-train.cpp:189-191 | the backwards loop leaves buf[..n] equal to the trimmed name, with NUL from n up to the old end and nothing beyond the old end changed |
| Params.InitialConfig | libpmf-1.6/pmf-train.cpp:6-7 | before any option, the record is the default one, the format is TXT and shuffling is on |
| Params.SetOption | libpmf-1.6/pmf-train.cpp:65-166 | an option is accepted exactly when its letter has an arm of the switch |
| Params.SetOptionSettings | libpmf-1.6/pmf-train.cpp:65-162 | a known option sets exactly the settings its letter assigns in the table, each to the atoi/atof conversion of the value, and leaves every other setting unchanged |
| Params.SpecialOptions | libpmf-1.6/pmf-train.cpp:106-150 | -e sets eps and eta0 both to the value and nothing else; -N sets do_nmf exactly when the value reads as 1; -S turns shuffling off exactly when the value reads as 0 |
| Params.ApplyAll | libpmf-1.6/pmf-train.cpp:60-166 | the switch applied to a run of options in order, failing at the first unknown letter; its properties are ApplyAllDefined and ApplyAllSettings |
| Params.ApplyAllDefined | libpmf-1.6/pmf-train.cpp:60-166 | a run of options goes through exactly when every letter is known |
| Params.ApplyAllSettings | libpmf-1.6/pmf-train.cpp:60-162 | after a run of options, each setting holds the conversion of the last option that assigns it, so a repeated option overwrites the earlier one; a setting no option assigns keeps its default |
| CommandLine.OptionLetter | libpmf-1.6/pmf-train.cpp:65 | the switch reads the second character; for a token of length under 2 that is the NUL, which no arm accepts |
| CommandLine.ScanOptions | libpmf-1.6/pmf-train.cpp:60-168 | the option loop from index i: stop at the end or at a non-option, report an option with no value, otherwise apply the switch and move two tokens on; its shape is stated by ScanShape and ScanOptionsRun |
| CommandLine.ParseCommandLine | libpmf-1.6/pmf-train.cpp:54-200 | parse_command_line: the option loop, the post-processing, the error for a missing positional, then input, count, folder and the model name; stated by PositionalsOfParse, ParseAfterPairs and ParseRendered, and equal to ParseArgs |
| CommandLine.PostProcess | libpmf-1.6/pmf-train.cpp:170-172 | verbose becomes 1 when it was 0 and do_predict is nonzero, and a nonzero verbose is kept, so it is nonzero afterwards iff verbose or do_predict was; k grows by exactly 2 iff glove_bias is nonzero; nothing else changes |
| CommandLine.DefaultModelName | libpmf-1.6/pmf-train.cpp:185-198 | the default model name is longer than ".model", ends in ".model" and holds no '/' |
| CommandLine.DefaultModelNameFromFolder | libpmf-1.6/pmf-train.cpp:188-197 | the part before ".model" is the nonempty last component of the folder name with its trailing '/' removed, and it is a slice of the folder name |
| CommandLine.ParseArgs | libpmf-1.6/pmf-train.cpp:54-200 | the imperative loop (two tokens per option), the positional reads and the in-place slash strip on a copy of the folder argument give exactly ParseCommandLine's result |
| CommandLine.OptionsBetweenRendered | libpmf-1.6/pmf-train.cpp:60-65 | reading rendered option tokens back two at a time gives the options back, and each first token of a pair is an option |
| CommandLine.ScanOptionPairs | libpmf-1.6/pmf-train.cpp:60-168 | scanning any stretch of option tokens (of any length: only the second character is read) with known letters consumes two tokens per option, whatever the value tokens hold, and applies the options in order |
| CommandLine.ScanStopsAfterPairs | libpmf-1.6/pmf-train.cpp:60-65 | after known option pairs from index 1 to e, a scan followed by the end or a non-option stops at e and holds all those options applied |
| CommandLine.MissingValueAfterPairs | libpmf-1.6/pmf-train.cpp:63-64 | after known option pairs, an option token that is the last token is a missing-value error naming that token |
| CommandLine.UnknownOptionAfterPairs | libpmf-1.6/pmf-train.cpp:163-166 | after known option pairs, an option token whose second character has no arm is an error naming that character, whatever follows it |
| CommandLine.NoPositionalAfterPairs | libpmf-1.6/pmf-train.cpp:174-175 | a command line of known option pairs only is an error |
| CommandLine.ParseAfterPairs | libpmf-1.6/pmf-train.cpp:60-198 | after known option pairs ending at a non-option: the result holds the post-processed settings, input, count and folder in order (folder verbatim), and the fourth token verbatim or the default name |
| CommandLine.ScanOptionsRun | libpmf-1.6/pmf-train.cpp:60-168 | the same for options written as "-" and one letter: a rendered run of known options consumes two tokens per option and applies them in order |
| CommandLine.ScanRendered | libpmf-1.6/pmf-train.cpp:60-65 | for options written as "-" and one letter: options followed by a non-option token or by nothing: scanning starts at 1, stops at 1 + 2 × (number of options), and holds all options applied |
| CommandLine.MissingValueRendered | libpmf-1.6/pmf-train.cpp:63-64 | for options written as "-" and one letter: an option token that is the last token is an error, whatever known options come before it |
| CommandLine.UnknownOptionRendered | libpmf-1.6/pmf-train.cpp:163-166 | for options written as "-" and one letter: after known options, an option whose second character has no arm is an error naming that character, whatever follows it |
| CommandLine.NoPositionalRendered | libpmf-1.6/pmf-train.cpp:174-175 | for options written as "-" and one letter: a command line of options only is an error |
| CommandLine.ParseRendered | libpmf-1.6/pmf-train.cpp:60-198 | for options written as "-" and one letter: for known options, then input, count and folder, then an optional model name: the result holds the post-processed settings, the three positionals in order, the fourth verbatim or the default name, and the folder verbatim |
| CommandLine.ScanShape | libpmf-1.6/pmf-train.cpp:60-168 | every successful scan stops at an odd index 1 + 2n that is the end or a non-option; every first token of a pair before it is an option; the settings are those of the n options it read, applied in order |
| CommandLine.PositionalsOfParse | libpmf-1.6/pmf-train.cpp:177-198 | a successful parse takes input, count and folder from the three tokens after the options, the model name from the fourth when present, and otherwise from the folder |
| Driver.RunnerOf | libpmf-1.6/pmf-train.cpp:427-442 | main's case groups: CCDR1, CCDR1_SPEEDUP, PU_CCDR1_SPEEDUP and PU_CCDR1 to run_ccdr1; ALS and PU_ALS to run_als; SGD, PU_SGD and PU_SGD_ORIG to run_sgd |
| Driver.Dispatch | libpmf-1.6/pmf-train.cpp:427-446 | main's switch: a value with no case label is reported, any other goes to its group's runner with the joined model path; stated by DispatchTrace |
| Driver.Program | libpmf-1.6/pmf-train.cpp:416-448 | the whole program: status 1 and no actions on a parse error, otherwise mkdir of the folder, the switch, and status 0; stated by ProgramStatus, WrongSolverType and ProgramRun |
| Driver.Ccdr1FileNames | libpmf-1.6/pmf-train.cpp:214-221 | the two sprintf formats of run_ccdr1: prefix.iter<maxiter>.final.words and prefix.iter<maxiter>.final.contexts |
| Driver.FactorFileNames | libpmf-1.6/pmf-train.cpp:293-301 | the two sprintf formats of run_als and run_sgd (also 355 and 363): prefix.W and prefix.H |
| Driver.Ccdr1Calls | libpmf-1.6/pmf-train.cpp:266-272 | run_ccdr1's calls: an if/else-if chain for CCDR1 and CCDR1_SPEEDUP, then a separate if for PU_CCDR1; the result per solver type is stated by RunnerCalls |
| Driver.AlsCalls | libpmf-1.6/pmf-train.cpp:330-333 | run_als's calls: als for ALS, else als_pu for PU_ALS; stated by RunnerCalls |
| Driver.SgdCalls | libpmf-1.6/pmf-train.cpp:392-395 | run_sgd's calls: sgd for SGD or PU_SGD_ORIG, else sgd_pu for PU_SGD; stated by RunnerCalls |
| Driver.RunCcdr1 | libpmf-1.6/pmf-train.cpp:203-285 | run_ccdr1 in order: open the outputs, read the data (and counts and weights with GloVe weighting), allocate a column-major model, shuffle, solve, unshuffle and save with the bias setting, close; stated by RunCcdr1Trace |
| Driver.RunAls | libpmf-1.6/pmf-train.cpp:287-344 | run_als in order: open the outputs, read the data, allocate a row-major model, shuffle, solve, unshuffle, save, close; stated by RunAlsTrace |
| Driver.RunSgd | libpmf-1.6/pmf-train.cpp:346-406 | run_sgd in order, as run_als but reading blocks in the reader's default format; stated by RunSgdTrace |
| Driver.Classify | libpmf-1.6/pmf-train.cpp:427-446 | a value selects a solver kind only when it equals that kind's code; no selection only when it equals none of them |
| Driver.ClassifyCode | libpmf-1.6/pmf-train.cpp:427-446 | with distinct codes, each solver's own code selects that solver |
| Driver.ModelPrefix | libpmf-1.6/pmf-train.cpp:425-426 | the model prefix is the output folder, exactly one '/', then the model name |
| Driver.PrefixOfParse | libpmf-1.6/pmf-train.cpp:425-426 | the prefix keeps the folder argument verbatim, trailing '/' included; it ends in the fourth positional, or in the folder's last component and ".model" |
| Driver.RunnerCalls | libpmf-1.6/pmf-train.cpp:266-395 | the if chains of run_ccdr1 (266-272), run_als (330-333) and run_sgd (392-395) call the solver the reference table gives for that solver type: PU_CCDR1_SPEEDUP calls none, and PU_SGD_ORIG calls sgd |
| Driver.RunCcdr1Trace | libpmf-1.6/pmf-train.cpp:203-285 | run_ccdr1 opens exactly prefix.iter<maxiter>.final.words and .final.contexts, and calls exactly the solvers its two if chains select |
| Driver.RunAlsTrace | libpmf-1.6/pmf-train.cpp:287-344 | run_als opens exactly prefix.W and prefix.H, and calls exactly the solver its if chain selects |
| Driver.RunSgdTrace | libpmf-1.6/pmf-train.cpp:346-406 | run_sgd opens exactly prefix.W and prefix.H, and calls exactly the solver its if chain selects |
| Driver.DispatchTrace | libpmf-1.6/pmf-train.cpp:427-446 | the switch sends each solver type to its runner, and that runner calls the solvers and opens the files the reference tables give |
| Driver.Train | libpmf-1.6/pmf-train.cpp:416-448 | main as a method (parse, mkdir, write the joined path over the model name, switch) produces exactly the actions and status of Program |
| Driver.ProgramStatus | libpmf-1.6/pmf-train.cpp:416-448 | the status is 1 exactly when the command line does not parse (exit_with_help's exit(1), line 51), in which case nothing is done; otherwise main returns 0 |
| Driver.WrongSolverType | libpmf-1.6/pmf-train.cpp:443-447 | a solver type with no case label makes the folder, reports the type and does nothing else, and the status is still 0 |
| Driver.ProgramRun | libpmf-1.6/pmf-train.cpp:416-448 | for a solver type with a label: status 0, the folder is made first, the solvers called are the table's, and the files opened are the runner's two, named after folder + "/" + model name |
| Driver.ExpectedFilesDiffer | libpmf-1.6/pmf-train.cpp:214-363 | each runner's two output names (214/221, 293/301, 355/363) differ and both begin with the model prefix |
| Driver.Ccdr1FileNamesDiffer | libpmf-1.6/pmf-train.cpp:214-221 | CCDR1 runs with different iteration counts write to different files |

## Left out

- File and directory I/O is recorded as actions, not performed. This covers `mkdir` and its ignored result, `fopen`, `fclose`, `pmf_read_data` and `save_embedding`. The `exit(1)` taken when an output file cannot be opened (lines 216-226 and the same in the other runners) is not modelled, because whether `fopen` succeeds depends on the file system.
- `printf`, `puts` and `fprintf` output is not modelled, nor are the usage text and the wall-time report. The only messages kept are the error values and the wrong-solver-type report.
- The solvers `ccdr1`, `ccdr1_speedup`, `ccdr1_pu`, `als`, `als_pu`, `sgd` and `sgd_pu` are opaque `Solve` actions. So are `gen_permutation_pair` and the two `apply_permutation` calls, as `Shuffle` and `UnshuffleModel`. Their bodies, `pmf.h` and the solver sources are not part of this model.
- The GloVe weight computation `pow(val/x_max, 0.75)` (lines 239-247) is one `ComputeGloveWeights` action. It is floating-point arithmetic over data read at run time.
- OpenMP timing (`omp_get_wtime`) and the thread count have no effect in the model.
- Params.Atof: decimal-to-binary conversion and float/double rounding are not modelled. A floating-point setting is identified by the text it was read from. Two texts that atof reads as the same double (`"0.1"` and `"0.10"`) are therefore different settings here.
- The declared types of the record's fields are in `pmf.h`. Any truncation of an `atof` result stored into an integer field is therefore not modelled.
- Driver.RunCcdr1Trace, Driver.ProgramRun: "opens exactly" covers only the opens in the runners' own code. `ccdr1_pu` is passed the model file name, the shuffle flag and the permutations (line 272), and `-E save_each` asks solvers to save during the run. Any file a solver writes itself is outside the trace.
- `ParseArgs` and `ParseCommandLine` take the tokens as Dafny strings, which may hold `'\0'`; no C `argv` string can. For such a token the model uses the whole token where C would stop at the first NUL (`strlen`, `strcpy`, `strrchr`, `%s`), so the default model name can keep characters C would drop.
- CommandLine.PostProcess: `k` is an unbounded integer, so the overflow of `param.k += 2` (line 172) when k is within 2 of INT_MAX is not modelled.
- CText.Atoi: the digits accumulate in an unbounded integer. The overflow of atoi on out-of-range input (undefined in C) is not modelled.
- The 1024-byte `char` buffers of `main` and `matrixname` are unbounded strings in the model. A name long enough to overflow them is not excluded. Neither is a `%d` value's effect on that length.
- The `(smat_t::format_t)` cast of the `-f` value is not modelled; the value is kept as an integer.
- `Program` requires `PositionalsPresent`: command lines that make the C code read past `argv` or run the slash loop off the front of the folder name have no modelled behaviour.
