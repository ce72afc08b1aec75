/**
 * main and the three runners: the model prefix built from the output folder
 * and the model name, the switch on the solver type, and in each runner the
 * output file names and the solver it calls. What a run does to files,
 * matrices and the model is recorded as a sequence of actions, in order.
 */
module Driver {
  import opened Results
  import opened Params
  import opened CommandLine
  import CText

  /** The solver kinds that main's switch names. */
  datatype Solver =
    | Ccdr1 | Ccdr1Speedup | PuCcdr1 | PuCcdr1Speedup
    | Als | PuAls
    | Sgd | PuSgd | PuSgdOrig

  /**
   * The integer value of each solver-type enumerator. They are declared in
   * pmf.h, which is not part of this model, so they are a parameter.
   */
  datatype SolverCodes = SolverCodes(
    ccdr1: int, ccdr1Speedup: int, puCcdr1: int, puCcdr1Speedup: int,
    als: int, puAls: int,
    sgd: int, puSgd: int, puSgdOrig: int)

  function Code(codes: SolverCodes, s: Solver): int {
    match s
    case Ccdr1 => codes.ccdr1
    case Ccdr1Speedup => codes.ccdr1Speedup
    case PuCcdr1 => codes.puCcdr1
    case PuCcdr1Speedup => codes.puCcdr1Speedup
    case Als => codes.als
    case PuAls => codes.puAls
    case Sgd => codes.sgd
    case PuSgd => codes.puSgd
    case PuSgdOrig => codes.puSgdOrig
  }

  /**
   * All nine values differ. The switch in main has every one of them as a
   * case label, and C accepts a switch only when its labels are distinct.
   */
  predicate Distinct(codes: SolverCodes) {
    forall s: Solver, t: Solver :: Code(codes, s) == Code(codes, t) ==> s == t
  }

  /** The case label of main's switch that a solver-type value matches, if any. */
  function Classify(codes: SolverCodes, t: int): (r: Option<Solver>)
    ensures r.Some? ==> Code(codes, r.value) == t
    ensures r.None? ==> forall s: Solver :: Code(codes, s) != t
  {
    if t == codes.ccdr1 then Some(Ccdr1)
    else if t == codes.ccdr1Speedup then Some(Ccdr1Speedup)
    else if t == codes.puCcdr1Speedup then Some(PuCcdr1Speedup)
    else if t == codes.puCcdr1 then Some(PuCcdr1)
    else if t == codes.als then Some(Als)
    else if t == codes.puAls then Some(PuAls)
    else if t == codes.sgd then Some(Sgd)
    else if t == codes.puSgd then Some(PuSgd)
    else if t == codes.puSgdOrig then Some(PuSgdOrig)
    else None
  }

  /** With distinct values, a solver's own value selects that solver and no other. */
  lemma ClassifyCode(codes: SolverCodes, s: Solver)
    requires Distinct(codes)
    ensures Classify(codes, Code(codes, s)) == Some(s)
  {
  }

  /** The runner that each group of case labels leads to. */
  datatype Runner = Ccdr1Runner | AlsRunner | SgdRunner

  function RunnerOf(s: Solver): Runner {
    match s
    case Ccdr1 | Ccdr1Speedup | PuCcdr1Speedup | PuCcdr1 => Ccdr1Runner
    case Als | PuAls => AlsRunner
    case Sgd | PuSgd | PuSgdOrig => SgdRunner
  }

  /** The solver functions a runner can call. */
  datatype SolverCall =
    | CallCcdr1 | CallCcdr1Speedup | CallCcdr1Pu
    | CallAls | CallAlsPu
    | CallSgd | CallSgdPu

  /** The storage order of the factor model a runner allocates. */
  datatype Layout = ColMajor | RowMajor

  /** One observable step of a run. */
  datatype Action =
    | MakeDirectory(path: string)
    | OpenForWriting(path: string)
    | ReadData(path: string, format: Option<int>)  // None: the reader's own default format
    | ComputeGloveWeights(xMax: int)               // weights of the training and test entries
    | AllocateModel(k: int, layout: Layout)
    | Shuffle                                      // permute rows and columns of both sets
    | Solve(call: SolverCall)
    | UnshuffleModel                               // undo the permutation on the model
    | SaveEmbedding(gloveBias: Option<int>)        // None: the call without a bias argument
    | CloseFiles
    | ReportWrongSolver(code: int)

  /** Actions that are neither solver calls nor opens of output files. */
  predicate Plain(actions: seq<Action>) {
    forall j :: 0 <= j < |actions| ==> !actions[j].Solve? && !actions[j].OpenForWriting?
  }

  /** The two names under which a CCDR1-family run saves its factors. */
  function Ccdr1FileNames(prefix: string, maxiter: int): (names: seq<string>)
    ensures |names| == 2
  {
    var stem := prefix + ".iter" + CText.IntToString(maxiter);
    [stem + ".final.words", stem + ".final.contexts"]
  }

  /** The two names under which an ALS or SGD run saves its factors. */
  function FactorFileNames(prefix: string): (names: seq<string>)
    ensures |names| == 2
  {
    [prefix + ".W", prefix + ".H"]
  }

  /** Opening the output files, when the runner is given a model file name. */
  function OpenOutputs(names: seq<string>, modelFile: Option<string>): seq<Action>
    requires |names| == 2
  {
    if modelFile.Some? then [OpenForWriting(names[0]), OpenForWriting(names[1])] else []
  }

  /** The permutation of both data sets, done when shuffling is on. */
  function ShuffleStep(doShuffle: bool): seq<Action> {
    if doShuffle then [Shuffle] else []
  }

  /** Saving the model, done only when the output files were opened. */
  function SaveOutputs(modelFile: Option<string>, doShuffle: bool, gloveBias: Option<int>): seq<Action> {
    if modelFile.Some? then
      (if doShuffle then [UnshuffleModel] else []) + [SaveEmbedding(gloveBias), CloseFiles]
    else []
  }

  /**
   * The solver calls of run_ccdr1: one if/else-if chain for CCDR1 and
   * CCDR1_SPEEDUP, then a separate if for PU_CCDR1. PU_CCDR1_SPEEDUP has
   * no branch of its own.
   */
  function Ccdr1Calls(codes: SolverCodes, t: int): seq<SolverCall> {
    (if t == codes.ccdr1 then [CallCcdr1]
     else if t == codes.ccdr1Speedup then [CallCcdr1Speedup]
     else [])
    + (if t == codes.puCcdr1 then [CallCcdr1Pu] else [])
  }

  /** The solver calls of run_als. */
  function AlsCalls(codes: SolverCodes, t: int): seq<SolverCall> {
    if t == codes.als then [CallAls]
    else if t == codes.puAls then [CallAlsPu]
    else []
  }

  /** The solver calls of run_sgd: PU_SGD_ORIG shares the condition of SGD. */
  function SgdCalls(codes: SolverCodes, t: int): seq<SolverCall> {
    if t == codes.sgd || t == codes.puSgdOrig then [CallSgd]
    else if t == codes.puSgd then [CallSgdPu]
    else []
  }

  function SolveAll(calls: seq<SolverCall>): (actions: seq<Action>)
    ensures |actions| == |calls|
    ensures forall j :: 0 <= j < |calls| ==> actions[j] == Solve(calls[j])
  {
    if calls == [] then [] else [Solve(calls[0])] + SolveAll(calls[1..])
  }

  /**
   * What run_ccdr1 does between opening its outputs and calling a solver:
   * read the data in the selected format; with GloVe weighting, read the
   * counts too and derive the weights; allocate a column-major model; shuffle.
   */
  function Ccdr1Setup(c: Config, inputFile: string, countFile: string): (actions: seq<Action>)
    ensures Plain(actions)
  {
    [ReadData(inputFile, Some(c.fileFormat))]
    + (if c.param.gloveWeight != 0
       then [ReadData(countFile, Some(c.fileFormat)), ComputeGloveWeights(c.param.xMax)]
       else [])
    + [AllocateModel(c.param.k, ColMajor)]
    + ShuffleStep(c.doShuffle)
  }

  /** run_ccdr1. */
  function RunCcdr1(codes: SolverCodes, c: Config, inputFile: string, countFile: string,
                    modelFile: Option<string>): seq<Action>
  {
    var p := c.param;
    var names := Ccdr1FileNames(if modelFile.Some? then modelFile.value else "", p.maxiter);
    OpenOutputs(names, modelFile)
    + Ccdr1Setup(c, inputFile, countFile)
    + SolveAll(Ccdr1Calls(codes, p.solverType))
    + SaveOutputs(modelFile, c.doShuffle, Some(p.gloveBias))
  }

  /** run_als. */
  function RunAls(codes: SolverCodes, c: Config, inputFile: string, modelFile: Option<string>): seq<Action> {
    var p := c.param;
    var names := FactorFileNames(if modelFile.Some? then modelFile.value else "");
    OpenOutputs(names, modelFile)
    + [ReadData(inputFile, Some(c.fileFormat)), AllocateModel(p.k, RowMajor)]
    + ShuffleStep(c.doShuffle)
    + SolveAll(AlsCalls(codes, p.solverType))
    + SaveOutputs(modelFile, c.doShuffle, None)
  }

  /** run_sgd: the block reader is called without a format argument. */
  function RunSgd(codes: SolverCodes, c: Config, inputFile: string, modelFile: Option<string>): seq<Action> {
    var p := c.param;
    var names := FactorFileNames(if modelFile.Some? then modelFile.value else "");
    OpenOutputs(names, modelFile)
    + [ReadData(inputFile, None), AllocateModel(p.k, RowMajor)]
    + ShuffleStep(c.doShuffle)
    + SolveAll(SgdCalls(codes, p.solverType))
    + SaveOutputs(modelFile, c.doShuffle, None)
  }

  /** The path main passes to the runners as the model file name: folder, '/', name. */
  function ModelPrefix(inv: Invocation): (prefix: string)
    ensures |prefix| == |inv.outputFolder| + 1 + |inv.modelName|
    ensures prefix[..|inv.outputFolder|] == inv.outputFolder
    ensures prefix[|inv.outputFolder|] == '/'
    ensures prefix[|inv.outputFolder| + 1..] == inv.modelName
  {
    inv.outputFolder + "/" + inv.modelName
  }

  /** main's switch on the solver type, given the composed model file name. */
  function Dispatch(codes: SolverCodes, inv: Invocation, prefix: string): seq<Action> {
    var t := inv.config.param.solverType;
    match Classify(codes, t)
    case None => [ReportWrongSolver(t)]
    case Some(s) =>
      match RunnerOf(s)
      case Ccdr1Runner => RunCcdr1(codes, inv.config, inv.inputFile, inv.countFile, Some(prefix))
      case AlsRunner => RunAls(codes, inv.config, inv.inputFile, Some(prefix))
      case SgdRunner => RunSgd(codes, inv.config, inv.inputFile, Some(prefix))
  }

  /** What a run of the program does, and its exit status. */
  datatype Outcome = Outcome(actions: seq<Action>, status: int)

  /**
   * The program: a command line that does not parse prints the usage text
   * and exits with status 1; otherwise main creates the output folder,
   * dispatches and returns 0, even when the solver type is unknown.
   */
  function Program(codes: SolverCodes, init: Parameters, argv: seq<string>): Outcome
    requires PositionalsPresent(argv, init)
  {
    match ParseCommandLine(argv, init)
    case Err(_) => Outcome([], 1)
    case Ok(inv) => Outcome([MakeDirectory(inv.outputFolder)] + Dispatch(codes, inv, ModelPrefix(inv)), 0)
  }

  /**
   * main as the program runs it: parse, create the folder, write the
   * joined path over the model name, then switch on the solver type.
   */
  method Train(codes: SolverCodes, init: Parameters, argv: seq<string>)
    returns (actions: seq<Action>, status: int)
    requires PositionalsPresent(argv, init)
    ensures Outcome(actions, status) == Program(codes, init, argv)
  {
    var parsed := ParseArgs(argv, init);
    if parsed.Err? {
      return [], 1;
    }
    var inv := parsed.value;
    actions := [MakeDirectory(inv.outputFolder)];
    var modelFileName := inv.modelName;
    var joined := inv.outputFolder + "/" + modelFileName;
    modelFileName := joined;
    var t := inv.config.param.solverType;
    match Classify(codes, t) {
      case None =>
        actions := actions + [ReportWrongSolver(t)];
      case Some(s) =>
        match RunnerOf(s) {
          case Ccdr1Runner =>
            actions := actions + RunCcdr1(codes, inv.config, inv.inputFile, inv.countFile, Some(modelFileName));
          case AlsRunner =>
            actions := actions + RunAls(codes, inv.config, inv.inputFile, Some(modelFileName));
          case SgdRunner =>
            actions := actions + RunSgd(codes, inv.config, inv.inputFile, Some(modelFileName));
        }
    }
    status := 0;
  }

  // ---------------------------------------------------------------------
  // Reading a trace

  /** The solver calls in a sequence of actions, in order. */
  function SolverCallsIn(actions: seq<Action>): seq<SolverCall> {
    if actions == [] then []
    else (if actions[0].Solve? then [actions[0].call] else []) + SolverCallsIn(actions[1..])
  }

  /** The files opened for writing in a sequence of actions, in order. */
  function FilesOpenedIn(actions: seq<Action>): seq<string> {
    if actions == [] then []
    else (if actions[0].OpenForWriting? then [actions[0].path] else []) + FilesOpenedIn(actions[1..])
  }

  lemma {:induction false} SolverCallsInAppend(a: seq<Action>, b: seq<Action>)
    ensures SolverCallsIn(a + b) == SolverCallsIn(a) + SolverCallsIn(b)
  {
    if a != [] {
      assert (a + b)[0] == a[0] && (a + b)[1..] == a[1..] + b;
      SolverCallsInAppend(a[1..], b);
    } else {
      assert a + b == b;
    }
  }

  lemma {:induction false} FilesOpenedInAppend(a: seq<Action>, b: seq<Action>)
    ensures FilesOpenedIn(a + b) == FilesOpenedIn(a) + FilesOpenedIn(b)
  {
    if a != [] {
      assert (a + b)[0] == a[0] && (a + b)[1..] == a[1..] + b;
      FilesOpenedInAppend(a[1..], b);
    } else {
      assert a + b == b;
    }
  }

  lemma {:induction false} SolveAllReadsBack(calls: seq<SolverCall>)
    ensures SolverCallsIn(SolveAll(calls)) == calls
    ensures FilesOpenedIn(SolveAll(calls)) == []
  {
    if calls != [] {
      assert SolveAll(calls)[1..] == SolveAll(calls[1..]);
      SolveAllReadsBack(calls[1..]);
    }
  }

  // ---------------------------------------------------------------------
  // What each solver type does

  /**
   * The solver function each solver type ends up calling, as an
   * independent table: PU_CCDR1_SPEEDUP reaches run_ccdr1 but calls
   * nothing, and PU_SGD_ORIG calls the plain sgd.
   */
  function ExpectedCalls(s: Solver): seq<SolverCall> {
    match s
    case Ccdr1 => [CallCcdr1]
    case Ccdr1Speedup => [CallCcdr1Speedup]
    case PuCcdr1 => [CallCcdr1Pu]
    case PuCcdr1Speedup => []
    case Als => [CallAls]
    case PuAls => [CallAlsPu]
    case Sgd => [CallSgd]
    case PuSgd => [CallSgdPu]
    case PuSgdOrig => [CallSgd]
  }

  /** The two output files each runner writes. */
  function ExpectedFiles(r: Runner, prefix: string, maxiter: int): (names: seq<string>)
    ensures |names| == 2
  {
    match r
    case Ccdr1Runner => Ccdr1FileNames(prefix, maxiter)
    case AlsRunner | SgdRunner => FactorFileNames(prefix)
  }

  /** The runner's own if chains pick the solver that the table gives. */
  lemma RunnerCalls(codes: SolverCodes, s: Solver)
    requires Distinct(codes)
    ensures RunnerOf(s) == Ccdr1Runner ==> Ccdr1Calls(codes, Code(codes, s)) == ExpectedCalls(s)
    ensures RunnerOf(s) == AlsRunner ==> AlsCalls(codes, Code(codes, s)) == ExpectedCalls(s)
    ensures RunnerOf(s) == SgdRunner ==> SgdCalls(codes, Code(codes, s)) == ExpectedCalls(s)
  {
    var t := Code(codes, s);
    assert s != Ccdr1 ==> t != Code(codes, Ccdr1);
    assert s != Ccdr1Speedup ==> t != Code(codes, Ccdr1Speedup);
    assert s != PuCcdr1 ==> t != Code(codes, PuCcdr1);
    assert s != Als ==> t != Code(codes, Als);
    assert s != Sgd ==> t != Code(codes, Sgd);
    assert s != PuSgdOrig ==> t != Code(codes, PuSgdOrig);
  }

  /**
   * Every runner has this shape: open the two outputs, plain steps, the
   * solver calls, plain steps. Its solver calls and opened files are read
   * back from that shape.
   */
  lemma RunShape(names: seq<string>, prefix: string, middle: seq<Action>, calls: seq<SolverCall>,
                 save: seq<Action>)
    requires |names| == 2 && Plain(middle) && Plain(save)
    ensures var run := OpenOutputs(names, Some(prefix)) + middle + SolveAll(calls) + save;
      SolverCallsIn(run) == calls && FilesOpenedIn(run) == names
  {
    var opens := OpenOutputs(names, Some(prefix));
    assert opens == [OpenForWriting(names[0])] + [OpenForWriting(names[1])];
    SolverCallsInAppend([OpenForWriting(names[0])], [OpenForWriting(names[1])]);
    FilesOpenedInAppend([OpenForWriting(names[0])], [OpenForWriting(names[1])]);
    assert FilesOpenedIn(opens) == names;
    MiddleHasNoCallsOrFiles(middle);
    MiddleHasNoCallsOrFiles(save);
    SolveAllReadsBack(calls);
    SolverCallsInAppend(opens, middle);
    SolverCallsInAppend(opens + middle, SolveAll(calls));
    SolverCallsInAppend(opens + middle + SolveAll(calls), save);
    FilesOpenedInAppend(opens, middle);
    FilesOpenedInAppend(opens + middle, SolveAll(calls));
    FilesOpenedInAppend(opens + middle + SolveAll(calls), save);
  }

  /**
   * run_ccdr1 with a model file name opens the two ".iter<maxiter>.final"
   * files named after it and calls the solvers its if chains select.
   */
  lemma RunCcdr1Trace(codes: SolverCodes, c: Config, inputFile: string, countFile: string, prefix: string)
    ensures SolverCallsIn(RunCcdr1(codes, c, inputFile, countFile, Some(prefix))) ==
            Ccdr1Calls(codes, c.param.solverType)
    ensures FilesOpenedIn(RunCcdr1(codes, c, inputFile, countFile, Some(prefix))) ==
            Ccdr1FileNames(prefix, c.param.maxiter)
  {
    var p := c.param;
    var middle := Ccdr1Setup(c, inputFile, countFile);
    var names := Ccdr1FileNames(prefix, p.maxiter);
    var calls := Ccdr1Calls(codes, p.solverType);
    var save := SaveOutputs(Some(prefix), c.doShuffle, Some(p.gloveBias));
    RunShape(names, prefix, middle, calls, save);
    assert RunCcdr1(codes, c, inputFile, countFile, Some(prefix)) ==
           OpenOutputs(names, Some(prefix)) + middle + SolveAll(calls) + save;
  }

  /** run_als with a model file name opens prefix.W and prefix.H and calls the solver its if chain selects. */
  lemma RunAlsTrace(codes: SolverCodes, c: Config, inputFile: string, prefix: string)
    ensures SolverCallsIn(RunAls(codes, c, inputFile, Some(prefix))) == AlsCalls(codes, c.param.solverType)
    ensures FilesOpenedIn(RunAls(codes, c, inputFile, Some(prefix))) == FactorFileNames(prefix)
  {
    var middle := [ReadData(inputFile, Some(c.fileFormat)), AllocateModel(c.param.k, RowMajor)]
      + ShuffleStep(c.doShuffle);
    var names := FactorFileNames(prefix);
    var calls := AlsCalls(codes, c.param.solverType);
    var save := SaveOutputs(Some(prefix), c.doShuffle, None);
    RunShape(names, prefix, middle, calls, save);
    assert RunAls(codes, c, inputFile, Some(prefix)) ==
           OpenOutputs(names, Some(prefix)) + middle + SolveAll(calls) + save;
  }

  /** run_sgd with a model file name opens prefix.W and prefix.H and calls the solver its if chain selects. */
  lemma RunSgdTrace(codes: SolverCodes, c: Config, inputFile: string, prefix: string)
    ensures SolverCallsIn(RunSgd(codes, c, inputFile, Some(prefix))) == SgdCalls(codes, c.param.solverType)
    ensures FilesOpenedIn(RunSgd(codes, c, inputFile, Some(prefix))) == FactorFileNames(prefix)
  {
    var middle := [ReadData(inputFile, None), AllocateModel(c.param.k, RowMajor)]
      + ShuffleStep(c.doShuffle);
    var names := FactorFileNames(prefix);
    var calls := SgdCalls(codes, c.param.solverType);
    var save := SaveOutputs(Some(prefix), c.doShuffle, None);
    RunShape(names, prefix, middle, calls, save);
    assert RunSgd(codes, c, inputFile, Some(prefix)) ==
           OpenOutputs(names, Some(prefix)) + middle + SolveAll(calls) + save;
  }

  /** The trace of main from the switch on, for a solver type that has a case label. */
  lemma DispatchTrace(codes: SolverCodes, inv: Invocation, prefix: string, s: Solver)
    requires Distinct(codes) && inv.config.param.solverType == Code(codes, s)
    ensures SolverCallsIn(Dispatch(codes, inv, prefix)) == ExpectedCalls(s)
    ensures FilesOpenedIn(Dispatch(codes, inv, prefix)) ==
            ExpectedFiles(RunnerOf(s), prefix, inv.config.param.maxiter)
  {
    ClassifyCode(codes, s);
    RunnerCalls(codes, s);
    match RunnerOf(s)
    case Ccdr1Runner => RunCcdr1Trace(codes, inv.config, inv.inputFile, inv.countFile, prefix);
    case AlsRunner => RunAlsTrace(codes, inv.config, inv.inputFile, prefix);
    case SgdRunner => RunSgdTrace(codes, inv.config, inv.inputFile, prefix);
  }

  /** A sequence of actions other than solver calls and opens contributes to neither list. */
  lemma {:induction false} MiddleHasNoCallsOrFiles(actions: seq<Action>)
    requires Plain(actions)
    ensures SolverCallsIn(actions) == [] && FilesOpenedIn(actions) == []
  {
    if actions != [] {
      MiddleHasNoCallsOrFiles(actions[1..]);
    }
  }

  // ---------------------------------------------------------------------
  // Properties of the whole program

  /** A command line that does not parse exits with 1 and does nothing; every other run returns 0. */
  lemma ProgramStatus(codes: SolverCodes, init: Parameters, argv: seq<string>)
    requires PositionalsPresent(argv, init)
    ensures Program(codes, init, argv).status == 1 <==> ParseCommandLine(argv, init).Err?
    ensures Program(codes, init, argv).status == 0 <==> ParseCommandLine(argv, init).Ok?
    ensures ParseCommandLine(argv, init).Err? ==> Program(codes, init, argv).actions == []
  {
  }

  /**
   * An unknown solver type is reported after the output folder is made,
   * nothing else happens, and the exit status is still 0.
   */
  lemma WrongSolverType(codes: SolverCodes, init: Parameters, argv: seq<string>)
    requires PositionalsPresent(argv, init) && ParseCommandLine(argv, init).Ok?
    requires var t := ParseCommandLine(argv, init).value.config.param.solverType;
      forall s: Solver :: Code(codes, s) != t
    ensures var inv := ParseCommandLine(argv, init).value;
      Program(codes, init, argv) ==
      Outcome([MakeDirectory(inv.outputFolder), ReportWrongSolver(inv.config.param.solverType)], 0)
  {
  }

  /**
   * For a solver type with a case label, the run makes the output folder
   * first, calls exactly the solvers the table gives, and opens exactly the
   * two output files of its runner, both named after the model prefix.
   */
  lemma ProgramRun(codes: SolverCodes, init: Parameters, argv: seq<string>, s: Solver)
    requires Distinct(codes)
    requires PositionalsPresent(argv, init) && ParseCommandLine(argv, init).Ok?
    requires ParseCommandLine(argv, init).value.config.param.solverType == Code(codes, s)
    ensures var inv := ParseCommandLine(argv, init).value;
      var out := Program(codes, init, argv);
      && out.status == 0
      && out.actions[0] == MakeDirectory(inv.outputFolder)
      && SolverCallsIn(out.actions) == ExpectedCalls(s)
      && FilesOpenedIn(out.actions) == ExpectedFiles(RunnerOf(s), ModelPrefix(inv), inv.config.param.maxiter)
  {
    var inv := ParseCommandLine(argv, init).value;
    DispatchTrace(codes, inv, ModelPrefix(inv), s);
    SolverCallsInAppend([MakeDirectory(inv.outputFolder)], Dispatch(codes, inv, ModelPrefix(inv)));
    FilesOpenedInAppend([MakeDirectory(inv.outputFolder)], Dispatch(codes, inv, ModelPrefix(inv)));
  }

  /**
   * Each runner's two output files are different files, both beginning
   * with the model prefix.
   */
  lemma ExpectedFilesDiffer(r: Runner, prefix: string, maxiter: int)
    ensures var names := ExpectedFiles(r, prefix, maxiter);
      && names[0] != names[1]
      && names[0][..|prefix|] == prefix && names[1][..|prefix|] == prefix
  {
  }

  /** CCDR1 runs with different iteration counts write to different files. */
  lemma Ccdr1FileNamesDiffer(prefix: string, m: int, n: int)
    requires m != n
    ensures Ccdr1FileNames(prefix, m)[0] != Ccdr1FileNames(prefix, n)[0]
    ensures Ccdr1FileNames(prefix, m)[1] != Ccdr1FileNames(prefix, n)[1]
  {
    if Ccdr1FileNames(prefix, m)[0] == Ccdr1FileNames(prefix, n)[0]
       || Ccdr1FileNames(prefix, m)[1] == Ccdr1FileNames(prefix, n)[1] {
      var dm := CText.IntToString(m);
      var dn := CText.IntToString(n);
      IterationFromName(prefix, dm, dn);
      CText.IntToStringInjective(m, n);
    }
  }

  /** Two CCDR1 file names with the same prefix agree only when the printed iteration counts do. */
  lemma IterationFromName(prefix: string, dm: string, dn: string)
    requires prefix + ".iter" + dm + ".final.words" == prefix + ".iter" + dn + ".final.words"
          || prefix + ".iter" + dm + ".final.contexts" == prefix + ".iter" + dn + ".final.contexts"
    ensures dm == dn
  {
    var suffix := if prefix + ".iter" + dm + ".final.words" == prefix + ".iter" + dn + ".final.words"
                  then ".final.words" else ".final.contexts";
    var a := prefix + ".iter" + dm + suffix;
    var b := prefix + ".iter" + dn + suffix;
    assert a == b;
    assert |dm| == |dn|;
    var base := |prefix| + 5;
    forall k | 0 <= k < |dm|
      ensures dm[k] == dn[k]
    {
      assert a[base + k] == dm[k] && b[base + k] == dn[k];
    }
  }

  /**
   * The model prefix keeps the output folder exactly as given, trailing '/'
   * included, and without a fourth positional ends in the folder's last
   * component and ".model".
   */
  lemma PrefixOfParse(argv: seq<string>, init: Parameters)
    requires PositionalsPresent(argv, init) && ParseCommandLine(argv, init).Ok?
    ensures var i := Scan(argv, init).value.next;
      var prefix := ModelPrefix(ParseCommandLine(argv, init).value);
      && (i + 3 < |argv| ==> prefix == argv[i + 2] + "/" + argv[i + 3])
      && (i + 3 == |argv| ==>
            prefix == argv[i + 2] + "/" + CText.LastComponent(CText.TrimTrailingSlashes(argv[i + 2])) + ".model")
  {
    PositionalsOfParse(argv, init);
  }
}
