/**
 * parse_command_line: the option loop, the post-processing of the record,
 * the three or four positional arguments and the default model name.
 * argv is a sequence of strings whose element 0 is the program name;
 * exit_with_help becomes an Err value.
 */
module CommandLine {
  import opened Results
  import opened Params
  import CText

  datatype ParseError =
    | MissingValue(option: string)   // the last token is an option
    | UnknownOption(letter: char)    // no arm of the switch for this letter
    | NoPositional                   // nothing follows the options

  /** Where the option loop stopped, and what it had set by then. */
  datatype Scanned = Scanned(config: Config, next: nat)

  /** What main receives from parse_command_line. */
  datatype Invocation = Invocation(
    config: Config,
    inputFile: string,
    countFile: string,
    outputFolder: string,
    modelName: string)

  /** A token that the option loop treats as an option: its first character is '-'. */
  predicate IsOption(tok: string) {
    |tok| > 0 && tok[0] == '-'
  }

  /**
   * The character the switch looks at: the second one. For the token "-"
   * that is the terminating NUL, which no arm matches.
   */
  function OptionLetter(tok: string): (ch: char)
    ensures |tok| < 2 ==> !IsKnownLetter(ch)
  {
    if |tok| >= 2 then tok[1] else CText.NUL
  }

  /** The option loop from index i on, with c the settings made so far. */
  function ScanOptions(argv: seq<string>, i: nat, c: Config): Result<Scanned, ParseError>
    decreases |argv| - i
  {
    if i >= |argv| || !IsOption(argv[i]) then Ok(Scanned(c, i))
    else if i + 1 >= |argv| then Err(MissingValue(argv[i]))
    else match SetOption(c, OptionLetter(argv[i]), argv[i + 1])
      case None => Err(UnknownOption(OptionLetter(argv[i])))
      case Some(c') => ScanOptions(argv, i + 2, c')
  }

  /** The option loop as parse_command_line runs it: from index 1, on the initial record. */
  function Scan(argv: seq<string>, init: Parameters): Result<Scanned, ParseError> {
    ScanOptions(argv, 1, InitialConfig(init))
  }

  /**
   * The two adjustments made after the loop: prediction forces verbose
   * output on, and GloVe bias reserves two more latent features.
   */
  function PostProcess(c: Config): (r: Config)
    ensures r.param.verbose != 0 <==> c.param.verbose != 0 || c.param.doPredict != 0
    ensures c.param.verbose != 0 ==> r.param.verbose == c.param.verbose
    ensures c.param.verbose == 0 && c.param.doPredict != 0 ==> r.param.verbose == 1
    ensures r.param.k == if c.param.gloveBias != 0 then c.param.k + 2 else c.param.k
    ensures r.(param := r.param.(verbose := c.param.verbose, k := c.param.k)) == c
  {
    var p := c.param;
    var p1 := if p.doPredict != 0 && p.verbose == 0 then p.(verbose := 1) else p;
    var p2 := if p1.gloveBias != 0 then p1.(k := p1.k + 2) else p1;
    c.(param := p2)
  }

  /**
   * The model name used when no fourth positional is given: the last
   * component of the output folder name once its trailing '/' are removed,
   * followed by ".model".
   */
  function DefaultModelName(folder: string): (name: string)
    requires CText.HasNonSlash(folder)
    ensures |name| > |".model"| && name[|name| - |".model"|..] == ".model"
    ensures forall k :: 0 <= k < |name| ==> name[k] != '/'
  {
    var stem := CText.LastComponent(CText.TrimTrailingSlashes(folder));
    assert |stem| > 0 by {
      var t := CText.TrimTrailingSlashes(folder);
      assert t[|t| - 1] != '/';
    }
    stem + ".model"
  }

  /**
   * What the unchecked reads after the loop need: where positionals start,
   * at least three of them; and without a fourth, a folder name that is not
   * all '/' (the backwards scan would run off its front).
   */
  predicate PositionalsPresent(argv: seq<string>, init: Parameters) {
    match Scan(argv, init)
    case Err(_) => true
    case Ok(s) =>
      s.next >= |argv| ||
      (s.next + 3 <= |argv| && (s.next + 3 < |argv| || CText.HasNonSlash(argv[s.next + 2])))
  }

  /** parse_command_line. */
  function ParseCommandLine(argv: seq<string>, init: Parameters): Result<Invocation, ParseError>
    requires PositionalsPresent(argv, init)
  {
    match Scan(argv, init)
    case Err(e) => Err(e)
    case Ok(Scanned(c, i)) =>
      if i >= |argv| then Err(NoPositional)
      else
        var name := if i + 3 < |argv| then argv[i + 3] else DefaultModelName(argv[i + 2]);
        Ok(Invocation(PostProcess(c), argv[i], argv[i + 1], argv[i + 2], name))
  }

  /**
   * parse_command_line as the program runs it: a loop over argv that moves
   * two tokens per option, then the positionals, and the in-place removal
   * of trailing '/' from a NUL-terminated copy of the folder argument.
   */
  method ParseArgs(argv: seq<string>, init: Parameters) returns (r: Result<Invocation, ParseError>)
    requires PositionalsPresent(argv, init)
    ensures r == ParseCommandLine(argv, init)
  {
    var c := InitialConfig(init);
    var i := 1;
    while i < |argv|
      invariant 1 <= i
      invariant Scan(argv, init) == ScanOptions(argv, i, c)
      decreases |argv| - i
    {
      if !IsOption(argv[i]) {
        break;
      }
      i := i + 1;
      if i >= |argv| {
        return Err(MissingValue(argv[i - 1]));
      }
      var letter := OptionLetter(argv[i - 1]);
      match SetOption(c, letter, argv[i]) {
        case None =>
          return Err(UnknownOption(letter));
        case Some(c') =>
          c := c';
      }
      i := i + 1;
    }
    assert Scan(argv, init) == Ok(Scanned(c, i));
    c := PostProcess(c);
    if i >= |argv| {
      return Err(NoPositional);
    }
    var inputFile := argv[i];
    i := i + 1;
    var countFile := argv[i];
    i := i + 1;
    var outputFolder := argv[i];
    var modelName: string;
    if i < |argv| - 1 {
      modelName := argv[i + 1];
    } else {
      var arg := argv[i];
      var buf := new char[|arg| + 1](k => if 0 <= k < |arg| then arg[k] else CText.NUL);
      assert buf[..|arg|] == arg;
      var n := CText.StripTrailingSlashes(buf, |arg|);
      modelName := CText.LastComponent(buf[..n]) + ".model";
    }
    r := Ok(Invocation(c, inputFile, countFile, outputFolder, modelName));
  }

  /** The command-line tokens for a run of options: each letter after a '-', then its value. */
  function RenderOptions(opts: seq<OptionArg>): (toks: seq<string>)
    ensures |toks| == 2 * |opts|
  {
    if opts == [] then []
    else ["-" + [opts[0].letter], opts[0].text] + RenderOptions(opts[1..])
  }

  /** The options that the tokens argv[i..e] spell out, taken two at a time. */
  function OptionsBetween(argv: seq<string>, i: nat, e: nat): (opts: seq<OptionArg>)
    requires i <= e <= |argv| && (e - i) % 2 == 0
    ensures 2 * |opts| == e - i
    decreases e - i
  {
    if i == e then []
    else [OptionArg(OptionLetter(argv[i]), argv[i + 1])] + OptionsBetween(argv, i + 2, e)
  }

  /** Each first token of a pair in argv[i..e] is an option. */
  predicate OptionTokensBetween(argv: seq<string>, i: nat, e: nat)
    requires i <= e <= |argv| && (e - i) % 2 == 0
    decreases e - i
  {
    i == e || (IsOption(argv[i]) && OptionTokensBetween(argv, i + 2, e))
  }

  /** Reading back rendered options gives the options. */
  lemma {:induction false} OptionsBetweenRendered(argv: seq<string>, i: nat, opts: seq<OptionArg>)
    requires i + 2 * |opts| <= |argv| && argv[i..i + 2 * |opts|] == RenderOptions(opts)
    ensures OptionsBetween(argv, i, i + 2 * |opts|) == opts
    ensures OptionTokensBetween(argv, i, i + 2 * |opts|)
    decreases |opts|
  {
    if opts != [] {
      var e := i + 2 * |opts|;
      assert argv[i] == argv[i..e][0] && argv[i + 1] == argv[i..e][1];
      assert argv[i + 2..e] == argv[i..e][2..];
      OptionsBetweenRendered(argv, i + 2, opts[1..]);
    }
  }

  /** One turn of the option loop, for an option with a known letter. */
  lemma ScanStep(argv: seq<string>, i: nat, c: Config)
    requires i + 1 < |argv| && IsOption(argv[i]) && IsKnownLetter(OptionLetter(argv[i]))
    ensures SetOption(c, OptionLetter(argv[i]), argv[i + 1]).Some?
    ensures ScanOptions(argv, i, c) ==
            ScanOptions(argv, i + 2, SetOption(c, OptionLetter(argv[i]), argv[i + 1]).value)
  {
  }

  /**
   * Scanning a stretch argv[i..e] of option pairs with known letters, each
   * token of any length (line 65 reads only its second character), consumes
   * two tokens per option, whatever the value tokens hold (even a leading
   * '-'), and applies the options in order.
   */
  lemma {:induction false} ScanOptionPairs(argv: seq<string>, i: nat, e: nat, c: Config)
    requires i <= e <= |argv| && (e - i) % 2 == 0
    requires OptionTokensBetween(argv, i, e) && AllKnown(OptionsBetween(argv, i, e))
    ensures ApplyAll(c, OptionsBetween(argv, i, e)).Some?
    ensures ScanOptions(argv, i, c) == ScanOptions(argv, e, ApplyAll(c, OptionsBetween(argv, i, e)).value)
    decreases e - i
  {
    var opts := OptionsBetween(argv, i, e);
    ApplyAllDefined(c, opts);
    if i < e {
      assert opts[0] == OptionArg(OptionLetter(argv[i]), argv[i + 1]);
      assert opts[1..] == OptionsBetween(argv, i + 2, e);
      ScanStep(argv, i, c);
      ScanOptionPairs(argv, i + 2, e, SetOption(c, OptionLetter(argv[i]), argv[i + 1]).value);
    }
  }

  /** After known option pairs, the scan stops at the end or at the first token that is not an option. */
  lemma ScanStopsAfterPairs(argv: seq<string>, e: nat, c: Config)
    requires 1 <= e <= |argv| && (e - 1) % 2 == 0
    requires OptionTokensBetween(argv, 1, e) && AllKnown(OptionsBetween(argv, 1, e))
    requires e == |argv| || !IsOption(argv[e])
    ensures ApplyAll(c, OptionsBetween(argv, 1, e)).Some?
    ensures ScanOptions(argv, 1, c) == Ok(Scanned(ApplyAll(c, OptionsBetween(argv, 1, e)).value, e))
  {
    ScanOptionPairs(argv, 1, e, c);
  }

  /** After known option pairs, an option token that is the last token is a missing value. */
  lemma MissingValueAfterPairs(argv: seq<string>, e: nat, c: Config)
    requires 1 <= e && e + 1 == |argv| && (e - 1) % 2 == 0
    requires OptionTokensBetween(argv, 1, e) && AllKnown(OptionsBetween(argv, 1, e))
    requires IsOption(argv[e])
    ensures ScanOptions(argv, 1, c) == Err(MissingValue(argv[e]))
  {
    ScanOptionPairs(argv, 1, e, c);
  }

  /**
   * After known option pairs, an option token whose second character has no
   * arm is an unknown option naming that character, whatever follows it.
   */
  lemma UnknownOptionAfterPairs(argv: seq<string>, e: nat, c: Config)
    requires 1 <= e && e + 1 < |argv| && (e - 1) % 2 == 0
    requires OptionTokensBetween(argv, 1, e) && AllKnown(OptionsBetween(argv, 1, e))
    requires IsOption(argv[e]) && !IsKnownLetter(OptionLetter(argv[e]))
    ensures ScanOptions(argv, 1, c) == Err(UnknownOption(OptionLetter(argv[e])))
  {
    ScanOptionPairs(argv, 1, e, c);
  }

  /** A command line of known option pairs and nothing else has no input file, which is an error. */
  lemma NoPositionalAfterPairs(argv: seq<string>, init: Parameters)
    requires 1 <= |argv| && (|argv| - 1) % 2 == 0
    requires OptionTokensBetween(argv, 1, |argv|) && AllKnown(OptionsBetween(argv, 1, |argv|))
    ensures PositionalsPresent(argv, init)
    ensures ParseCommandLine(argv, init) == Err(NoPositional)
  {
    ScanStopsAfterPairs(argv, |argv|, InitialConfig(init));
  }

  /**
   * The whole parse of any well-formed command line: known option pairs up
   * to e, then input, count and output folder, then optionally a model name
   * (tokens after the fourth positional are ignored). The folder is kept
   * verbatim, trailing '/' included.
   */
  lemma ParseAfterPairs(argv: seq<string>, e: nat, init: Parameters)
    requires 1 <= e && e + 3 <= |argv| && (e - 1) % 2 == 0
    requires OptionTokensBetween(argv, 1, e) && AllKnown(OptionsBetween(argv, 1, e))
    requires !IsOption(argv[e])
    requires e + 3 == |argv| ==> CText.HasNonSlash(argv[e + 2])
    ensures ApplyAll(InitialConfig(init), OptionsBetween(argv, 1, e)).Some?
    ensures PositionalsPresent(argv, init)
    ensures ParseCommandLine(argv, init) ==
            Ok(Invocation(PostProcess(ApplyAll(InitialConfig(init), OptionsBetween(argv, 1, e)).value),
                          argv[e], argv[e + 1], argv[e + 2],
                          if e + 3 < |argv| then argv[e + 3] else DefaultModelName(argv[e + 2])))
  {
    ScanStopsAfterPairs(argv, e, InitialConfig(init));
  }

  /**
   * The same for options written as "-" and one letter: scanning a rendered
   * run of known options consumes two tokens per option and applies them in order.
   */
  lemma ScanOptionsRun(argv: seq<string>, i: nat, opts: seq<OptionArg>, c: Config)
    requires i + 2 * |opts| <= |argv| && argv[i..i + 2 * |opts|] == RenderOptions(opts)
    requires AllKnown(opts)
    ensures ApplyAll(c, opts).Some?
    ensures ScanOptions(argv, i, c) == ScanOptions(argv, i + 2 * |opts|, ApplyAll(c, opts).value)
  {
    OptionsBetweenRendered(argv, i, opts);
    ScanOptionPairs(argv, i, i + 2 * |opts|, c);
  }

  /** Scanning the rendered options reaches the token after them with all of them applied. */
  lemma ScanRenderedPrefix(prog: string, opts: seq<OptionArg>, rest: seq<string>, c: Config)
    requires AllKnown(opts)
    ensures ApplyAll(c, opts).Some?
    ensures ScanOptions([prog] + RenderOptions(opts) + rest, 1, c) ==
            ScanOptions([prog] + RenderOptions(opts) + rest, 1 + 2 * |opts|, ApplyAll(c, opts).value)
  {
    var argv := [prog] + RenderOptions(opts) + rest;
    assert argv[1..1 + 2 * |opts|] == RenderOptions(opts);
    ScanOptionsRun(argv, 1, opts, c);
  }

  /**
   * Options followed by a token that is not an option: scanning applies all
   * options and stops at index 1 + 2 * (number of options).
   */
  lemma ScanRendered(prog: string, opts: seq<OptionArg>, rest: seq<string>, c: Config)
    requires AllKnown(opts)
    requires rest == [] || !IsOption(rest[0])
    ensures ApplyAll(c, opts).Some?
    ensures ScanOptions([prog] + RenderOptions(opts) + rest, 1, c) ==
            Ok(Scanned(ApplyAll(c, opts).value, 1 + 2 * |opts|))
  {
    ScanRenderedPrefix(prog, opts, rest, c);
    var argv := [prog] + RenderOptions(opts) + rest;
    assert rest != [] ==> argv[1 + 2 * |opts|] == rest[0];
  }

  /** An option with nothing after it is a missing value. */
  lemma MissingValueRendered(prog: string, opts: seq<OptionArg>, option: string, c: Config)
    requires AllKnown(opts)
    requires IsOption(option)
    ensures ScanOptions([prog] + RenderOptions(opts) + [option], 1, c) == Err(MissingValue(option))
  {
    ScanRenderedPrefix(prog, opts, [option], c);
    var argv := [prog] + RenderOptions(opts) + [option];
    assert argv[1 + 2 * |opts|] == option;
  }

  /** An option whose second character has no arm is an unknown option, whatever follows. */
  lemma UnknownOptionRendered(prog: string, opts: seq<OptionArg>, option: string, rest: seq<string>,
                              c: Config)
    requires AllKnown(opts)
    requires IsOption(option) && !IsKnownLetter(OptionLetter(option)) && rest != []
    ensures ScanOptions([prog] + RenderOptions(opts) + ([option] + rest), 1, c) ==
            Err(UnknownOption(OptionLetter(option)))
  {
    ScanRenderedPrefix(prog, opts, [option] + rest, c);
    var argv := [prog] + RenderOptions(opts) + ([option] + rest);
    assert argv[1 + 2 * |opts|] == option;
    assert argv[2 + 2 * |opts|] == rest[0];
  }

  /** Options and nothing else: there is no input file, which is an error. */
  lemma NoPositionalRendered(prog: string, opts: seq<OptionArg>, init: Parameters)
    requires AllKnown(opts)
    ensures PositionalsPresent([prog] + RenderOptions(opts), init)
    ensures ParseCommandLine([prog] + RenderOptions(opts), init) == Err(NoPositional)
  {
    ScanRendered(prog, opts, [], InitialConfig(init));
    assert [prog] + RenderOptions(opts) + [] == [prog] + RenderOptions(opts);
  }

  /**
   * The whole parse of a well-formed command line: options, then input,
   * count and output folder, then optionally a model name. The output
   * folder is kept verbatim, trailing '/' included.
   */
  lemma ParseRendered(prog: string, opts: seq<OptionArg>, input: string, count: string,
                      folder: string, extra: seq<string>, init: Parameters)
    requires AllKnown(opts)
    requires !IsOption(input)
    requires extra == [] ==> CText.HasNonSlash(folder)
    ensures ApplyAll(InitialConfig(init), opts).Some?
    ensures PositionalsPresent([prog] + RenderOptions(opts) + ([input, count, folder] + extra), init)
    ensures ParseCommandLine([prog] + RenderOptions(opts) + ([input, count, folder] + extra), init) ==
            Ok(Invocation(PostProcess(ApplyAll(InitialConfig(init), opts).value), input, count, folder,
                          if extra != [] then extra[0] else DefaultModelName(folder)))
  {
    var rest := [input, count, folder] + extra;
    ScanRendered(prog, opts, rest, InitialConfig(init));
    var argv := [prog] + RenderOptions(opts) + rest;
    var i := 1 + 2 * |opts|;
    assert argv[i] == input && argv[i + 1] == count && argv[i + 2] == folder;
    assert extra != [] ==> argv[i + 3] == extra[0];
  }

  /**
   * Every successful scan has this shape: it stops at an odd index
   * 1 + 2 * n, each first token of a pair before that is an option, the
   * token where it stops is not one, and the settings are those of the n
   * options applied in order.
   */
  lemma ScanShape(argv: seq<string>, init: Parameters)
    requires |argv| > 0 && Scan(argv, init).Ok?
    ensures var s := Scan(argv, init).value;
      && 1 <= s.next <= |argv| && (s.next - 1) % 2 == 0
      && (s.next < |argv| ==> !IsOption(argv[s.next]))
      && OptionTokensBetween(argv, 1, s.next)
      && ApplyAll(InitialConfig(init), OptionsBetween(argv, 1, s.next)) == Some(s.config)
  {
    ScanShapeFrom(argv, 1, InitialConfig(init));
  }

  lemma {:induction false} ScanShapeFrom(argv: seq<string>, i: nat, c: Config)
    requires i <= |argv| && ScanOptions(argv, i, c).Ok?
    ensures var s := ScanOptions(argv, i, c).value;
      && i <= s.next <= |argv| && (s.next - i) % 2 == 0
      && (s.next < |argv| ==> !IsOption(argv[s.next]))
      && OptionTokensBetween(argv, i, s.next)
      && ApplyAll(c, OptionsBetween(argv, i, s.next)) == Some(s.config)
    decreases |argv| - i
  {
    if i < |argv| && IsOption(argv[i]) {
      var c' := SetOption(c, OptionLetter(argv[i]), argv[i + 1]).value;
      ScanShapeFrom(argv, i + 2, c');
    }
  }

  /**
   * What the positionals give: input, count and output folder in that
   * order, the fourth positional as the model name when there is one, and
   * otherwise the default name derived from the folder.
   */
  lemma PositionalsOfParse(argv: seq<string>, init: Parameters)
    requires PositionalsPresent(argv, init)
    requires ParseCommandLine(argv, init).Ok?
    ensures var i := Scan(argv, init).value.next;
      var inv := ParseCommandLine(argv, init).value;
      && i + 3 <= |argv|
      && inv.config == PostProcess(Scan(argv, init).value.config)
      && inv.inputFile == argv[i] && inv.countFile == argv[i + 1] && inv.outputFolder == argv[i + 2]
      && (i + 3 < |argv| ==> inv.modelName == argv[i + 3])
      && (i + 3 == |argv| ==> inv.modelName == DefaultModelName(argv[i + 2]))
  {
  }

  /** The default model name is the folder's last component, found inside the folder name. */
  lemma DefaultModelNameFromFolder(folder: string)
    requires CText.HasNonSlash(folder)
    ensures var stem := DefaultModelName(folder)[..|DefaultModelName(folder)| - |".model"|];
      && stem == CText.LastComponent(CText.TrimTrailingSlashes(folder))
      && |stem| > 0
      && |stem| <= |CText.TrimTrailingSlashes(folder)|
      && stem == folder[|CText.TrimTrailingSlashes(folder)| - |stem|..|CText.TrimTrailingSlashes(folder)|]
  {
  }
}
