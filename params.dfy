/**
 * The run configuration that the command line fills in: the training
 * parameter record, plus the input format selector and the shuffle flag,
 * which the driver keeps in two process-wide variables, and the table that
 * maps each option letter to the settings it assigns.
 */
module Params {
  import opened Results
  import CText

  /**
   * A floating-point setting. The model does not convert decimal text to
   * binary floating point; a value is identified by the text atof reads it
   * from, so equal settings here are equal doubles in the program.
   */
  datatype FloatSetting = FromText(text: string)

  function Atof(s: string): (f: FloatSetting)
    ensures f.text == s
  {
    FromText(s)
  }

  /** The training parameter record. */
  datatype Parameters = Parameters(
    solverType: int,
    k: int,
    threads: int,
    lambda: FloatSetting,
    rho: FloatSetting,
    puType: int,
    maxiter: int,
    maxinneriter: int,
    eps: FloatSetting,
    eta0: FloatSetting,
    nrBlocks: int,
    lrateMethod: int,
    betaup: FloatSetting,
    betadown: FloatSetting,
    warmStart: FloatSetting,
    doPredict: int,
    verbose: int,
    doNmf: bool,
    removeBias: FloatSetting,
    saveEach: int,
    xMax: int,
    gloveWeight: int,
    gloveBias: int)

  /** Everything the command line decides: the record and the two globals. */
  datatype Config = Config(param: Parameters, fileFormat: int, doShuffle: bool)

  /** The plain-text input format, the initial value of the format selector. */
  const TXT: int := 0

  /** The configuration before any option is read: the globals start as TXT and true. */
  function InitialConfig(init: Parameters): (c: Config)
    ensures c.param == init && c.fileFormat == TXT && c.doShuffle
  {
    Config(init, TXT, true)
  }

  /** The settings an option can assign. */
  datatype Field =
    | SolverType | K | Threads | Lambda | Rho | PuType | MaxIter | MaxInnerIter
    | Eps | Eta0 | NrBlocks | LrateMethod | Betaup | Betadown | WarmStart
    | DoPredict | Verbose | DoNmf | RemoveBias | SaveEach | XMax | GloveWeight
    | GloveBias | FileFormat | DoShuffle

  datatype Value = IntValue(i: int) | FloatValue(f: FloatSetting) | BoolValue(b: bool)

  /** The current value of one setting. */
  function Get(c: Config, f: Field): Value {
    var p := c.param;
    match f
    case SolverType => IntValue(p.solverType)
    case K => IntValue(p.k)
    case Threads => IntValue(p.threads)
    case Lambda => FloatValue(p.lambda)
    case Rho => FloatValue(p.rho)
    case PuType => IntValue(p.puType)
    case MaxIter => IntValue(p.maxiter)
    case MaxInnerIter => IntValue(p.maxinneriter)
    case Eps => FloatValue(p.eps)
    case Eta0 => FloatValue(p.eta0)
    case NrBlocks => IntValue(p.nrBlocks)
    case LrateMethod => IntValue(p.lrateMethod)
    case Betaup => FloatValue(p.betaup)
    case Betadown => FloatValue(p.betadown)
    case WarmStart => FloatValue(p.warmStart)
    case DoPredict => IntValue(p.doPredict)
    case Verbose => IntValue(p.verbose)
    case DoNmf => BoolValue(p.doNmf)
    case RemoveBias => FloatValue(p.removeBias)
    case SaveEach => IntValue(p.saveEach)
    case XMax => IntValue(p.xMax)
    case GloveWeight => IntValue(p.gloveWeight)
    case GloveBias => IntValue(p.gloveBias)
    case FileFormat => IntValue(c.fileFormat)
    case DoShuffle => BoolValue(c.doShuffle)
  }

  /** The option table: whether the option with this letter assigns setting f. */
  predicate Assigns(letter: char, f: Field) {
    match letter
    case 's' => f == SolverType
    case 'X' => f == XMax
    case 'W' => f == GloveWeight
    case 'G' => f == GloveBias
    case 'k' => f == K
    case 'n' => f == Threads
    case 'l' => f == Lambda
    case 'r' => f == Rho
    case 't' => f == MaxIter
    case 'T' => f == MaxInnerIter
    case 'e' => f == Eps || f == Eta0
    case 'B' => f == NrBlocks
    case 'm' => f == LrateMethod
    case 'u' => f == Betaup
    case 'd' => f == Betadown
    case 'w' => f == WarmStart
    case 'p' => f == DoPredict
    case 'P' => f == PuType
    case 'q' => f == Verbose
    case 'N' => f == DoNmf
    case 'S' => f == DoShuffle
    case 'b' => f == RemoveBias
    case 'E' => f == SaveEach
    case 'f' => f == FileFormat
    case _ => false
  }

  /** The letters the option switch has an arm for. */
  predicate IsKnownLetter(letter: char) {
    match letter
    case 's' | 'X' | 'W' | 'G' | 'k' | 'n' | 'l' | 'r' | 't' | 'T' | 'e' | 'B'
       | 'm' | 'u' | 'd' | 'w' | 'p' | 'P' | 'q' | 'N' | 'S' | 'b' | 'E' | 'f' => true
    case _ => false
  }

  /**
   * How the value text of an option becomes the value of a setting:
   * atoi for integer settings, atof for floating-point ones; do_nmf is set
   * exactly when the text reads as 1, the shuffle flag whenever it reads
   * as anything but 0.
   */
  function Converted(f: Field, text: string): Value {
    match f
    case Lambda | Rho | Eps | Eta0 | Betaup | Betadown | WarmStart | RemoveBias =>
      FloatValue(Atof(text))
    case DoNmf => BoolValue(CText.Atoi(text) == 1)
    case DoShuffle => BoolValue(CText.Atoi(text) != 0)
    case _ => IntValue(CText.Atoi(text))
  }

  /**
   * One arm of the option switch: the option whose second character is
   * letter, with value text. None is the default arm, an unknown option.
   */
  function SetOption(c: Config, letter: char, text: string): (r: Option<Config>)
    ensures r.Some? <==> IsKnownLetter(letter)
  {
    var p := c.param;
    var n := CText.Atoi(text);
    match letter
    case 's' => Some(c.(param := p.(solverType := n)))
    case 'X' => Some(c.(param := p.(xMax := n)))
    case 'W' => Some(c.(param := p.(gloveWeight := n)))
    case 'G' => Some(c.(param := p.(gloveBias := n)))
    case 'k' => Some(c.(param := p.(k := n)))
    case 'n' => Some(c.(param := p.(threads := n)))
    case 'l' => Some(c.(param := p.(lambda := Atof(text))))
    case 'r' => Some(c.(param := p.(rho := Atof(text))))
    case 't' => Some(c.(param := p.(maxiter := n)))
    case 'T' => Some(c.(param := p.(maxinneriter := n)))
    case 'e' => Some(c.(param := p.(eps := Atof(text), eta0 := Atof(text))))
    case 'B' => Some(c.(param := p.(nrBlocks := n)))
    case 'm' => Some(c.(param := p.(lrateMethod := n)))
    case 'u' => Some(c.(param := p.(betaup := Atof(text))))
    case 'd' => Some(c.(param := p.(betadown := Atof(text))))
    case 'w' => Some(c.(param := p.(warmStart := Atof(text))))
    case 'p' => Some(c.(param := p.(doPredict := n)))
    case 'P' => Some(c.(param := p.(puType := n)))
    case 'q' => Some(c.(param := p.(verbose := n)))
    case 'N' => Some(c.(param := p.(doNmf := n == 1)))
    case 'S' => Some(c.(doShuffle := n != 0))
    case 'b' => Some(c.(param := p.(removeBias := Atof(text))))
    case 'E' => Some(c.(param := p.(saveEach := n)))
    case 'f' => Some(c.(fileFormat := n))
    case _ => None
  }

  /**
   * An option with a known letter assigns exactly the settings the table
   * names, each to the conversion of the value text, and leaves every other
   * setting as it was.
   */
  lemma SetOptionSettings(c: Config, letter: char, text: string, f: Field)
    requires IsKnownLetter(letter)
    ensures Get(SetOption(c, letter, text).value, f) ==
      (if Assigns(letter, f) then Converted(f, text) else Get(c, f))
  {
    if letter == 's' || letter == 'X' || letter == 'W' || letter == 'G' {
      SettingsOfOptions1(c, letter, text, f);
    } else if letter == 'k' || letter == 'n' || letter == 't' || letter == 'T' {
      SettingsOfOptions2(c, letter, text, f);
    } else if letter == 'l' || letter == 'r' || letter == 'e' || letter == 'u' {
      SettingsOfOptions3(c, letter, text, f);
    } else if letter == 'd' || letter == 'w' || letter == 'b' || letter == 'B' {
      SettingsOfOptions4(c, letter, text, f);
    } else if letter == 'm' || letter == 'p' || letter == 'P' || letter == 'q' {
      SettingsOfOptions5(c, letter, text, f);
    } else {
      SettingsOfOptions6(c, letter, text, f);
    }
  }

  /**
   * The options whose arms are not a plain assignment: -e sets eps and
   * eta0 to the same value, -N sets do_nmf exactly when the value reads as
   * 1, -S clears the shuffle flag exactly when it reads as 0.
   */
  lemma SpecialOptions(c: Config, text: string)
    ensures var r := SetOption(c, 'e', text).value;
      r.param.eps == Atof(text) && r.param.eta0 == Atof(text) &&
      r == c.(param := c.param.(eps := Atof(text), eta0 := Atof(text)))
    ensures SetOption(c, 'N', text).value.param.doNmf <==> CText.Atoi(text) == 1
    ensures SetOption(c, 'S', text).value.doShuffle <==> CText.Atoi(text) != 0
  {
  }

  // SetOptionSettings for a few letters at a time, which keeps each proof small.

  lemma SettingsOfOptions1(c: Config, letter: char, text: string, f: Field)
    requires letter == 's' || letter == 'X' || letter == 'W' || letter == 'G'
    ensures Get(SetOption(c, letter, text).value, f) ==
      (if Assigns(letter, f) then Converted(f, text) else Get(c, f))
  {
  }

  lemma SettingsOfOptions2(c: Config, letter: char, text: string, f: Field)
    requires letter == 'k' || letter == 'n' || letter == 't' || letter == 'T'
    ensures Get(SetOption(c, letter, text).value, f) ==
      (if Assigns(letter, f) then Converted(f, text) else Get(c, f))
  {
  }

  lemma SettingsOfOptions3(c: Config, letter: char, text: string, f: Field)
    requires letter == 'l' || letter == 'r' || letter == 'e' || letter == 'u'
    ensures Get(SetOption(c, letter, text).value, f) ==
      (if Assigns(letter, f) then Converted(f, text) else Get(c, f))
  {
  }

  lemma SettingsOfOptions4(c: Config, letter: char, text: string, f: Field)
    requires letter == 'd' || letter == 'w' || letter == 'b' || letter == 'B'
    ensures Get(SetOption(c, letter, text).value, f) ==
      (if Assigns(letter, f) then Converted(f, text) else Get(c, f))
  {
  }

  lemma SettingsOfOptions5(c: Config, letter: char, text: string, f: Field)
    requires letter == 'm' || letter == 'p' || letter == 'P' || letter == 'q'
    ensures Get(SetOption(c, letter, text).value, f) ==
      (if Assigns(letter, f) then Converted(f, text) else Get(c, f))
  {
  }

  lemma SettingsOfOptions6(c: Config, letter: char, text: string, f: Field)
    requires letter == 'N' || letter == 'S' || letter == 'E' || letter == 'f'
    ensures Get(SetOption(c, letter, text).value, f) ==
      (if Assigns(letter, f) then Converted(f, text) else Get(c, f))
  {
  }

  /** An option as the scanner sees it: its letter and its value text. */
  datatype OptionArg = OptionArg(letter: char, text: string)

  /** The options applied in order; None as soon as one of them is unknown. */
  function ApplyAll(c: Config, opts: seq<OptionArg>): Option<Config>
    decreases |opts|
  {
    if opts == [] then Some(c)
    else match SetOption(c, opts[0].letter, opts[0].text)
      case None => None
      case Some(c') => ApplyAll(c', opts[1..])
  }

  /** Every option in opts has an arm in the switch. */
  predicate AllKnown(opts: seq<OptionArg>) {
    opts == [] || (IsKnownLetter(opts[0].letter) && AllKnown(opts[1..]))
  }

  /** The value text of the last option in opts that assigns f, if any. */
  function LastSetting(opts: seq<OptionArg>, f: Field): Option<string> {
    if opts == [] then None
    else match LastSetting(opts[1..], f)
      case Some(text) => Some(text)
      case None => if Assigns(opts[0].letter, f) then Some(opts[0].text) else None
  }

  /** Options with known letters never fail, and an unknown one always does. */
  lemma {:induction false} ApplyAllDefined(c: Config, opts: seq<OptionArg>)
    ensures ApplyAll(c, opts).Some? <==> AllKnown(opts)
    decreases |opts|
  {
    if opts != [] && IsKnownLetter(opts[0].letter) {
      ApplyAllDefined(SetOption(c, opts[0].letter, opts[0].text).value, opts[1..]);
    }
  }

  /**
   * After a run of options every setting holds the conversion of the last
   * option that assigns it (a repeated option overwrites the earlier one),
   * and a setting no option mentions keeps its initial value.
   */
  lemma {:induction false} ApplyAllSettings(c: Config, opts: seq<OptionArg>, f: Field)
    requires ApplyAll(c, opts).Some?
    ensures Get(ApplyAll(c, opts).value, f) ==
      match LastSetting(opts, f)
      case None => Get(c, f)
      case Some(text) => Converted(f, text)
    decreases |opts|
  {
    if opts != [] {
      var c' := SetOption(c, opts[0].letter, opts[0].text).value;
      ApplyAllSettings(c', opts[1..], f);
      SetOptionSettings(c, opts[0].letter, opts[0].text, f);
    }
  }
}
