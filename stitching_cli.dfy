/** The demo's command-line parameters (`CommandLineParams`). It applies
    the defaults, rewrites an empty output path, records the help and version
    flags, and validates the method and the confidence.

    The option parser is not modelled. What reaches the program is either a
    parse failure (`Malformed`) or the values the user supplied (`WellFormed`).
    The parser's own exceptions are `ProgramOptionsError`; the ones the class
    throws are `RuntimeError`. A method returning `Some(error)` stands for a
    call that throws. */
module StitchingCli {
  import opened Wrappers

  /** What the user supplied on the command line; None for an option left out. */
  datatype Args = Args(
    help: bool,
    version: bool,
    directory: Option<string>,
    extension: Option<string>,
    stitchingMethod: Option<string>,
    confidence: Option<real>,
    output: Option<string>,
    debug: bool)

  /** The outcome of tokenising and parsing the command line. */
  datatype CommandLine = Malformed(reason: string) | WellFormed(args: Args)

  /** An empty command line. */
  const NO_OPTIONS := Args(false, false, None, None, None, None, None, false)

  /** One entry of the options description: its names and its help text. */
  datatype OptionSpec = OptionSpec(names: string, help: string)

  const CAPTION := "Command-line interface has the following options"

  /** The options `read_params` registers, in order. */
  const OPTIONS: seq<OptionSpec> := [
    OptionSpec("help,h", "Print this help message"),
    OptionSpec("version,v", "Print version information"),
    OptionSpec("directory,d", "Specify the directory path containing the input images"),
    OptionSpec("extension,e", "Specify the file extension of the images to be stitched"),
    OptionSpec("method,m", "Choose the stitching method (e.g., panorama, cylindrical, spherical)"),
    OptionSpec("confidence,c", "Set the confidence threshold for feature matching"),
    OptionSpec("output,o", "Specify the path for saving the stitched image"),
    OptionSpec("debug", "Enable extended debug output")
  ]

  /** An exception: one raised by the option parser, or a runtime error
      raised by validation. */
  datatype CliError = ProgramOptionsError(reason: string) | RuntimeError(message: string)

  const INVALID_METHOD := "Invalid stitching method. Supported methods: panorama, scans"
  const INVALID_CONFIDENCE := "Invalid confidence threshold. Confidence must be in the range [0.0, 1.0]"

  /** `validate_method`: exactly "panorama" and "scans" pass; anything else
      throws. */
  function ValidateMethod(stitchingMethod: string): (r: Option<CliError>)
    ensures r.None? <==> stitchingMethod == "panorama" || stitchingMethod == "scans"
    ensures r.Some? ==> r.value == RuntimeError(INVALID_METHOD)
  {
    if stitchingMethod != "panorama" && stitchingMethod != "scans" then Some(RuntimeError(INVALID_METHOD))
    else None
  }

  /** `validate_confidence`: the closed range [0, 1] passes, both ends
      included; anything else throws. */
  function ValidateConfidence(confidence: real): (r: Option<CliError>)
    ensures r.None? <==> 0.0 <= confidence <= 1.0
    ensures r.Some? ==> r.value == RuntimeError(INVALID_CONFIDENCE)
  {
    if confidence < 0.0 || confidence > 1.0 then Some(RuntimeError(INVALID_CONFIDENCE))
    else None
  }

  /** The help text of --method advertises two methods that validation
      refuses. */
  lemma AdvertisedMethodsRejected()
    ensures ValidateMethod("cylindrical") == Some(RuntimeError(INVALID_METHOD))
    ensures ValidateMethod("spherical") == Some(RuntimeError(INVALID_METHOD))
  {
  }

  /** The parameter values once the parser has stored them and the output
      path has been defaulted. */
  datatype Params = Params(
    directory: string,
    extension: string,
    stitchingMethod: string,
    confidence: real,
    output: string,
    debug: bool)

  /** The output path: kept when non-empty, otherwise "stitched_image." and
      the extension. */
  function DefaultOutput(output: string, extension: string): (r: string)
    ensures r != ""
    ensures output != "" ==> r == output
    ensures output == "" ==> r == "stitched_image." + extension
  {
    if output == "" then "stitched_image." + extension else output
  }

  /** Defaulting the output path is idempotent: a resolved path is kept. */
  lemma DefaultOutputIdempotent(output: string, extension: string, extension': string)
    ensures DefaultOutput(DefaultOutput(output, extension), extension') == DefaultOutput(output, extension)
  {
  }

  /** The values the parser stores: each supplied value as given, each
      missing one as its default. */
  function Stored(a: Args): (p: Params)
    ensures a.directory.Some? ==> p.directory == a.directory.value
    ensures a.extension.Some? ==> p.extension == a.extension.value
    ensures a.stitchingMethod.Some? ==> p.stitchingMethod == a.stitchingMethod.value
    ensures a.confidence.Some? ==> p.confidence == a.confidence.value
    ensures a.output.Some? ==> p.output == a.output.value
    ensures a.directory.None? ==> p.directory == ""
    ensures a.extension.None? ==> p.extension == "jpg"
    ensures a.stitchingMethod.None? ==> p.stitchingMethod == "panorama"
    ensures a.confidence.None? ==> p.confidence == 0.8
    ensures a.output.None? ==> p.output == ""
    ensures p.debug == a.debug
  {
    Params(
      a.directory.GetOr(""),
      a.extension.GetOr("jpg"),
      a.stitchingMethod.GetOr("panorama"),
      a.confidence.GetOr(0.8),
      a.output.GetOr(""),
      a.debug)
  }

  /** The stored values with the output path defaulted from the stored
      extension. */
  function Resolve(a: Args): (p: Params)
    ensures p.output != ""
    ensures p == Stored(a).(output := p.output)
    ensures p.output == DefaultOutput(Stored(a).output, p.extension)
  {
    var stored := Stored(a);
    stored.(output := DefaultOutput(stored.output, stored.extension))
  }

  /** A non-empty output path the user supplies survives resolution
      unchanged, whatever the extension. */
  lemma SuppliedOutputKept(a: Args)
    requires a.output.Some? && a.output.value != ""
    ensures Resolve(a).output == a.output.value
  {
  }

  /** With no options: empty directory, extension "jpg", method "panorama",
      confidence 0.8, debug off, output "stitched_image.jpg". */
  lemma ResolveDefaults()
    ensures Resolve(NO_OPTIONS) == Params("", "jpg", "panorama", 0.8, "stitched_image.jpg", false)
  {
  }

  /** Without an output path, the output follows the extension, so
      "png" gives "stitched_image.png". */
  lemma OutputFollowsExtension(a: Args)
    requires a.output == None || a.output == Some("")
    ensures Resolve(a).output == "stitched_image." + a.extension.GetOr("jpg")
    ensures a.extension == Some("png") ==> Resolve(a).output == "stitched_image.png"
  {
  }

  /** The keys present in the parser's variables map: every option with a
      default value, plus help and version only when supplied. */
  function VariablesMap(a: Args): set<string> {
    {"directory", "extension", "method", "confidence", "output", "debug"}
    + (if a.help then {"help"} else {})
    + (if a.version then {"version"} else {})
  }

  /** `set_flag`: sets the flag when the key is present and otherwise leaves
      it as it was; it never clears a flag. */
  function SetFlag(vm: set<string>, flag: bool, name: string): (r: bool)
    ensures flag ==> r
    ensures r <==> flag || name in vm
  {
    if name in vm then true else flag
  }

  /** Setting a flag twice is the same as setting it once. */
  lemma SetFlagIdempotent(vm: set<string>, flag: bool, name: string)
    ensures SetFlag(vm, SetFlag(vm, flag, name), name) == SetFlag(vm, flag, name)
  {
  }

  /** The help and version flags are recorded exactly when supplied. */
  lemma FlagsFollowArgs(a: Args, flag: bool)
    ensures SetFlag(VariablesMap(a), flag, "help") == (flag || a.help)
    ensures SetFlag(VariablesMap(a), flag, "version") == (flag || a.version)
  {
  }

  /** What `read_params` throws, if anything: the parser's error, or the
      method error, or the confidence error, checked in that order. */
  function ReadParamsError(cmd: CommandLine): (r: Option<CliError>)
    ensures cmd.Malformed? ==> r == Some(ProgramOptionsError(cmd.reason))
    ensures cmd.WellFormed? ==>
      (r.None? <==> ValidateMethod(Resolve(cmd.args).stitchingMethod).None? && ValidateConfidence(Resolve(cmd.args).confidence).None?)
    ensures cmd.WellFormed? && ValidateMethod(Resolve(cmd.args).stitchingMethod).Some? ==>
      r == ValidateMethod(Resolve(cmd.args).stitchingMethod)
    ensures cmd.WellFormed? && ValidateMethod(Resolve(cmd.args).stitchingMethod).None? ==>
      r == ValidateConfidence(Resolve(cmd.args).confidence)
  {
    match cmd
    case Malformed(reason) => Some(ProgramOptionsError(reason))
    case WellFormed(a) =>
      var p := Resolve(a);
      var methodError := ValidateMethod(p.stitchingMethod);
      if methodError.Some? then methodError else ValidateConfidence(p.confidence)
  }

  /** With no options, reading the parameters throws nothing. */
  lemma DefaultsValidate()
    ensures ReadParamsError(WellFormed(NO_OPTIONS)) == None
  {
    ResolveDefaults();
  }

  /** A supported method with an out-of-range confidence raises the
      confidence error, a runtime error and not a parser error. */
  lemma ConfidenceErrorRaised(a: Args)
    requires ValidateMethod(Resolve(a).stitchingMethod).None?
    requires Resolve(a).confidence < 0.0 || Resolve(a).confidence > 1.0
    ensures ReadParamsError(WellFormed(a)) == Some(RuntimeError(INVALID_CONFIDENCE))
  {
  }

  /** The method is checked before the confidence: when both are invalid,
      the method error is the one raised. */
  lemma MethodCheckedFirst(a: Args)
    requires ValidateMethod(Resolve(a).stitchingMethod).Some?
    ensures ReadParamsError(WellFormed(a)) == Some(RuntimeError(INVALID_METHOD))
  {
  }

  /** Validation does not look at the help and version flags. */
  lemma ValidationIgnoresFlags(a: Args, help: bool, version: bool)
    ensures ReadParamsError(WellFormed(a.(help := help, version := version))) == ReadParamsError(WellFormed(a))
  {
    assert Resolve(a.(help := help, version := version)) == Resolve(a);
  }

  /** The parser's options description. */
  class OptionsDescription {
    const caption: string
    var options: seq<OptionSpec>

    constructor (caption: string)
      ensures this.caption == caption && options == []
    {
      this.caption := caption;
      options := [];
    }
  }

  /** A `CommandLineParams` object. Nothing ever assigns `d3`, which
      `Valid` records. */
  class CommandLineParams {
    var help: bool
    var version: bool
    var debugMode: bool
    var d3: bool
    var directoryPath: string
    var imageExtension: string
    var stitchingMethod: string
    var outputFilePath: string
    var confidenceThreshold: real
    const description: OptionsDescription

    ghost predicate Valid()
      reads this
    {
      !d3
    }

    /** The parameter fields as a value. */
    function Values(): Params
      reads this
    {
      Params(directoryPath, imageExtension, stitchingMethod, confidenceThreshold, outputFilePath, debugMode)
    }

    /** Creates the options description with its caption; all four flags
        start false and the strings empty. The confidence is left unset. */
    constructor ()
      ensures Valid()
      ensures !help && !version && !debugMode && !d3
      ensures directoryPath == "" && imageExtension == "" && stitchingMethod == "" && outputFilePath == ""
      ensures fresh(description) && description.caption == CAPTION && description.options == []
    {
      help := false;
      version := false;
      debugMode := false;
      d3 := false;
      directoryPath := "";
      imageExtension := "";
      stitchingMethod := "";
      outputFilePath := "";
      description := new OptionsDescription(CAPTION);
    }

    /** The description object `ReadParams` fills in; the same object every
        time. */
    function OptionsDescript(): (d: OptionsDescription)
      ensures d == description
    {
      description
    }

    function IsHelp(): (r: bool)
      reads this
      ensures r == help
    {
      help
    }

    function IsVersion(): (r: bool)
      reads this
      ensures r == version
    {
      version
    }

    function GetDirectoryPath(): (r: string)
      reads this
      ensures r == Values().directory
    {
      directoryPath
    }

    function GetImageExtension(): (r: string)
      reads this
      ensures r == Values().extension
    {
      imageExtension
    }

    function GetStitchingMethod(): (r: string)
      reads this
      ensures r == Values().stitchingMethod
    {
      stitchingMethod
    }

    function GetOutputFilePath(): (r: string)
      reads this
      ensures r == Values().output
    {
      outputFilePath
    }

    function GetConfidenceThreshold(): (r: real)
      reads this
      ensures r == Values().confidence
    {
      confidenceThreshold
    }

    function GetDebugMode(): (r: bool)
      reads this
      ensures r == Values().debug
    {
      debugMode
    }

    /** No member assigns `d3`, so the getter always answers false. */
    function GetD3(): (r: bool)
      reads this
      requires Valid()
      ensures !r
    {
      d3
    }

    /** The parser's notify step: each parameter field receives the
        supplied value or its default; the flags are left alone. */
    method Notify(a: Args)
      modifies this
      ensures Values() == Stored(a)
      ensures help == old(help) && version == old(version) && d3 == old(d3)
    {
      directoryPath := a.directory.GetOr("");
      imageExtension := a.extension.GetOr("jpg");
      stitchingMethod := a.stitchingMethod.GetOr("panorama");
      confidenceThreshold := a.confidence.GetOr(0.8);
      outputFilePath := a.output.GetOr("");
      debugMode := a.debug;
    }

    /** `read_params`. Registers the options; then, unless parsing fails,
        stores the values, records help and version, defaults the output
        path and validates the method and then the confidence. Validation
        runs whatever the help and version flags say. */
    method ReadParams(cmd: CommandLine) returns (err: Option<CliError>)
      requires Valid()
      modifies this, description
      ensures Valid()
      ensures description.options == old(description.options) + OPTIONS
      ensures err == ReadParamsError(cmd)
      ensures cmd.Malformed? ==>
        Values() == old(Values()) && help == old(help) && version == old(version)
      ensures cmd.WellFormed? ==>
        && Values() == Resolve(cmd.args)
        && help == SetFlag(VariablesMap(cmd.args), old(help), "help")
        && version == SetFlag(VariablesMap(cmd.args), old(version), "version")
    {
      description.options := description.options + OPTIONS;
      match cmd
      case Malformed(reason) =>
        return Some(ProgramOptionsError(reason));
      case WellFormed(a) =>
        Notify(a);
        var vm := VariablesMap(a);
        help := SetFlag(vm, help, "help");
        version := SetFlag(vm, version, "version");

        if outputFilePath == "" {
          outputFilePath := "stitched_image." + imageExtension;
        }

        err := ValidateMethod(stitchingMethod);
        if err.Some? {
          return;
        }
        err := ValidateConfidence(confidenceThreshold);
    }
  }
}
