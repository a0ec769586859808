/** The demo program: read the command line, answer help or version, or
    configure an `ImageStitcher` from the parameters and run it.

    The command-line parameters live in one object created on first use.
    One run of the program reads that object once, so here it is a fresh
    `CommandLineParams`. The program's output is a sequence of lines, each
    tagged with the stream it goes to. */
module StitchingDemo {
  import opened Wrappers
  import opened ImageStitching
  import opened StitchingCli

  /** What a line shows: the options description, or a piece of text. */
  datatype Message = Description(caption: string, options: seq<OptionSpec>) | Text(text: string)

  /** A line of output on standard output or on standard error. */
  datatype Line = Stdout(message: Message) | Stderr(message: Message)

  const VERSION_BANNER := "ImageStitched Demo Application version 1.0"
  const STITCHING_FAILED := "Image stitching failed"
  const STITCHING_SUCCEEDED := "Image stitching successful"

  /** The exit code, the output, and the calls the stitcher made (None when
      no stitcher was created). */
  datatype DemoRun = DemoRun(exitCode: int, output: seq<Line>, stitching: Option<seq<Call>>)

  /** The options description as it stands after the parameters are read. */
  const HELP := Description(CAPTION, OPTIONS)

  /** The stitcher's settings once it has been created from the directory
      and the method, and the extension, threshold, output path and debug
      mode have been set. Splitting is never turned on. */
  function StitcherSettings(p: Params): (s: Settings)
    ensures !s.d3
    ensures s.mode == Scans <==> p.stitchingMethod == "scans"
    ensures s.outputFilePath == p.output && Pattern(s) == p.directory + "/*." + p.extension
    ensures s.confidenceThreshold == p.confidence && s.debugMode == p.debug
  {
    Settings(ModeFor(p.stitchingMethod), p.directory, p.extension, p.output, p.confidence, p.debug, false)
  }

  /** What one run of the demo does:
      - a parse error prints the error and the description to standard
        error and exits with -1;
      - a validation error prints the error and exits with -1;
      - help prints the description and exits with 0;
      - otherwise version prints the banner and exits with 0;
      - otherwise the demo stitches, then reports success (exit 0) or
        failure (exit -1). */
  function Demo(cmd: CommandLine, files: seq<File>, status: Status, writeOk: bool): DemoRun {
    match ReadParamsError(cmd)
    case Some(ProgramOptionsError(reason)) =>
      DemoRun(-1, [Stderr(Text("Error: " + reason)), Stderr(HELP)], None)
    case Some(RuntimeError(message)) =>
      DemoRun(-1, [Stderr(Text("Error: " + message))], None)
    case None =>
      var a := cmd.args;
      if a.help then
        DemoRun(0, [Stdout(HELP)], None)
      else if a.version then
        DemoRun(0, [Stdout(Text(VERSION_BANNER))], None)
      else
        var o := Run(StitcherSettings(Resolve(a)), files, status, writeOk);
        if o.ok then DemoRun(0, [Stdout(Text(STITCHING_SUCCEEDED))], Some(o.calls))
        else DemoRun(-1, [Stderr(Text(STITCHING_FAILED))], Some(o.calls))
  }

  /** The demo's `main`, with the command line already parsed and the
      library's results as inputs. */
  method RunDemo(cmd: CommandLine, files: seq<File>, status: Status, writeOk: bool)
    returns (exitCode: int, output: seq<Line>, stitching: Option<seq<Call>>)
    ensures DemoRun(exitCode, output, stitching) == Demo(cmd, files, status, writeOk)
  {
    var params := new CommandLineParams();
    var err := params.ReadParams(cmd);
    assert params.OptionsDescript().options == [] + OPTIONS == OPTIONS;
    if err.Some? {
      match err.value
      case ProgramOptionsError(reason) =>
        var d := params.OptionsDescript();
        return -1, [Stderr(Text("Error: " + reason)), Stderr(Description(d.caption, d.options))], None;
      case RuntimeError(message) =>
        return -1, [Stderr(Text("Error: " + message))], None;
    }
    FlagsFollowArgs(cmd.args, false);

    if params.IsHelp() {
      var d := params.OptionsDescript();
      return 0, [Stdout(Description(d.caption, d.options))], None;
    }
    if params.IsVersion() {
      return 0, [Stdout(Text(VERSION_BANNER))], None;
    }

    var stitcher := new ImageStitcher(params.GetDirectoryPath(), params.GetStitchingMethod());
    stitcher.SetImageExtension(params.GetImageExtension());
    stitcher.SetConfidenceThreshold(params.GetConfidenceThreshold());
    stitcher.SetOutputFilePath(params.GetOutputFilePath());
    stitcher.SetDebugMode(params.GetDebugMode());
    assert stitcher.State() == StitcherSettings(Resolve(cmd.args));

    var ok, calls := stitcher.StitchImages(files, status, writeOk);
    if !ok {
      return -1, [Stderr(Text(STITCHING_FAILED))], Some(calls);
    }
    return 0, [Stdout(Text(STITCHING_SUCCEEDED))], Some(calls);
  }

  /** The exit code is 0 or -1, and 0 exactly when the parameters are valid
      and help or version is asked for or stitching succeeds. */
  lemma DemoExitCode(cmd: CommandLine, files: seq<File>, status: Status, writeOk: bool)
    ensures var r := Demo(cmd, files, status, writeOk);
      && (r.exitCode == 0 || r.exitCode == -1)
      && (r.exitCode == 0 <==>
            && cmd.WellFormed?
            && ReadParamsError(cmd) == None
            && (cmd.args.help || cmd.args.version
                || Run(StitcherSettings(Resolve(cmd.args)), files, status, writeOk).ok))
  {
  }

  /** Validation runs before the help flag is looked at: asking for help
      with an unsupported method prints the method error and exits with -1. */
  lemma HelpStillValidates(a: Args, files: seq<File>, status: Status, writeOk: bool)
    requires a.help && ValidateMethod(Resolve(a).stitchingMethod).Some?
    ensures Demo(WellFormed(a), files, status, writeOk) ==
            DemoRun(-1, [Stderr(Text("Error: " + INVALID_METHOD))], None)
  {
    MethodCheckedFirst(a);
  }

  /** Help wins over version: with valid parameters and help asked for, the
      description is printed whether or not version is asked for too. */
  lemma HelpBeforeVersion(a: Args, version: bool, files: seq<File>, status: Status, writeOk: bool)
    requires a.help && ReadParamsError(WellFormed(a)) == None
    ensures Demo(WellFormed(a.(version := version)), files, status, writeOk) ==
            DemoRun(0, [Stdout(HELP)], None)
  {
    ValidationIgnoresFlags(a, a.help, version);
  }

  /** A stitcher is created exactly when the parameters are valid and
      neither help nor version is asked for. */
  lemma StitcherOnlyWithoutFlags(cmd: CommandLine, files: seq<File>, status: Status, writeOk: bool)
    ensures Demo(cmd, files, status, writeOk).stitching.Some? <==>
      cmd.WellFormed? && ReadParamsError(cmd) == None && !cmd.args.help && !cmd.args.version
  {
  }

  /** The description goes to standard error exactly when the command line
      fails to parse; validation errors print only the message. */
  lemma DescriptionOnlyOnParseErrors(cmd: CommandLine, files: seq<File>, status: Status, writeOk: bool)
    ensures Stderr(HELP) in Demo(cmd, files, status, writeOk).output <==> cmd.Malformed?
  {
  }

  /** The demo never splits images: the stitcher gets every listed file
      whole, in listing order. */
  lemma DemoNeverSplits(cmd: CommandLine, files: seq<File>, status: Status, writeOk: bool, c: Call)
    requires Demo(cmd, files, status, writeOk).stitching.Some?
    requires c in Demo(cmd, files, status, writeOk).stitching.value && c.Stitch?
    ensures |c.images| == |files|
    ensures forall k :: 0 <= k < |files| ==>
      files[k].decoded.Some? && c.images[k] == Piece(k, FullRect(files[k].decoded.value))
  {
    var s := StitcherSettings(Resolve(cmd.args));
    RunStitchesImageList(s, files, status, writeOk, c);
    ImageListLength(files, |files|, false);
    forall k | 0 <= k < |files|
      ensures c.images[k] == Piece(k, FullRect(files[k].decoded.value))
    {
      ImageListWhole(files, |files|, k);
    }
  }

  /** The output path is never empty, so whenever stitching succeeds the
      demo writes the result, to the given path or to "stitched_image."
      and the extension, and the exit code is that of the write. */
  lemma DemoAlwaysWrites(a: Args, files: seq<File>, status: Status, writeOk: bool)
    requires ReadParamsError(WellFormed(a)) == None && !a.help && !a.version
    requires AllReadable(files) && |files| >= 2 && status == OK
    ensures var r := Demo(WellFormed(a), files, status, writeOk);
      && r.stitching.Some?
      && |r.stitching.value| > 0
      && r.stitching.value[|r.stitching.value| - 1] == Write(DefaultOutput(a.output.GetOr(""), a.extension.GetOr("jpg")))
      && (r.exitCode == 0 <==> writeOk)
  {
    var s := StitcherSettings(Resolve(a));
    RunSucceedsIff(s, files, status, writeOk);
    ImageListLength(files, |files|, false);
    assert FirstUnreadable(files) == |files|;
  }

  /** With no options the directory path is empty, so the pattern handed
      to the listing is a slash, a star and ".jpg", not the working
      directory's plain star-dot-jpg. What the listing makes of it is
      outside the model. */
  lemma DefaultRun(files: seq<File>, status: Status, writeOk: bool)
    ensures var r := Demo(WellFormed(NO_OPTIONS), files, status, writeOk);
      && r.stitching.Some?
      && r.stitching.value[0] == Glob("/*.jpg")
  {
    ResolveDefaults();
    DefaultsValidate();
  }

  /** The stitcher is configured with the validated confidence: every
      confidence setting the demo makes carries the resolved threshold, which
      lies in [0, 1]. */
  lemma DemoConfidenceInRange(a: Args, files: seq<File>, status: Status, writeOk: bool, c: Call)
    requires ReadParamsError(WellFormed(a)) == None && !a.help && !a.version
    requires c in Demo(WellFormed(a), files, status, writeOk).stitching.value && c.SetPanoConfidence?
    ensures c == SetPanoConfidence(Resolve(a).confidence)
    ensures 0.0 <= c.threshold <= 1.0
  {
    RunConfiguresThreshold(StitcherSettings(Resolve(a)), files, status, writeOk, c);
  }

  /** --debug shows the result: it is shown exactly when every file decodes,
      there are at least two files, the stitch succeeds and debug is on. */
  lemma DemoShowsIff(a: Args, files: seq<File>, status: Status, writeOk: bool)
    requires ReadParamsError(WellFormed(a)) == None && !a.help && !a.version
    ensures Show in Demo(WellFormed(a), files, status, writeOk).stitching.value <==>
      AllReadable(files) && |files| >= 2 && status == OK && Resolve(a).debug
  {
    RunShowsIff(StitcherSettings(Resolve(a)), files, status, writeOk);
  }
}
