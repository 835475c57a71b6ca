/**
 * The command-line entry point (pdpbiogen/cli.py): parser defaults, format
 * expansion, the load → create → render sequence and the mapping from
 * exceptions to exit codes.
 */
module Cli {
  import opened Wrappers
  import opened PyValue
  import opened Diagram

  /** The parsed command line (argparse itself is not modelled). */
  datatype Args = Args(inputYaml: string, outputBasename: string, formats: seq<string>, verbose: bool, version: bool)

  /** `choices` and `default` of `--format`. */
  const FormatChoices: seq<string> := ["png", "svg", "pdf", "all"]
  const DefaultFormats: seq<string> := ["png", "svg"]
  const AllFormats: seq<string> := ["png", "svg", "pdf"]

  /** `if 'all' in formats: formats = ['png', 'svg', 'pdf']`. */
  function ExpandFormats(formats: seq<string>): seq<string> {
    if "all" in formats then AllFormats else formats
  }

  /**
   * Requesting `all` yields exactly png, svg and pdf; otherwise the list is
   * unchanged. Expanding twice is expanding once, and formats drawn from the
   * parser's choices expand to concrete formats only.
   */
  lemma ExpandFormatsProperties(formats: seq<string>)
    ensures "all" in formats ==> ExpandFormats(formats) == ["png", "svg", "pdf"]
    ensures "all" !in formats ==> ExpandFormats(formats) == formats
    ensures ExpandFormats(ExpandFormats(formats)) == ExpandFormats(formats)
    ensures (forall f :: f in formats ==> f in FormatChoices) ==>
              forall f :: f in ExpandFormats(formats) ==> f in AllFormats
  {
    assert "all" !in AllFormats;
  }

  /** The default formats are png and svg, and already concrete. */
  lemma DefaultFormatsUnexpanded()
    ensures ExpandFormats(DefaultFormats) == ["png", "svg"]
  {
    assert "all" != "png" && "all" != "svg";
  }

  /** The `except` ladder of `main`. */
  function ExitCode(e: Exception): int {
    if e.ConfigurationError? then 1
    else if e.ValidationError? then 1
    else if e.GraphvizError? then 1
    else if e.PDPBioGenError? then 1
    else if e.KeyboardInterrupt? then 130
    else 2
  }

  /** The package's own errors exit with 1, an interrupt with 130, anything else with 2. */
  lemma ExitCodeClasses(e: Exception)
    ensures ExitCode(e) == 1 <==> IsPdpError(e)
    ensures ExitCode(e) == 130 <==> e.KeyboardInterrupt?
    ensures ExitCode(e) == 2 <==> !IsPdpError(e) && !e.KeyboardInterrupt?
    ensures ExitCode(e) != 0
  {
  }

  /** A stage `main` enters; the render stage records the graph it is given. */
  datatype Stage = LoadStage(path: string) | CreateStage | RenderStage(drawing: Drawing, basename: string, formats: seq<string>)

  /** `render_diagram(dot, basename, formats)` on the graph `dot` stands for: None when it returns normally. */
  type Renderer = (Drawing, string, seq<string>) -> Option<Exception>

  /** The exception that escapes the `try` block of `main`, if any. */
  function MainFailure(args: Args, read: ReadOutcome, render: Renderer): Option<Exception> {
    match LoadConfiguration(args.inputYaml, read)
    case Failure(e) => Some(e)
    case Success(data) =>
      if DiagramFailure(data).Some? then DiagramFailure(data)
      else render(DrawingOf(data), args.outputBasename, ExpandFormats(args.formats))
  }

  /** The code `main` returns: 0 for `--version` or when nothing escapes, else the escaping exception's code. */
  function ExitStatus(args: Args, read: ReadOutcome, render: Renderer): int {
    if args.version then 0
    else match MainFailure(args, read, render) case None => 0 case Some(e) => ExitCode(e)
  }

  /**
   * `main`: `--version` answers 0 at once; otherwise load, create and
   * render run in that order, each only when the previous succeeded, and
   * the escaping exception (if any) picks the exit code.
   */
  method Run(args: Args, read: ReadOutcome, render: Renderer) returns (code: int, stages: seq<Stage>)
    ensures code == ExitStatus(args, read, render)
    ensures args.version ==> stages == []
    ensures !args.version ==> |stages| >= 1 && stages[0] == LoadStage(args.inputYaml)
    ensures !args.version && LoadConfiguration(args.inputYaml, read).Failure? ==>
              stages == [LoadStage(args.inputYaml)]
    ensures !args.version && LoadConfiguration(args.inputYaml, read).Success? ==>
              |stages| >= 2 && stages[1] == CreateStage
    ensures !args.version && LoadConfiguration(args.inputYaml, read).Success? &&
            DiagramFailure(LoadConfiguration(args.inputYaml, read).value).Some? ==>
              stages == [LoadStage(args.inputYaml), CreateStage]
    ensures !args.version && LoadConfiguration(args.inputYaml, read).Success? &&
            DiagramFailure(LoadConfiguration(args.inputYaml, read).value).None? ==>
              stages == [LoadStage(args.inputYaml), CreateStage,
                         RenderStage(DrawingOf(LoadConfiguration(args.inputYaml, read).value),
                                     args.outputBasename, ExpandFormats(args.formats))]
  {
    if args.version {
      return 0, [];
    }
    var formats := ExpandFormats(args.formats);
    var failure: Option<Exception>;
    var loaded := LoadConfiguration(args.inputYaml, read);
    if loaded.Failure? {
      stages := [LoadStage(args.inputYaml)];
      failure := Some(loaded.error);
    } else {
      var dot := CreateDiagram(loaded.value);
      if dot.Failure? {
        stages := [LoadStage(args.inputYaml), CreateStage];
        failure := Some(dot.error);
      } else {
        var drawing := dot.value.Snapshot();
        stages := [LoadStage(args.inputYaml), CreateStage, RenderStage(drawing, args.outputBasename, formats)];
        failure := render(drawing, args.outputBasename, formats);
      }
    }
    assert failure == MainFailure(args, read, render);
    code := match failure case None => 0 case Some(e) => ExitCode(e);
  }

  /**
   * `main` returns 0 exactly for `--version` or when loading, creating and
   * rendering the built graph all succeed; every escaping exception gives a
   * non-zero code.
   */
  lemma MainSucceedsIff(args: Args, read: ReadOutcome, render: Renderer)
    ensures ExitStatus(args, read, render) == 0 <==>
            (|| args.version
             || (&& LoadConfiguration(args.inputYaml, read).Success?
                 && DiagramFailure(LoadConfiguration(args.inputYaml, read).value).None?
                 && render(DrawingOf(LoadConfiguration(args.inputYaml, read).value),
                           args.outputBasename, ExpandFormats(args.formats)).None?))
  {
    if !args.version && MainFailure(args, read, render).Some? {
      ExitCodeClasses(MainFailure(args, read, render).value);
    }
  }

  /** A failing configuration load always ends with exit code 1 and never reaches create or render. */
  lemma LoadFailureExitsOne(args: Args, read: ReadOutcome, render: Renderer)
    requires !args.version
    requires LoadConfiguration(args.inputYaml, read).Failure? && !read.OtherReadError?
    ensures MainFailure(args, read, render) == Some(LoadConfiguration(args.inputYaml, read).error)
    ensures ExitStatus(args, read, render) == 1
  {
    LoadConfigurationOutcomes(args.inputYaml, read);
  }

  /** An invalid configuration surfaces as a GraphvizError and exit code 1. */
  lemma InvalidConfigurationExitsOne(args: Args, read: ReadOutcome, render: Renderer)
    requires LoadConfiguration(args.inputYaml, read).Success?
    requires DiagramFailure(LoadConfiguration(args.inputYaml, read).value).Some?
    ensures MainFailure(args, read, render).Some? && MainFailure(args, read, render).value.GraphvizError?
    ensures !args.version ==> ExitStatus(args, read, render) == 1
  {
    DiagramFailureIsGraphvizError(LoadConfiguration(args.inputYaml, read).value);
  }
}
