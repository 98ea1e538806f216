/** The `main` of the current variant: parse flags, fill unset flags from the
    environment, pick the template, check it exists, parse it, choose the
    output, execute. Any failure ends the run with a fatal outcome. */
module Renderer {
  import opened Wrappers
  import opened Flags

  /** What `os.Stat(tmplFile)` reported; only "does not exist" stops the run. */
  datatype StatOutcome = Exists | NotExist | OtherStatError

  /** What the library steps of one run report: the stat of the template,
      whether `ParseFiles` and `os.Create` succeed, and whether `Execute`
      (with every helper it calls) completes. */
  datatype World = World(templateStat: StatOutcome, parseOk: bool, createOk: bool, executeOk: bool)

  /** Where the rendered text goes. */
  datatype Sink = Stdout | OutFile(path: string)

  /** Why the run stops with `log.Fatal`. */
  datatype Failure =
    | NoTemplate
    | TemplateNotFound(path: string)
    | ParseFailed(path: string)
    | CreateFailed(path: string)
    | ExecuteFailed

  datatype Outcome = Rendered(template: string, sink: Sink) | Fatal(failure: Failure)

  /** The message `log.Fatal` prints for a failure whose text the program
      fixes; the others carry the library's error text, which is not modelled. */
  function Message(f: Failure): (m: Option<string>)
    ensures m.Some? <==> f == NoTemplate
    ensures f == NoTemplate ==> m == Some("Please provide a template")
  {
    if f == NoTemplate then Some("Please provide a template") else None
  }

  /** The flag set after parsing: the one flag `out`, default "", holding the
      command-line value and marked changed when `--out` was given. */
  function ParsedFlags(out: Option<string>): (flags: seq<Flag>)
    ensures WellFormed(flags)
    ensures |flags| == 1 && flags[0].name == "out" && flags[0].changed == out.Some?
    ensures flags[0].value == if out.Some? then out.value else ""
  {
    [Flag("out", if out.Some? then out.value else "", out.Some?)]
  }

  /** `trc.outputPath`, the variable the `out` flag is bound to: the value of
      the flag named `out`, or the default "" when the set has none. */
  function OutputPath(flags: seq<Flag>): (p: string)
    ensures (exists i :: 0 <= i < |flags| && flags[i].name == "out") ==>
      exists i :: 0 <= i < |flags| && flags[i].name == "out" && flags[i].value == p
    ensures (forall i :: 0 <= i < |flags| ==> flags[i].name != "out") ==> p == ""
  {
    match Lookup(flags, "out")
    case Some(v) => v
    case None => ""
  }

  /** The template is the first positional argument; there must be one. */
  function SelectTemplate(args: seq<string>): (r: Result<string, Failure>)
    ensures r.Err? <==> |args| < 1
    ensures r.Err? ==> r.error == NoTemplate
    ensures r.Ok? ==> r.value == args[0]
  {
    if |args| < 1 then Err(NoTemplate) else Ok(args[0])
  }

  /** The writer: the created file when the output path is set, standard
      output otherwise. */
  function ChooseSink(outputPath: string, createOk: bool): (r: Result<Sink, Failure>)
    ensures r == Ok(Stdout) <==> outputPath == ""
    ensures r == Ok(OutFile(outputPath)) <==> outputPath != "" && createOk
    ensures r.Err? ==> r.error == CreateFailed(outputPath)
    ensures r.Ok? ==> r.value == Stdout || r.value == OutFile(outputPath)
  {
    if outputPath != "" then
      if createOk then Ok(OutFile(outputPath)) else Err(CreateFailed(outputPath))
    else Ok(Stdout)
  }

  /** The outcome of one run, step by step. It renders only when there is a
      template argument and no library step fails, and then renders `args[0]`. */
  function Render(out: Option<string>, args: seq<string>, env: Env, world: World): (o: Outcome)
    ensures o.Rendered? <==>
      |args| >= 1 && world.templateStat != NotExist && world.parseOk && world.executeOk &&
      (OutputPath(EnvFallback(CliName, env, ParsedFlags(out))) == "" || world.createOk)
    ensures o.Rendered? ==> o.template == args[0]
  {
    var flags := EnvFallback(CliName, env, ParsedFlags(out));
    match SelectTemplate(args)
    case Err(f) => Fatal(f)
    case Ok(tmplFile) =>
      if world.templateStat == NotExist then Fatal(TemplateNotFound(tmplFile))
      else if !world.parseOk then Fatal(ParseFailed(tmplFile))
      else match ChooseSink(OutputPath(flags), world.createOk)
        case Err(f) => Fatal(f)
        case Ok(sink) => if world.executeOk then Rendered(tmplFile, sink) else Fatal(ExecuteFailed)
  }

  /** `main`, run on the parsed `--out` value, the positional arguments, the
      environment and the outcomes of the library steps. */
  method Run(out: Option<string>, args: seq<string>, env: Env, world: World) returns (o: Outcome)
    ensures o == Render(out, args, env, world)
  {
    var fs := new FlagSet(ParsedFlags(out));
    fs.ApplyEnvFallback(CliName, env);
    if |args| < 1 {
      return Fatal(NoTemplate);
    }
    var tmplFile := args[0];
    if world.templateStat == NotExist {
      return Fatal(TemplateNotFound(tmplFile));
    }
    if !world.parseOk {
      return Fatal(ParseFailed(tmplFile));
    }
    var outputPath := OutputPath(fs.flags);
    var writer: Sink;
    if outputPath != "" {
      if !world.createOk {
        return Fatal(CreateFailed(outputPath));
      }
      writer := OutFile(outputPath);
    } else {
      writer := Stdout;
    }
    if !world.executeOk {
      return Fatal(ExecuteFailed);
    }
    o := Rendered(tmplFile, writer);
  }

  /** The output path after the fallback pass: the command-line value when
      `--out` was given (even ""), else the value of `TMPL-RENDERER_OUT`. */
  lemma OutputPathResolution(out: Option<string>, env: Env)
    ensures OutputPath(EnvFallback(CliName, env, ParsedFlags(out)))
         == if out.Some? then out.value else Getenv(env, "TMPL-RENDERER_OUT")
  {
    var flags := ParsedFlags(out);
    OutKey();
    EnvFallbackAt(CliName, env, flags, 0);
  }

  /** With no positional argument the run stops before anything else, with
      "Please provide a template", whatever the flags, environment and files. */
  lemma NoTemplateIsFatal(out: Option<string>, env: Env, world: World)
    ensures Render(out, [], env, world) == Fatal(NoTemplate)
    ensures Message(Render(out, [], env, world).failure) == Some("Please provide a template")
  {
  }

  /** Only the first positional argument is used. */
  lemma ExtraArgumentsIgnored(out: Option<string>, args: seq<string>, env: Env, world: World)
    requires |args| >= 1
    ensures Render(out, args, env, world) == Render(out, args[..1], env, world)
  {
  }

  /** When every step succeeds the template is rendered to the file named by
      the resolved output path, or to standard output when that path is "". */
  lemma RenderedSink(out: Option<string>, args: seq<string>, env: Env, tmplStat: StatOutcome)
    requires |args| >= 1 && tmplStat != NotExist
    ensures Render(out, args, env, World(tmplStat, true, true, true)) == Rendered(args[0],
      var p := if out.Some? then out.value else Getenv(env, "TMPL-RENDERER_OUT");
      if p == "" then Stdout else OutFile(p))
  {
    OutputPathResolution(out, env);
  }

  /** `--out` given on the command line decides the output whatever the
      environment holds. */
  lemma ExplicitOutWins(v: string, args: seq<string>, env: Env, env': Env, world: World)
    ensures Render(Some(v), args, env, world) == Render(Some(v), args, env', world)
  {
    OutputPathResolution(Some(v), env);
    OutputPathResolution(Some(v), env');
  }

  /** Without `--out`, a non-empty `TMPL-RENDERER_OUT` sends the output to that file. */
  lemma EnvFillsOut(args: seq<string>, env: Env, path: string)
    requires |args| >= 1 && path != ""
    requires "TMPL-RENDERER_OUT" in env && env["TMPL-RENDERER_OUT"] == path
    ensures Render(None, args, env, World(Exists, true, true, true)) == Rendered(args[0], OutFile(path))
  {
    RenderedSink(None, args, env, Exists);
  }

  /** The underscore-only name `TMPL_RENDERER_OUT` is not the key the code
      builds, so setting only it leaves the output on standard output. */
  lemma UnderscoreKeyNotConsulted(args: seq<string>, path: string)
    requires |args| >= 1
    ensures Render(None, args, map["TMPL_RENDERER_OUT" := path], World(Exists, true, true, true))
         == Rendered(args[0], Stdout)
  {
    var env := map["TMPL_RENDERER_OUT" := path];
    RenderedSink(None, args, env, Exists);
    assert "TMPL-RENDERER_OUT" != "TMPL_RENDERER_OUT" by {
      assert "TMPL-RENDERER_OUT"[4] != "TMPL_RENDERER_OUT"[4];
    }
  }

  /** Every failure is terminal: a fatal outcome names the first step that
      failed, in the order `main` runs them. */
  lemma FirstFailureWins(out: Option<string>, args: seq<string>, env: Env, world: World)
    requires |args| >= 1
    ensures var path := OutputPath(EnvFallback(CliName, env, ParsedFlags(out)));
      && (world.templateStat == NotExist ==> Render(out, args, env, world) == Fatal(TemplateNotFound(args[0])))
      && (world.templateStat != NotExist && !world.parseOk ==>
            Render(out, args, env, world) == Fatal(ParseFailed(args[0])))
      && (world.templateStat != NotExist && world.parseOk && path != "" && !world.createOk ==>
            Render(out, args, env, world) == Fatal(CreateFailed(path)))
      && (world.templateStat != NotExist && world.parseOk && (path == "" || world.createOk) && !world.executeOk ==>
            Render(out, args, env, world) == Fatal(ExecuteFailed))
  {
  }
}
