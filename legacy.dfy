/** The older variant (`main.go`): the same flag handling over a flag set that
    declares no flags, output always on standard output, and file and gzip
    helpers that swallow errors instead of ending the process. */
module Legacy {
  import opened Wrappers
  import opened GoBytes
  import opened Flags
  import Funcs
  import opened Renderer

  /** `getFileContent`: the text of `rel`, taken as given (no base directory);
      "" when the file cannot be read. */
  function GetFileContent(files: Funcs.Files, rel: string): (s: string)
    ensures Funcs.Plain(rel) in files ==> s == ToString(files[Funcs.Plain(rel)])
    ensures Funcs.Plain(rel) !in files ==> s == ""
  {
    match Funcs.ReadFile(files, Funcs.Plain(rel))
    case Ok(d) => ToString(d)
    case Err(_) => ""
  }

  /** `getFileContentBytes`: the bytes of `rel`, or nil (`None`) when the file
      cannot be read. An empty file gives an empty slice, not nil. */
  function GetFileContentBytes(files: Funcs.Files, rel: string): (b: Option<Bytes>)
    ensures b.Some? <==> Funcs.Plain(rel) in files
    ensures b.Some? ==> b.value == files[Funcs.Plain(rel)]
  {
    match Funcs.ReadFile(files, Funcs.Plain(rel))
    case Ok(d) => Some(d)
    case Err(_) => None
  }

  /** `gzip`: the compressed bytes, or nil when `Write` or `Close` fails. */
  function Gzip(compress: Bytes -> Funcs.GzipRun, input: Bytes): (b: Option<Bytes>)
    ensures b.Some? <==> compress(input).writeOk && compress(input).closeOk
    ensures b.Some? ==> b.value == compress(input).output
  {
    var run := compress(input);
    if !run.writeOk then None
    else if !run.closeOk then None
    else Some(run.output)
  }

  /** The two error policies agree wherever the current helper succeeds; where
      it ends the process, the old one returns nil. */
  lemma GzipPolicies(compress: Bytes -> Funcs.GzipRun, input: Bytes)
    ensures Gzip(compress, input) == match Funcs.Gzip(compress, input)
      case Ok(v) => Some(v)
      case Err(_) => None
  {
  }

  /** The old helpers read the path as given: what lies in the template's
      directory has no influence, and a read error gives "" / nil. */
  lemma ReadsWorkingDirectory(files: Funcs.Files, tmplFile: string, rel: string, other: Bytes)
    ensures GetFileContent(files[Funcs.Joined(Funcs.DirOf(tmplFile), rel) := other], rel) == GetFileContent(files, rel)
    ensures GetFileContentBytes(files[Funcs.Joined(Funcs.DirOf(tmplFile), rel) := other], rel) == GetFileContentBytes(files, rel)
  {
  }

  /** The text helper is the bytes helper followed by `string(...)`, with nil read as "". */
  lemma ContentAgreesWithBytes(files: Funcs.Files, rel: string)
    ensures GetFileContent(files, rel) == match GetFileContentBytes(files, rel)
      case Some(d) => ToString(d)
      case None => ""
  {
  }

  /** The outcome of one run: no flag can change it, and output always goes
      to standard output. `createOk` of the world is never consulted. */
  function Render(args: seq<string>, world: World): (o: Outcome)
    ensures o.Rendered? <==>
      |args| >= 1 && world.templateStat != NotExist && world.parseOk && world.executeOk
    ensures o.Rendered? ==> o == Rendered(args[0], Stdout)
  {
    match SelectTemplate(args)
    case Err(f) => Fatal(f)
    case Ok(tmplFile) =>
      if world.templateStat == NotExist then Fatal(TemplateNotFound(tmplFile))
      else if !world.parseOk then Fatal(ParseFailed(tmplFile))
      else if world.executeOk then Rendered(tmplFile, Stdout)
      else Fatal(ExecuteFailed)
  }

  /** `main` of the old variant. Its flag set declares no flags, so the
      environment pass visits nothing and the environment cannot matter. */
  method Run(args: seq<string>, env: Env, world: World) returns (o: Outcome)
    ensures o == Render(args, world)
  {
    var fs := new FlagSet([]);
    fs.ApplyEnvFallback(CliName, env);
    if |args| < 1 {
      return Fatal(NoTemplate);
    }
    var tmplFile := args[0];
    if world.templateStat == NotExist {
      return Fatal(TemplateNotFound(tmplFile));
    }
    if !world.parseOk {
      return Fatal(ParseFailed(tmplFile));
    }
    if !world.executeOk {
      return Fatal(ExecuteFailed);
    }
    o := Rendered(tmplFile, Stdout);
  }

  /** With no positional argument the run stops with "Please provide a template". */
  lemma NoTemplateIsFatal(world: World)
    ensures Render([], world) == Fatal(NoTemplate)
  {
  }

  /** The old variant renders exactly where the current one does when the
      current one writes to standard output. */
  lemma AgreesWithCurrentOnStdout(args: seq<string>, env: Env, world: World)
    ensures var current := Renderer.Render(None, args, env, world);
      current.Rendered? && current.sink == Stdout ==> Render(args, world) == current
  {
  }
}
