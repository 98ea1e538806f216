# tmpl-renderer, modelled in Dafny

`tmpl-renderer` renders one Go `text/template` file, once, to standard output
or to the file named by `--out`. Around the template engine it has a small
amount of decision logic, and this project models and proves that logic:

- the normalise func given to pflag, which turns every `_` of a flag name into `-`;
- the environment key of a flag, `ToUpper(cliName + "_" + Replace(name, "-", "_"))`;
- the `VisitAll` pass that fills every flag left unset on the command line from
  its environment variable when that variable is non-empty;
- the choice of template (the first positional argument, which must exist) and of
  output (the file at the output path when it is non-empty, standard output otherwise);
- the `getStdin` helper, which captures standard input once, and only when it is a named pipe;
- the integer helpers `add` and `sub` on Go's 64-bit `int`, which wrap around;
- the two error policies of the file and gzip helpers: the current variant
  (`cmd/tmpl-renderer/main.go`) ends the process, the older one (`main.go`)
  returns `""` or nil.

Library calls (`os.Stat`, `ioutil.ReadFile`, `os.Create`, gzip, `json.Marshal`,
`strconv.Atoi`, the `sops` command, template parsing and execution) are not
modelled: their outcomes are inputs to the model (`World`, `Files`,
`Decryptions`, `GzipRun`, `Option` results, `Stdin.Source`).

Modules: `Wrappers` (Option, Result), `GoStrings` (`strings.Replace`,
`strings.ToUpper`), `GoBytes` (bytes and `string(b)`), `GoInt` (64-bit `int`),
`Flags` (normalise func, environment key, `VisitAll` pass, the `FlagSet` class
updated in place), `Stdin` (the once-cache as a class over an abstract
standard input), `Funcs` (the helpers of the current variant), `Renderer`
(the current `main`), `Legacy` (the older `main.go`: its helpers and its `main`).

The flag handling of `main.go` (lines 25-52) is the same code as that of
`cmd/tmpl-renderer/main.go` (lines 50-87), so the members of `Flags` model both.

**The key of `--out` keeps a hyphen.** The tool is described as reading
`TMPL_RENDERER_OUT` for `--out`. The code only rewrites the hyphens of the flag
name, not those of `cliName` (`tmpl-renderer`), so the key it builds and reads is
`TMPL-RENDERER_OUT`. The model follows the code: `Flags.OutKey` proves the key,
and `Renderer.UnderscoreKeyNotConsulted` proves that setting only
`TMPL_RENDERER_OUT` leaves the output on standard output.

## Model

| member | source | states |
|---|---|---|
| `GoStrings.ReplaceAll` | cmd/tmpl-renderer/main.go:53 | `strings.Replace(s, old, new, -1)` for one character: same length, each occurrence replaced, every other character kept in place |
| `GoStrings.ReplaceAllAbsent` | cmd/tmpl-renderer/main.go:52-55 | replacing a character that does not occur returns the string unchanged |
| `GoStrings.UpperChar` | cmd/tmpl-renderer/main.go:75 | one character upper-cased: never an ASCII lower-case letter; a lower-case letter moves down by 32, anything else is kept |
| `GoStrings.ToUpper` | cmd/tmpl-renderer/main.go:75 | `strings.ToUpper`: same length, each character upper-cased in place |
| `GoStrings.ToUpperConcat` | cmd/tmpl-renderer/main.go:75-81 | upper-casing a join is joining the upper-cased parts |
| `GoBytes.ToString` | cmd/tmpl-renderer/main.go:124 | `string(d)`: one character per byte, with the byte's value |
| `GoBytes.FromString` | cmd/tmpl-renderer/main.go:124 | the inverse conversion, byte by byte |
| `GoBytes.BytesRoundTrip` | cmd/tmpl-renderer/main.go:124 | converting bytes to a string and back gives the same bytes |
| `GoInt.Wrap` | cmd/tmpl-renderer/main.go:162-168 | the 64-bit int congruent to a mathematical integer modulo 2^64; an in-range value is unchanged |
| `GoInt.Add` | cmd/tmpl-renderer/main.go:162-164 | `add`: the true sum when it fits in 64 bits, the sum minus or plus 2^64 on overflow |
| `GoInt.Sub` | cmd/tmpl-renderer/main.go:166-168 | `sub`: the true difference when it fits, off by exactly 2^64 on overflow |
| `GoInt.SubAddInverse` | cmd/tmpl-renderer/main.go:162-168 | `sub(add(a, b), b) == a` for all ints, overflow included |
| `GoInt.AddSubInverse` | cmd/tmpl-renderer/main.go:162-168 | `add(sub(a, b), b) == a` for all ints, overflow included |
| `Flags.Getenv` | cmd/tmpl-renderer/main.go:82 | `os.Getenv`: the variable's value when set, "" when not |
| `Flags.Normalize` | cmd/tmpl-renderer/main.go:50-57 | the normalise func: the result has no `_`, the same length, each `_` became `-` and every other character is kept |
| `Flags.NormalizeFixedPoints` | cmd/tmpl-renderer/main.go:52-55 | a name is returned as it is exactly when it has no `_`; normalising is idempotent |
| `Flags.EnvKey` | cmd/tmpl-renderer/main.go:75-81 | the key has length `len(cliName) + 1 + len(name)` and no ASCII lower-case letter |
| `Flags.EnvKeyParts` | cmd/tmpl-renderer/main.go:75-81 | the key is upper(cliName) + `_` + upper(name with `-` turned into `_`) |
| `Flags.UpperCliName` | cmd/tmpl-renderer/main.go:25 | upper-casing `tmpl-renderer` keeps its hyphen: `TMPL-RENDERER` |
| `Flags.EnvKeyPrefix` | cmd/tmpl-renderer/main.go:75-81 | every key of this program is `TMPL-RENDERER_` + upper(name with `-` turned into `_`) |
| `Flags.EnvKeySuffixHasNoHyphen` | cmd/tmpl-renderer/main.go:78 | the part of the key after `cliName` and `_` holds no `-` |
| `Flags.OutKey` | cmd/tmpl-renderer/main.go:75-81 | the key read for `out` is `TMPL-RENDERER_OUT`, not `TMPL_RENDERER_OUT` |
| `Flags.EnvKeyIgnoresNormalization` | cmd/tmpl-renderer/main.go:50-81 | a name and its normalised form have the same key |
| `Flags.Visit` | cmd/tmpl-renderer/main.go:73-87 | the callback never changes a flag's name and never clears its changed mark |
| `Flags.EnvFallback` | cmd/tmpl-renderer/main.go:73-87 | the pass over all flags keeps their number |
| `Flags.EnvFallbackAt` | cmd/tmpl-renderer/main.go:73-87 | the i-th flag after the pass is the i-th flag visited by the callback |
| `Flags.EnvFallbackKeepsShape` | cmd/tmpl-renderer/main.go:73-87 | the pass keeps the number, order and names of the flags and never clears a changed mark |
| `Flags.ExplicitFlagWins` | cmd/tmpl-renderer/main.go:74 | a flag set on the command line keeps its value whatever the environment holds |
| `Flags.EmptyEnvKeepsDefault` | cmd/tmpl-renderer/main.go:82-85 | an unset flag whose variable is absent or "" keeps its default |
| `Flags.EnvOverridesDefault` | cmd/tmpl-renderer/main.go:82-85 | an unset flag whose variable is non-empty ends up with exactly that value and marked changed, its name kept |
| `Flags.EnvFallbackIdempotent` | cmd/tmpl-renderer/main.go:73-87 | running the pass twice gives the result of running it once |
| `Flags.Lookup` | cmd/tmpl-renderer/main.go:48 | a value is found exactly when some flag has the name, and it is that flag's value |
| `Flags.FlagSet.constructor` | cmd/tmpl-renderer/main.go:47-48 | the flag set holds the parsed flags, names normalised and unique |
| `Flags.FlagSet.Set` | cmd/tmpl-renderer/main.go:84 | `fs.Set`: the flag with the normalised name takes the value and is marked changed, all others are unchanged; `found` says whether there was one |
| `Flags.FlagSet.ApplyEnvFallback` | cmd/tmpl-renderer/main.go:73-87 | the in-place `VisitAll` loop leaves exactly `EnvFallback` of the old flags |
| `Stdin.Captured` | cmd/tmpl-renderer/main.go:174-188 | the buffer gets the read data when stdin is a named pipe and stat and read succeed, and stays empty otherwise |
| `Stdin.IsNamedPipe` | cmd/tmpl-renderer/main.go:179 | `fi.Mode()&os.ModeNamedPipe != 0`: holds exactly when bit 25 of the mode is set |
| `Stdin.Source.constructor` | cmd/tmpl-renderer/main.go:174 | a fresh standard input, not yet read |
| `Stdin.Source.Stat` | cmd/tmpl-renderer/main.go:174 | `os.Stdin.Stat()` reports the source's stat outcome |
| `Stdin.Source.ReadAll` | cmd/tmpl-renderer/main.go:183 | a read returns what is pending, drains the pipe and counts one read |
| `Stdin.Cache.constructor` | cmd/tmpl-renderer/main.go:170-171 | an empty buffer with its guard not yet done |
| `Stdin.Cache.Get` | cmd/tmpl-renderer/main.go:172-192 | `getStdin`: every call returns the bytes the first call captured; the first call reads stdin exactly once when its stat succeeds and shows a named pipe, and never otherwise; a later call leaves the buffer, its guard and stdin unchanged |
| `Stdin.GetTwice` | cmd/tmpl-renderer/main.go:172-192 | two calls in one run return identical bytes; stdin was read once if it is a named pipe whose stat succeeded, and not at all otherwise |
| `Funcs.ReadFile` | cmd/tmpl-renderer/main.go:120 | `ioutil.ReadFile` succeeds exactly on readable paths and returns their bytes |
| `Funcs.GetFileContentBytes` | cmd/tmpl-renderer/main.go:127-133 | the bytes of the path joined to the template's directory; an unreadable file is fatal |
| `Funcs.GetFileContent` | cmd/tmpl-renderer/main.go:119-125 | the same file as text; an unreadable file is fatal |
| `Funcs.ReadsSiblingNotWorkingDir` | cmd/tmpl-renderer/main.go:97 | a relative path reads the template's sibling, whatever the working directory holds under that name |
| `Funcs.ContentAgreesWithBytes` | cmd/tmpl-renderer/main.go:119-133 | the text helper succeeds exactly when the bytes helper does, with the same content as text |
| `Funcs.Gzip` | cmd/tmpl-renderer/main.go:135-147 | the compressed bytes when `Write` and `Close` succeed; a `Write` failure, else a `Close` failure, is fatal |
| `Funcs.EncodeJSON` | cmd/tmpl-renderer/main.go:111-117 | the marshalled text, or fatal when marshalling fails |
| `Funcs.ToInt` | cmd/tmpl-renderer/main.go:153-160 | the parsed int, or fatal naming the string when `Atoi` rejects it |
| `Funcs.SopsDecrypt` | cmd/tmpl-renderer/main.go:194-204 | the output of `sops -d` on the path joined to the template's directory; a failed run is fatal |
| `Renderer.ParsedFlags` | cmd/tmpl-renderer/main.go:44-48 | the one declared flag `out`, holding the `--out` value when given and the default "" otherwise, marked changed exactly when `--out` was given |
| `Renderer.Message` | cmd/tmpl-renderer/main.go:92 | the fixed fatal message "Please provide a template" belongs to the missing-template failure and to no other |
| `Renderer.OutputPath` | cmd/tmpl-renderer/main.go:214 | `trc.outputPath` is the value of the flag named `out` when the set has one, and "" otherwise |
| `Renderer.SelectTemplate` | cmd/tmpl-renderer/main.go:90-96 | fatal "Please provide a template" exactly when there is no positional argument, else the first one |
| `Renderer.ChooseSink` | cmd/tmpl-renderer/main.go:213-224 | standard output exactly when the output path is ""; the file exactly when the path is set and can be created; otherwise fatal |
| `Renderer.Render` | cmd/tmpl-renderer/main.go:89-229 | a run renders exactly when there is a template argument and no step fails, and it renders `args[0]` |
| `Renderer.Run` | cmd/tmpl-renderer/main.go:43-230 | `main` step by step, flag set updated in place, ends in the outcome `Render` gives |
| `Renderer.OutputPathResolution` | cmd/tmpl-renderer/main.go:73-87 | the output path is the `--out` value when given (even ""), else `TMPL-RENDERER_OUT` |
| `Renderer.NoTemplateIsFatal` | cmd/tmpl-renderer/main.go:90-93 | no positional argument is fatal whatever flags, environment and files, with the message "Please provide a template" |
| `Renderer.ExtraArgumentsIgnored` | cmd/tmpl-renderer/main.go:96 | only the first positional argument matters |
| `Renderer.RenderedSink` | cmd/tmpl-renderer/main.go:213-224 | when every step succeeds the output goes to the resolved path's file, or to standard output when it is "" |
| `Renderer.ExplicitOutWins` | cmd/tmpl-renderer/main.go:74 | with `--out` given, the environment cannot change the outcome |
| `Renderer.EnvFillsOut` | cmd/tmpl-renderer/main.go:82-85 | without `--out`, a non-empty `TMPL-RENDERER_OUT` sends the output to that file |
| `Renderer.UnderscoreKeyNotConsulted` | cmd/tmpl-renderer/main.go:75-81 | setting only `TMPL_RENDERER_OUT` leaves the output on standard output |
| `Renderer.FirstFailureWins` | cmd/tmpl-renderer/main.go:100-229 | a missing template, then a parse failure, then a failure to create the set output file, then an execution failure, each stops the run with its own fatal outcome |
| `Legacy.GetFileContent` | main.go:72-78 | the text of the path as given, or "" when it cannot be read |
| `Legacy.GetFileContentBytes` | main.go:79-85 | the bytes of the path as given, or nil when it cannot be read |
| `Legacy.Gzip` | main.go:86-98 | the compressed bytes, or nil when `Write` or `Close` fails |
| `Legacy.GzipPolicies` | main.go:86-98 | the old gzip returns nil exactly where the current one is fatal, and the same bytes otherwise |
| `Legacy.ReadsWorkingDirectory` | main.go:72-85 | the old file helpers ignore the template's directory |
| `Legacy.ContentAgreesWithBytes` | main.go:72-85 | the old text helper is the bytes helper as text, with nil read as "" |
| `Legacy.Render` | main.go:54-112 | a run renders exactly when there is a template argument and no step fails, always to standard output |
| `Legacy.Run` | main.go:22-113 | the old `main` step by step; its outcome does not depend on the environment |
| `Legacy.NoTemplateIsFatal` | main.go:55-58 | no positional argument is fatal |
| `Legacy.AgreesWithCurrentOnStdout` | main.go:110 | when the current variant renders to standard output, the old one renders the same |

## Left out

- Template parsing and execution (`ParseFiles`, `Execute`) are not modelled; their success is an input (`World`), and so is any helper failure during execution.
- gzip compression, base64 encoding (`encodeBase64` never fails and only returns the library's text, so it has no member), `json.Marshal` and `strconv.Atoi` are library calls; their results are inputs.
- Filesystem and process I/O (`os.Stat`, `ioutil.ReadFile`, `os.Create`, running `sops`, stat and read of stdin) are inputs: maps of readable files and successful decryptions, and abstract stat and read outcomes.
- `path.Join` and `path.Dir` are not interpreted: a joined path keeps its directory and relative part, so lexical cleaning is not modelled. In particular `Joined(DirOf(t), rel)` and `Plain(rel)` are always different keys, while in the program they name the same file when the template sits in the working directory (`path.Join(".", rel)` is `rel`); `Funcs.ReadsSiblingNotWorkingDir` and `Legacy.ReadsWorkingDirectory` therefore also range over file maps that give such a file two contents.
- pflag's own command-line parsing is not modelled; the model starts from the parsed flags (name, value, changed).
- `VisitAll` visits flags in lexicographic order of name; the model visits them in the order of the sequence, which is the same result because each visit touches only its own flag.
- The `getenv` / `getEnv` helpers are `os.Getenv` itself (`Flags.Getenv`); the helper map as a whole is not modelled as a value.
- GoStrings.ToUpper: maps ASCII letters only; Go also upper-cases non-ASCII letters, which flag names and the program name do not contain.
- GoInt.Add: models Go's `int` as 64 bits; on a 32-bit platform it would wrap at 2^32.
- GoInt.Sub: the same 64-bit assumption as `GoInt.Add`.
- `sync.Once` is modelled by a boolean guard; evaluation is single-threaded.
- `log.Fatal` is a `Fatal` outcome; the exit status, the message text other than "Please provide a template", and the skipped deferred `Close` are not modelled.
- Usage and version printing (`fs.Usage`) are not modelled.
- Partial output left in the sink by a failed execution is not modelled.
