/** The template helpers of the current variant that touch the outside world.
    Every library call is an abstract input; every failure is fatal. */
module Funcs {
  import opened Wrappers
  import opened GoBytes
  import opened GoInt

  /** `path.Dir(file)`, kept uninterpreted: the base directory relative paths
      are resolved against. */
  datatype Dir = DirOf(file: string)

  /** A path as a helper hands it to the operating system: either the string
      the template gave, or `path.Join(dir, rel)`, kept as its two parts. */
  datatype FilePath = Plain(path: string) | Joined(dir: Dir, rel: string)

  /** The readable files and their contents; reading a path that is not here fails. */
  type Files = map<FilePath, Bytes>

  /** The paths on which `sops -d <path>` exits with status 0, and its standard output. */
  type Decryptions = map<FilePath, Bytes>

  /** Why a helper ends the process with `log.Fatalf`. */
  datatype Fatal =
    | ReadError(path: FilePath)
    | MarshalError
    | GzipWriteError
    | GzipCloseError
    | AtoiError(s: string)
    | SopsError(path: FilePath)

  /** What `compress/gzip` did for one input: whether `Write` and `Close`
      returned nil, and the bytes in the buffer afterwards. */
  datatype GzipRun = GzipRun(writeOk: bool, closeOk: bool, output: Bytes)

  /** `ioutil.ReadFile`. */
  function ReadFile(files: Files, p: FilePath): (r: Result<Bytes, FilePath>)
    ensures r.Ok? <==> p in files
    ensures r.Ok? ==> r.value == files[p]
    ensures r.Err? ==> r.error == p
  {
    if p in files then Ok(files[p]) else Err(p)
  }

  /** `getFileContentBytes`: the bytes of `rel` resolved against the template's
      directory; an unreadable file is fatal. */
  function GetFileContentBytes(files: Files, tmplFile: string, rel: string): (r: Result<Bytes, Fatal>)
    ensures r.Ok? <==> Joined(DirOf(tmplFile), rel) in files
    ensures r.Ok? ==> r.value == files[Joined(DirOf(tmplFile), rel)]
    ensures r.Err? ==> r.error == ReadError(Joined(DirOf(tmplFile), rel))
  {
    match ReadFile(files, Joined(DirOf(tmplFile), rel))
    case Ok(d) => Ok(d)
    case Err(p) => Err(ReadError(p))
  }

  /** `getFileContent`: the same file as text. */
  function GetFileContent(files: Files, tmplFile: string, rel: string): (r: Result<string, Fatal>)
    ensures r.Ok? <==> Joined(DirOf(tmplFile), rel) in files
    ensures r.Ok? ==> r.value == ToString(files[Joined(DirOf(tmplFile), rel)])
    ensures r.Err? ==> r.error == ReadError(Joined(DirOf(tmplFile), rel))
  {
    match ReadFile(files, Joined(DirOf(tmplFile), rel))
    case Ok(d) => Ok(ToString(d))
    case Err(p) => Err(ReadError(p))
  }

  /** A relative path names the template's sibling, not a file of the working
      directory: the result depends only on the joined path. */
  lemma ReadsSiblingNotWorkingDir(files: Files, tmplFile: string, rel: string, other: Bytes)
    requires Joined(DirOf(tmplFile), rel) in files
    ensures GetFileContent(files[Plain(rel) := other], tmplFile, rel)
         == Ok(ToString(files[Joined(DirOf(tmplFile), rel)]))
  {
  }

  /** `gzip`: the compressed bytes, or fatal when `Write` or `Close` fails
      (`Write` is checked first). */
  function Gzip(compress: Bytes -> GzipRun, input: Bytes): (r: Result<Bytes, Fatal>)
    ensures r.Ok? <==> compress(input).writeOk && compress(input).closeOk
    ensures r.Ok? ==> r.value == compress(input).output
    ensures !compress(input).writeOk ==> r == Err(GzipWriteError)
    ensures compress(input).writeOk && !compress(input).closeOk ==> r == Err(GzipCloseError)
  {
    var run := compress(input);
    if !run.writeOk then Err(GzipWriteError)
    else if !run.closeOk then Err(GzipCloseError)
    else Ok(run.output)
  }

  /** `encodeJSON`: the marshalled text, or fatal when `json.Marshal` fails. */
  function EncodeJSON(marshalled: Option<Bytes>): (r: Result<string, Fatal>)
    ensures r.Ok? <==> marshalled.Some?
    ensures r.Ok? ==> r.value == ToString(marshalled.value)
  {
    match marshalled
    case Some(d) => Ok(ToString(d))
    case None => Err(MarshalError)
  }

  /** `toInt`: the parsed int, or fatal when `strconv.Atoi` rejects the string. */
  function ToInt(atoi: string -> Option<Int>, s: string): (r: Result<Int, Fatal>)
    ensures r.Ok? <==> atoi(s).Some?
    ensures r.Ok? ==> r.value == atoi(s).value
    ensures r.Err? ==> r.error == AtoiError(s)
  {
    match atoi(s)
    case Some(i) => Ok(i)
    case None => Err(AtoiError(s))
  }

  /** `sopsDecrypt`: the standard output of `sops -d` run on `rel` resolved
      against the template's directory; a non-zero exit is fatal. */
  function SopsDecrypt(decryptions: Decryptions, tmplFile: string, rel: string): (r: Result<Bytes, Fatal>)
    ensures r.Ok? <==> Joined(DirOf(tmplFile), rel) in decryptions
    ensures r.Ok? ==> r.value == decryptions[Joined(DirOf(tmplFile), rel)]
    ensures r.Err? ==> r.error == SopsError(Joined(DirOf(tmplFile), rel))
  {
    var p := Joined(DirOf(tmplFile), rel);
    if p in decryptions then Ok(decryptions[p]) else Err(SopsError(p))
  }

  /** The text helper is the bytes helper followed by `string(...)`. */
  lemma ContentAgreesWithBytes(files: Files, tmplFile: string, rel: string)
    ensures GetFileContent(files, tmplFile, rel).Ok? == GetFileContentBytes(files, tmplFile, rel).Ok?
    ensures GetFileContent(files, tmplFile, rel).Ok? ==>
      GetFileContent(files, tmplFile, rel).value == ToString(GetFileContentBytes(files, tmplFile, rel).value)
  {
  }
}
