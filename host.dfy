/** The host the core runs on, reduced to what the core observes: the error
    values it creates or passes on, read-only file trees (the operating
    system's and the embedded template bundle), lexical path helpers, the
    text/template engine, discovered packages and the log of file writes. */
module Host {
  import opened Wrappers

  /** Error values of the core and of its collaborators. */
  datatype Error =
    | NotExist(path: string)            // a read or stat of a missing path (fs.ErrNotExist)
    | ReadFailed(path: string)          // any other read failure: permission, a directory, ...
    | TemplateNotFound(cause: Error)    // errors.Join(ErrTemplateNotFound, cause)
    | ParseFailed(message: string)      // text/template Parse
    | ExecFailed(message: string)       // text/template Execute
    | WriteFailed(path: string)         // os.WriteFile
    | MalformedTemplateConfigs          // templates.ErrMalformedTemplateConfigs
    | YamlFailed(message: string)       // yaml.Unmarshal
    | Collaborator(message: string)     // package discovery or another collaborator

  /** errors.Is(e, ErrTemplateNotFound). */
  predicate IsTemplateNotFound(e: Error) {
    e.TemplateNotFound?
  }

  /** What a path names in a file tree: a file that can be read, or something
      that exists (stat succeeds, or fails for a reason other than absence) but
      cannot be read. */
  datatype Entry = Readable(contents: string) | Unreadable

  /** A read-only file tree, keyed by the exact path handed to ReadFile/Stat. */
  datatype FileSystem = FileSystem(entries: map<string, Entry>)

  function ReadFile(fs: FileSystem, path: string): Result<string, Error> {
    if path !in fs.entries then Err(NotExist(path))
    else match fs.entries[path]
      case Readable(contents) => Ok(contents)
      case Unreadable => Err(ReadFailed(path))
  }

  /** The error os.Stat would report being fs.ErrNotExist. */
  predicate StatNotExist(fs: FileSystem, path: string) {
    path !in fs.entries
  }

  /** filepath.Clean is lexical and left abstract: the caller supplies it. */
  type Cleaner = string -> string

  /** filepath.Join of two elements with '/' as separator: an empty first
      element is dropped, and the joined string is cleaned (so an empty second
      element leaves `Clean(dir + "/")`). */
  function Join(clean: Cleaner, dir: string, file: string): string {
    if dir != "" then clean(dir + "/" + file)
    else if file != "" then clean(file)
    else ""
  }

  function TrimTrailingSlashes(path: string): (r: string)
    ensures |r| <= |path| && r == path[..|r|]
    ensures r == [] || r[|r| - 1] != '/'
  {
    if path != [] && path[|path| - 1] == '/' then TrimTrailingSlashes(path[..|path| - 1]) else path
  }

  /** The part of path after its last '/' (all of it when it has none). */
  function AfterLastSlash(path: string): (r: string)
    ensures '/' !in r
  {
    if path == [] then []
    else if path[|path| - 1] == '/' then []
    else AfterLastSlash(path[..|path| - 1]) + [path[|path| - 1]]
  }

  /** filepath.Base on a '/'-separated path. */
  function Base(path: string): string {
    if path == "" then "."
    else
      var p := TrimTrailingSlashes(path);
      if p == "" then "/" else AfterLastSlash(p)
  }

  /** filepath.Ext: the suffix from the last '.' of the final element, or "". */
  function Ext(path: string): (r: string)
    ensures r == [] || (r[0] == '.' && |r| <= |path| && r == path[|path| - |r|..])
  {
    if path == [] then []
    else if path[|path| - 1] == '/' then []
    else if path[|path| - 1] == '.' then ['.']
    else
      var e := Ext(path[..|path| - 1]);
      if e == [] then [] else e + [path[|path| - 1]]
  }

  /** strings.TrimSuffix. */
  function TrimSuffix(s: string, suffix: string): string {
    if |suffix| <= |s| && s[|s| - |suffix|..] == suffix then s[..|s| - |suffix|] else s
  }

  /** Trimming a suffix that is there and putting it back gives the string. */
  lemma TrimSuffixOf(s: string, suffix: string)
    requires |suffix| <= |s| && s[|s| - |suffix|..] == suffix
    ensures TrimSuffix(s, suffix) + suffix == s
  {
    assert s[..|s| - |suffix|] + s[|s| - |suffix|..] == s;
  }

  /** A compiled template: the name it was created with and its source text. */
  datatype Template = Template(name: string, text: string)

  /** A discovered package, the read-only root data value of a rendering. */
  datatype Package = Package(name: string, pkgPath: string, dir: string, goFiles: seq<string>)

  /** The text/template engine as two uninterpreted partial functions: which
      source texts fail to parse (and why) and what executing a template
      against a package yields. */
  datatype Engine = Engine(
    parseError: string -> Option<string>,
    execute: (Template, Package) -> Result<string, string>)

  /** template.New(name).Parse(text). */
  function Parse(engine: Engine, name: string, text: string): (r: Result<Template, Error>)
    ensures r.Ok? <==> engine.parseError(text).None?
    ensures r.Ok? ==> r.value == Template(name, text)
    ensures r.Err? ==> r.error == ParseFailed(engine.parseError(text).value)
  {
    match engine.parseError(text)
    case None => Ok(Template(name, text))
    case Some(message) => Err(ParseFailed(message))
  }

  /** Unix permission bits, Go's os.FileMode (a uint32). */
  newtype FileMode = m: int | 0 <= m < 0x1_0000_0000

  /** One attempted os.WriteFile call. */
  datatype Write = Write(path: string, data: string, mode: FileMode)

  /** The error os.WriteFile reports for a path: those in rejects fail. */
  function WriteOutcome(rejects: set<string>, path: string): Option<Error> {
    if path in rejects then Some(WriteFailed(path)) else None
  }

  /** The writable side of the file system: every write attempt is appended
      to log, and writes to the paths in rejects fail. */
  class Disk {
    var log: seq<Write>
    const rejects: set<string>

    constructor (rejects: set<string>)
      ensures log == [] && this.rejects == rejects
    {
      log := [];
      this.rejects := rejects;
    }

    method WriteFile(path: string, data: string, mode: FileMode) returns (err: Option<Error>)
      modifies this
      ensures log == old(log) + [Write(path, data, mode)]
      ensures err == WriteOutcome(rejects, path)
    {
      log := log + [Write(path, data, mode)];
      err := WriteOutcome(rejects, path);
    }
  }
}
