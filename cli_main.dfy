/** The command (cmd/pkgen/main.go): build the configuration from the
    environment, the configuration file and two flags, query packages,
    resolve templates, and generate every (package, template) pair with the
    default output settings. A call to os.Exit(1) is an error result. */
module PkgenMain {
  import opened Wrappers
  import opened Host
  import opened Templates
  import opened Generate
  import opened PkgenConfig

  /** The parsed flags: -config (or -c), -template and -template-custom. */
  datatype Flags = Flags(config: string, template: string, templateCustom: string)

  /** runningInsideGoGenerate: GOFILE is set, whatever its value. */
  predicate RunningInsideGoGenerate(env: map<string, string>) {
    "GOFILE" in env
  }

  /** Only the presence of GOFILE decides the mode: any value, the empty one
      included, selects go:generate mode, and no other variable matters. */
  lemma GoGenerateMode(env: map<string, string>, key: string, value: string)
    ensures RunningInsideGoGenerate(env["GOFILE" := value])
    ensures !RunningInsideGoGenerate(env - {"GOFILE"})
    ensures key != "GOFILE" ==>
      RunningInsideGoGenerate(env[key := value]) == RunningInsideGoGenerate(env)
  {
  }

  /** yaml.Unmarshal of a file's bytes into an existing Config, left abstract. */
  type Unmarshaller = (string, Config) -> Result<Config, string>

  /** parseConfig with its target passed in and returned: a missing or
      unreadable file leaves it as it was; a YAML error ends the process
      (the error result). */
  function ParseConfig(filePath: string, fsys: FileSystem, clean: Cleaner, unmarshal: Unmarshaller, cnf: Config): (r: Result<Config, Error>)
    ensures StatNotExist(fsys, clean(filePath)) ==> r == Ok(cnf)
    ensures ReadFile(fsys, clean(filePath)).Err? ==> r == Ok(cnf)
    ensures ReadFile(fsys, clean(filePath)).Ok? ==>
      r == (match unmarshal(ReadFile(fsys, clean(filePath)).value, cnf)
            case Ok(c) => Ok(c)
            case Err(m) => Err(YamlFailed(m)))
    ensures r.Err? ==> r.error.YamlFailed?
  {
    var path := clean(filePath);
    if StatNotExist(fsys, path) then Ok(cnf)
    else
      match ReadFile(fsys, path)
      case Err(_) => Ok(cnf)
      case Ok(b) =>
        match unmarshal(b, cnf)
        case Err(m) => Err(YamlFailed(m))
        case Ok(c) => Ok(c)
  }

  /** The flag override rule: -template replaces the list by one name
      reference, then -template-custom appends one file reference. */
  function ApplyTemplateFlags(configured: TemplateConfigs, template: string, templateCustom: string): (r: TemplateConfigs)
    ensures template == "" && templateCustom == "" ==> r == configured
    ensures template != "" && templateCustom == "" ==> r == [TemplateConfig(template, "")]
    ensures template == "" && templateCustom != "" ==> r == configured + [TemplateConfig("", templateCustom)]
    ensures template != "" && templateCustom != "" ==> r == [TemplateConfig(template, ""), TemplateConfig("", templateCustom)]
    ensures templateCustom != "" ==> |r| > 0 && r[|r| - 1] == TemplateConfig("", templateCustom)
  {
    var named := if template != "" then [TemplateConfig(template, "")] else configured;
    if templateCustom != "" then named + [TemplateConfig("", templateCustom)] else named
  }

  /** The configuration `main` ends up with after line 50. */
  function ConfigOf(env: map<string, string>, flags: Flags, fsys: FileSystem, clean: Cleaner, unmarshal: Unmarshaller): (r: Result<Config, Error>)
    ensures RunningInsideGoGenerate(env) ==> r.Ok?
    ensures RunningInsideGoGenerate(env) ==>
      r.value.packagesQuery == ZeroQuery.(patterns := ["."]) && r.value.generate == ZeroGenerateConfig
    ensures RunningInsideGoGenerate(env) ==>
      r.value.templates == ApplyTemplateFlags([], flags.template, flags.templateCustom)
    ensures !RunningInsideGoGenerate(env) && ReadFile(fsys, clean(flags.config)).Err? ==>
      r == Ok(ZeroConfig.(templates := ApplyTemplateFlags([], flags.template, flags.templateCustom)))
    ensures !RunningInsideGoGenerate(env) && ReadFile(fsys, clean(flags.config)).Ok? ==>
      var parsed := unmarshal(ReadFile(fsys, clean(flags.config)).value, ZeroConfig);
      r == (match parsed
            case Ok(c) => Ok(c.(templates := ApplyTemplateFlags(c.templates, flags.template, flags.templateCustom)))
            case Err(m) => Err(YamlFailed(m)))
  {
    var base := if RunningInsideGoGenerate(env) then Ok(ZeroConfig.(packagesQuery := ZeroQuery.(patterns := ["."])))
                else ParseConfig(flags.config, fsys, clean, unmarshal, ZeroConfig);
    match base
    case Err(e) => Err(e)
    case Ok(c) => Ok(c.(templates := ApplyTemplateFlags(c.templates, flags.template, flags.templateCustom)))
  }

  /** Lines 31-50 of main, field by field. */
  method LoadConfig(env: map<string, string>, flags: Flags, fsys: FileSystem, clean: Cleaner, unmarshal: Unmarshaller)
    returns (r: Result<Config, Error>)
    ensures r == ConfigOf(env, flags, fsys, clean, unmarshal)
  {
    var cnf := ZeroConfig;
    if RunningInsideGoGenerate(env) {
      // inside go:generate only the local package is queried
      cnf := cnf.(packagesQuery := cnf.packagesQuery.(patterns := ["."]));
    } else {
      var parsed := ParseConfig(flags.config, fsys, clean, unmarshal, cnf);
      if parsed.Err? {
        return Err(parsed.error);
      }
      cnf := parsed.value;
    }
    if flags.template != "" {
      cnf := cnf.(templates := [TemplateConfig(flags.template, "")]);
    }
    if flags.templateCustom != "" {
      cnf := cnf.(templates := cnf.templates + [TemplateConfig("", flags.templateCustom)]);
    }
    return Ok(cnf);
  }

  /** Package discovery, left abstract. */
  type PackageQuery = PackagesQueryConfig -> Result<seq<Package>, Error>

  /** main: the returned error is the one printed before os.Exit(1); None
      is a normal exit. */
  method RunCommand(env: map<string, string>, flags: Flags, fsys: FileSystem, bundle: FileSystem, clean: Cleaner,
                    unmarshal: Unmarshaller, engine: Engine, query: PackageQuery, disk: Disk)
    returns (exit: Option<Error>)
    modifies disk
    ensures var cfg := ConfigOf(env, flags, fsys, clean, unmarshal);
      cfg.Err? ==> exit == Some(cfg.error) && disk.log == old(disk.log)
    ensures var cfg := ConfigOf(env, flags, fsys, clean, unmarshal);
      cfg.Ok? && query(cfg.value.packagesQuery).Err? ==>
        exit == Some(query(cfg.value.packagesQuery).error) && disk.log == old(disk.log)
    ensures var cfg := ConfigOf(env, flags, fsys, clean, unmarshal);
      var src := Sources(bundle, fsys, clean, engine);
      cfg.Ok? && query(cfg.value.packagesQuery).Ok? && ResolveAll(src, cfg.value.templates).Err? ==>
        exit == Some(ResolveAll(src, cfg.value.templates).error) && disk.log == old(disk.log)
    ensures var cfg := ConfigOf(env, flags, fsys, clean, unmarshal);
      var src := Sources(bundle, fsys, clean, engine);
      cfg.Ok? && query(cfg.value.packagesQuery).Ok? && ResolveAll(src, cfg.value.templates).Ok? ==>
        var run := Generated(Pairs(query(cfg.value.packagesQuery).value, ResolveAll(src, cfg.value.templates).value),
                             ZeroGenerateConfig, engine, clean, disk.rejects);
        disk.log == old(disk.log) + run.writes && exit == run.err
  {
    var cnf := LoadConfig(env, flags, fsys, clean, unmarshal);
    if cnf.Err? {
      return Some(cnf.error);
    }
    var packages := query(cnf.value.packagesQuery);
    if packages.Err? {
      return Some(packages.error);
    }
    var tmps := GetTemplates(Sources(bundle, fsys, clean, engine), cnf.value.templates);
    if tmps.Err? {
      return Some(tmps.error);
    }
    // lines 64-72: the same package-major, fail-fast loop as Generate, with GenerateConfig{}
    exit := Generate.Generate(packages.value, tmps.value, ZeroGenerateConfig, engine, clean, disk);
  }
}
