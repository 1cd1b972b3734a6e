# pkgen, modelled in Dafny

pkgen is a code generator for Go. It discovers Go packages and resolves
a list of template references. Each reference is the name of a template
bundled with the tool or the path of a template file on disk. pkgen then
renders every template against every package and writes each result into
the package's directory: `zz_generated.<template>.go` by default, with mode
0644. The first error stops the run. This project models that core:

- the template-reference decoder (`TemplateConfigs.UnmarshalYAML`);
- the two template resolvers (package `templates` and the root package's
  `Templates`);
- the generation pipeline (`GenerateInPackage`, `Generate`);
- the command's configuration rule and driver (`cmd/pkgen/main.go`);
- the `PKGen.Run` orchestration over its three collaborators.

Layout, one module per source file:

| file | module | models |
|---|---|---|
| wrappers.dfy | Wrappers | Option / Result |
| host.dfy | Host | error values, read-only file trees, path helpers, the template engine, the write log |
| templates_pkg.dfy | Templates | templates/templates.go |
| root_templates.dfy | RootTemplates | templates.go |
| generate.dfy | Generate | generate.go |
| config.dfy | PkgenConfig | the Config record of config.go |
| cli_main.dfy | PkgenMain | cmd/pkgen/main.go |
| cli_pkgen.dfy | PkgenRun | cmd/pkgen/pkgen.go |

Each imperative loop of the source is a method proved equal to a
back-recursive specification function. The contracts the source promises
are then proved about those functions:
- generation is fail-fast and package-major;
- a run succeeds iff every step succeeds;
- the first failure decides the error;
- resolved templates keep the reference order;
- decoding inverts the YAML shape of a reference list.

The file system is modelled as follows:
- Reads see a map from path to entry.
- Writes are appended to the log of a `Disk` object.
- A write fails exactly for the paths in `Disk.rejects`.
- `filepath.Clean` is a parameter (`Cleaner`).
- `filepath.Join`, `filepath.Base`, `filepath.Ext` and `strings.TrimSuffix`
  are written out for '/'-separated paths.

The text/template engine is a pair of functions: which texts fail to parse,
and what executing a template on a package yields. The YAML library and
pick's relaxed conversion are a `Raw` value tree plus an abstract `Relaxed`
record. Where a lemma needs it, `Lawful` assumes that a string converts to
itself and that a list or a mapping does not convert to a string.

## Model

| member | source | states |
|---|---|---|
| Host.Parse | templates/templates.go:27 | compiling succeeds iff the engine reports no parse error; the template carries the given name and text; a failure is a ParseFailed error with the engine's message |
| Host.Disk.WriteFile | generate.go:43 | one write attempt is appended to the log with its path, data and mode; it fails exactly when the path is rejected |
| Templates.Get | templates/templates.go:21-28 | a bundled template is read from `<name>.tmpl`; a readable file gives exactly the result of compiling its text under the name; a missing or unreadable file is a template-not-found error wrapping the read error; every error is template-not-found or a parse error |
| Templates.TemplateNameOf | templates/templates.go:36-37 | the name followed by the extension of the base element gives back the base element |
| Templates.ExtOf | templates/templates.go:36-37 | the extension of `<stem>.<ext>` is `.<ext>` when ext has no dot or slash |
| Templates.BaseOf | templates/templates.go:36 | the base element of `<dir>/<file>` is the file when the file has no slash |
| Templates.TemplateNameOfFile | templates/templates.go:36-37 | a custom file `<dir>/<stem>.<ext>` yields a template named `<stem>` |
| Templates.CustomTemplateExample | templates/templates.go:36-37 | the path `./custom.tmpl` yields the template name `custom` |
| Templates.CustomTemplate | templates/templates.go:30-40 | a custom file is read at its cleaned path; a readable file gives exactly the result of compiling its text under the name derived from the path as given; a read failure is template-not-found wrapping that failure; every error is template-not-found or a parse error |
| Templates.Resolve | templates/templates.go:49-62 | a reference is skipped iff it has neither a name nor a file; a name takes priority over a custom file |
| Templates.GetTemplates | templates/templates.go:42-66 | the loop returns exactly the fail-fast resolution of the whole list; an empty list gives an empty result |
| Templates.ResolveAllErrorSticks | templates/templates.go:48-63 | once a reference has failed, later references do not change the result |
| Templates.ResolveAllOkIff | templates/templates.go:48-65 | resolution succeeds iff no reference fails |
| Templates.ResolveAllFirstError | templates/templates.go:48-63 | the error returned is the error of the first failing reference |
| Templates.ResolveAllInOrder | templates/templates.go:47-65 | on success there is one template per selecting reference, in reference order, each loaded from that reference |
| Templates.ResolveAllNoBlanks | templates/templates.go:47-65 | with no blank references, template i comes from reference i and the lengths are equal |
| Templates.DecodeElement | templates/templates.go:84-102 | an element decodes only to a reference that selects something, and otherwise is ErrMalformedTemplateConfigs; a value that does not convert to a string and is not a mapping is malformed |
| Templates.DecodeElementShapes | templates/templates.go:84-102 | a non-empty string becomes a name; a mapping is accepted iff its `name` or its `template_file` is non-empty, and then gives those two fields |
| Templates.RelaxedMapComplete | templates/templates.go:84-106 | pick.RelaxedMap keeps as many elements as it was given iff every element decodes, and then keeps each one in place |
| Templates.Decode | templates/templates.go:75-117 | a successful decode is never empty; malformed YAML reports the YAML error; every other error is ErrMalformedTemplateConfigs; a value with no items must convert to a single name |
| Templates.DecodeSequence | templates/templates.go:82-107 | a non-empty list decodes iff every element decodes, and then element for element |
| Templates.DecodeEncode | templates/templates.go:68-117 | decoding the YAML list of objects that the struct tags describe gives the same references back |
| Templates.DecodeNames | templates/templates.go:82-107 | a list of non-empty strings decodes to name-only references, in order |
| Templates.ThreeShapesAgree | templates/templates.go:75-117 | a bare string, a one-string list and a one-object list with `name` all decode to the same single reference |
| Templates.DecodeAsWritten | templates/templates.go:75-117 | as written, every successful decode has exactly one reference |
| Templates.AsWrittenRejectsSequences | templates/templates.go:82-114 | as written, every non-empty list is rejected as malformed |
| Templates.AsWrittenFailsStringArrayTest | templates/templates.go:82-114 | on `[ "abc", "def" ]` the code as written returns ErrMalformedTemplateConfigs, while the corrected decoder returns both names |
| Templates.TemplateConfigsRef.UnmarshalYAML | templates/templates.go:75-117 | the returned error is the decoder's error; the variable holds what the source assigns (the list branch's result, the converted scalar, or its old value); on success it holds the decoded references |
| RootTemplates.Get | templates.go:20-27 | a bundled template is read from the joined path `templates/<name>.tmpl`; a readable file gives exactly the result of compiling its text under the name; a missing or unreadable file is template-not-found wrapping the read error (not-exist at that path for a missing one); every error is template-not-found or a parse error |
| RootTemplates.CustomTemplate | templates.go:29-39 | the same contract as the package-level custom template loader |
| RootTemplates.Resolve | templates.go:48-61 | a blank reference is skipped; a name takes priority over a custom file |
| RootTemplates.GetAll | templates.go:41-65 | the loop returns exactly the fail-fast resolution of the whole list; an empty list gives an empty result |
| RootTemplates.ResolveAllErrorSticks | templates.go:47-62 | once a reference has failed, later references do not change the result |
| RootTemplates.ResolveAllOkIff | templates.go:47-64 | resolution succeeds iff no reference fails |
| RootTemplates.ResolveAllFirstError | templates.go:47-62 | the error returned is that of the first failing reference |
| RootTemplates.ResolveAllInOrder | templates.go:46-64 | on success there is one template per selecting reference, in order |
| Generate.StepContract | generate.go:22-44 | a package without Go files gives no write and no error; otherwise an execution error is returned with nothing written; a successful render writes its output exactly once to `Join(Clean(dir), name)`, where the name defaults to `zz_generated.<template>.go` and the mode to 0644; the write's error is the result |
| Generate.GenerateInPackage | generate.go:22-44 | the log grows by exactly the writes of Step, and the error is Step's error |
| Generate.Row | generate.go:50 | one pair per template, in template order, all with the given package |
| Generate.Generate | generate.go:46-60 | the log grows by exactly the writes of the fail-fast package-major run, and the error is that run's error |
| Generate.GenerateRow | generate.go:50-56 | the inner loop: the log grows by exactly the writes of the fail-fast run over one package's row, and the error is that run's error |
| Generate.NextPackage | generate.go:49-57 | a package's row extends the run without changing earlier writes, and a failure in the row is the failure of the whole run |
| Generate.NextTemplate | generate.go:50-56 | one more template extends the row's run by that step, and a failure there is the failure of the whole row |
| Generate.GeneratedAppend | generate.go:49-57 | after a part of the run that did not fail, the rest runs as if on its own: the writes concatenate and the error is that of the rest |
| Generate.GeneratedErrorSticks | generate.go:52-55 | after a failed step no later pair is attempted |
| Generate.GeneratedOkIff | generate.go:46-60 | generation succeeds iff every pair's step succeeds |
| Generate.GeneratedFirstFailure | generate.go:49-57 | the first failing pair decides the error; the writes are those of the earlier pairs plus that pair's own attempt |
| Generate.GeneratedWritesFromPairs | generate.go:49-57 | there is at most one write per pair, and every write is the write of some pair |
| Generate.ZeroConfigDefaults | generate.go:27-33 | with a zero GenerateConfig every write is the write of some pair's step, with mode 0644 and the default name of that pair's template in that pair's package directory |
| Generate.NoGoFilesNoWrites | generate.go:23-25 | packages without Go files produce no writes and no error, whatever the templates |
| Generate.PairsFromInputs | generate.go:49-50 | every pair consists of an input package and an input template |
| Generate.PairsAt | generate.go:49-50 | in package-major order, pair `i*|tmps|+j` is package i with template j |
| Generate.PairsLength | generate.go:49-50 | there are `|pkgs|*|tmps|` pairs |
| PkgenMain.GoGenerateMode | cmd/pkgen/main.go:75-79 | go:generate mode (RunningInsideGoGenerate) holds iff GOFILE is in the environment, whatever its value, the empty one included; no other variable changes it |
| PkgenMain.ParseConfig | cmd/pkgen/main.go:81-99 | a file that does not exist (Host.StatNotExist, the negation of fileExists) or cannot be read leaves the configuration unchanged; a readable one gives the unmarshalled configuration; a YAML error ends the command |
| PkgenMain.ApplyTemplateFlags | cmd/pkgen/main.go:44-50 | -template replaces the list with one name reference; -template-custom appends one file reference; with neither flag the list is unchanged |
| PkgenMain.ConfigOf | cmd/pkgen/main.go:31-50 | inside go:generate the file is not read and only `.` is queried; otherwise the file's configuration, or the zero one when the file cannot be read, has its templates overridden by the flags; a YAML error is the result |
| PkgenMain.LoadConfig | cmd/pkgen/main.go:31-50 | the step-by-step assignments yield exactly ConfigOf |
| PkgenMain.RunCommand | cmd/pkgen/main.go:31-72 | a configuration, query or template error exits with that error and writes nothing; otherwise the writes and the exit are those of the fail-fast generation over all pairs with the zero GenerateConfig |
| PkgenRun.PKGen.Run | cmd/pkgen/pkgen.go:32-60 | the packages are always queried first; templates are requested with the configured references iff the query succeeded; when both succeed the calls are exactly query, template lookup, generate, in that order, and the generator gets the query's packages, the resolved templates and the generate settings; the generator is called iff both succeeded; the result is the first collaborator error, and none only when all three succeed |

## Left out

- Package discovery (package.go) is left out. It calls into golang.org/x/tools/go/packages, so the query is a parameter that returns packages or an error.
- YAML parsing is not modelled. Its result is a `Raw` tree or an error (`Document`). The configuration file's unmarshalling is a parameter of the command.
- pick's relaxed conversion is not modelled. It is the abstract `Relaxed.convert`, constrained only by `Lawful` where a lemma needs it.
- Templates.Decode: iter.Len of a top-level mapping is unconstrained. It is `Relaxed.mappingItems`, so the contract for a mapping-shaped `templates` value is only what holds for any item list.
- Templates.IterItems: iter.Len of a scalar (string, number, bool, null) is taken to be 0, so a scalar `templates` value always goes to the string conversion; pick's length of a scalar is not modelled.
- Templates.RelaxedMap: this assumes pick.RelaxedMap keeps the elements that decoded, in order. The source relies only on the length of the result.
- `filepath.Clean` is abstract (`Cleaner`). Paths use '/' only; Windows volume names are not modelled.
- The template engine is abstract: parsing of the template language and execution of templates are not modelled.
- Templates.Get, Templates.CustomTemplate, RootTemplates.Get, RootTemplates.CustomTemplate: a compilation failure is a parse error that is not wrapped in ErrTemplateNotFound. The code returns Parse's error directly, although a read failure is wrapped.
- Logging (slog calls and debugLogPackages) is left out, along with GetRunningMode, because neither has an observable effect on results.
- Flag parsing, the duplicate `-c` alias and stdout messages are left out. The flag values arrive as `Flags`, and an exit code of 1 is a returned error.
- PkgenMain.ParseConfig: `yaml.Unmarshal` into the existing configuration is a parameter. It is given the zero configuration as its starting point.
- PkgenMain.RunCommand: the loop in lines 64-72 is modelled by the same method as `Generate`, because it is the same package-major, fail-fast loop with a zero GenerateConfig.
- Disk writes: file modes are recorded, not applied, and a write that fails is still recorded in the log as an attempt.
- Concurrency and contexts are left out, because the core is sequential and never reads its context.

## Findings

| source | as written | input that shows it | evidently intended | confidence | as-written member | corrected member |
|---|---|---|---|---|---|---|
| templates/templates.go:82-114 | after a non-empty list has decoded, the list branch has no `return nil`, so the list also goes through `pick.Convert[string]`, and that conversion fails for a list | `templates: [ "abc", "def" ]` gives ErrMalformedTemplateConfigs | the decoded list is kept and no error is returned | not executed | Templates.AsWrittenFailsStringArrayTest | Templates.DecodeSequence |
