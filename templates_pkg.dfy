/** Package templates (templates/templates.go): decoding the `templates`
    configuration value into an ordered list of template references, and
    resolving each reference to a compiled template, either from the embedded
    bundle (by name) or from a file on disk (by path). */
module Templates {
  import opened Wrappers
  import opened Host

  /** A template reference: a bundled template's name, or a custom file. */
  datatype TemplateConfig = TemplateConfig(name: string, customTemplateFile: string)

  type TemplateConfigs = seq<TemplateConfig>

  /** The references that select something (the resolver skips the others). */
  predicate Selects(c: TemplateConfig) {
    c.name != "" || c.customTemplateFile != ""
  }

  // ---------------------------------------------------------------------
  // Resolution
  // ---------------------------------------------------------------------

  /** Where templates come from: the embedded bundle (rooted at the package
      directory), the host's file system, its path cleaning, and the engine. */
  datatype Sources = Sources(bundle: FileSystem, files: FileSystem, clean: Cleaner, engine: Engine)

  /** Get: read `<name>.tmpl` from the bundle and compile it under `name`. */
  function Get(src: Sources, name: string): (r: Result<Template, Error>)
    ensures r.Ok? ==> name + ".tmpl" in src.bundle.entries
    ensures r.Ok? ==> r.value.name == name && src.bundle.entries[name + ".tmpl"] == Readable(r.value.text)
    ensures name + ".tmpl" !in src.bundle.entries ==> r == Err(TemplateNotFound(NotExist(name + ".tmpl")))
    ensures ReadFile(src.bundle, name + ".tmpl").Err? ==> r == Err(TemplateNotFound(ReadFile(src.bundle, name + ".tmpl").error))
    ensures ReadFile(src.bundle, name + ".tmpl").Ok? ==> r == Parse(src.engine, name, ReadFile(src.bundle, name + ".tmpl").value)
    ensures r.Err? ==> IsTemplateNotFound(r.error) || r.error.ParseFailed?
  {
    match ReadFile(src.bundle, name + ".tmpl")
    case Err(e) => Err(TemplateNotFound(e))
    case Ok(b) => Parse(src.engine, name, b)
  }

  /** The name a custom template file gets: its base element without the
      last extension. */
  function TemplateNameOf(filePath: string): (r: string)
    ensures r + Ext(Base(filePath)) == Base(filePath)
  {
    var base := Base(filePath);
    TrimSuffixOf(base, Ext(base));
    TrimSuffix(base, Ext(base))
  }

  /** customTemplate: read the cleaned path and compile it under the name
      derived from the path as given. */
  function CustomTemplate(src: Sources, filePath: string): (r: Result<Template, Error>)
    ensures r.Ok? ==> r.value.name == TemplateNameOf(filePath)
    ensures r.Ok? ==> ReadFile(src.files, src.clean(filePath)) == Ok(r.value.text)
    ensures ReadFile(src.files, src.clean(filePath)).Err? ==>
      r == Err(TemplateNotFound(ReadFile(src.files, src.clean(filePath)).error))
    ensures ReadFile(src.files, src.clean(filePath)).Ok? ==>
      r == Parse(src.engine, TemplateNameOf(filePath), ReadFile(src.files, src.clean(filePath)).value)
    ensures r.Err? ==> IsTemplateNotFound(r.error) || r.error.ParseFailed?
  {
    match ReadFile(src.files, src.clean(filePath))
    case Err(e) => Err(TemplateNotFound(e))
    case Ok(b) => Parse(src.engine, TemplateNameOf(filePath), b)
  }

  /** What the resolver does with one reference. */
  datatype Resolution = Skipped | Loaded(template: Template) | Failed(error: Error)

  function FromResult(r: Result<Template, Error>): Resolution {
    match r
    case Ok(t) => Loaded(t)
    case Err(e) => Failed(e)
  }

  /** The switch in GetTemplates: a name wins over a custom file; a reference
      with neither is skipped. */
  function Resolve(src: Sources, c: TemplateConfig): (r: Resolution)
    ensures r.Skipped? <==> !Selects(c)
    ensures c.name != "" ==> r == FromResult(Get(src, c.name))
    ensures c.name == "" && c.customTemplateFile != "" ==> r == FromResult(CustomTemplate(src, c.customTemplateFile))
  {
    if c.name != "" then FromResult(Get(src, c.name))
    else if c.customTemplateFile != "" then FromResult(CustomTemplate(src, c.customTemplateFile))
    else Skipped
  }

  /** The result of resolving a whole list, first failure wins. */
  function ResolveAll(src: Sources, c: TemplateConfigs): Result<seq<Template>, Error>
    decreases |c|
  {
    if c == [] then Ok([])
    else match ResolveAll(src, c[..|c| - 1])
      case Err(e) => Err(e)
      case Ok(sl) =>
        match Resolve(src, c[|c| - 1])
        case Skipped => Ok(sl)
        case Loaded(t) => Ok(sl + [t])
        case Failed(e) => Err(e)
  }

  /** The references that select a template, in order. */
  function Selecting(c: TemplateConfigs): (r: TemplateConfigs)
    ensures |r| <= |c|
    decreases |c|
  {
    if c == [] then []
    else Selecting(c[..|c| - 1]) + (if Selects(c[|c| - 1]) then [c[|c| - 1]] else [])
  }

  /** GetTemplates. */
  method GetTemplates(src: Sources, c: TemplateConfigs) returns (r: Result<seq<Template>, Error>)
    ensures r == ResolveAll(src, c)
    ensures |c| == 0 ==> r == Ok([])
  {
    if |c| == 0 {
      return Ok([]);
    }
    var sl: seq<Template> := [];
    for k := 0 to |c|
      invariant ResolveAll(src, c[..k]) == Ok(sl)
    {
      var cnf := c[k];
      assert c[..k + 1][..k] == c[..k];
      if cnf.name != "" {
        var t := Get(src, cnf.name);
        if t.Err? {
          ResolveAllErrorSticks(src, c[..k + 1], c);
          return Err(t.error);
        }
        sl := sl + [t.value];
      } else if cnf.customTemplateFile != "" {
        var t := CustomTemplate(src, cnf.customTemplateFile);
        if t.Err? {
          ResolveAllErrorSticks(src, c[..k + 1], c);
          return Err(t.error);
        }
        sl := sl + [t.value];
      }
    }
    assert c[..|c|] == c;
    return Ok(sl);
  }

  /** Once an entry has failed, later entries change nothing. */
  lemma {:induction false} ResolveAllErrorSticks(src: Sources, a: TemplateConfigs, b: TemplateConfigs)
    requires a <= b && ResolveAll(src, a).Err?
    ensures ResolveAll(src, b) == ResolveAll(src, a)
    decreases |b|
  {
    if |b| > |a| {
      assert a <= b[..|b| - 1];
      ResolveAllErrorSticks(src, a, b[..|b| - 1]);
    } else {
      assert a == b;
    }
  }

  /** One more reference: the list still resolves iff it did and the new
      reference does not fail. */
  lemma ResolveAllStep(src: Sources, c: TemplateConfigs)
    requires c != []
    ensures ResolveAll(src, c).Ok? <==> ResolveAll(src, c[..|c| - 1]).Ok? && !Resolve(src, c[|c| - 1]).Failed?
  {
  }

  /** Resolution succeeds exactly when no reference fails. */
  lemma {:induction false} ResolveAllOkIff(src: Sources, c: TemplateConfigs)
    ensures ResolveAll(src, c).Ok? <==> forall k :: 0 <= k < |c| ==> !Resolve(src, c[k]).Failed?
    decreases |c|
  {
    if c != [] {
      var init := c[..|c| - 1];
      ResolveAllOkIff(src, init);
      ResolveAllStep(src, c);
      assert forall k :: 0 <= k < |init| ==> init[k] == c[k];
    }
  }

  /** The first failing reference's error is the result. */
  lemma {:induction false} ResolveAllFirstError(src: Sources, c: TemplateConfigs, k: nat)
    requires k < |c| && Resolve(src, c[k]).Failed?
    requires forall i :: 0 <= i < k ==> !Resolve(src, c[i]).Failed?
    ensures ResolveAll(src, c) == Err(Resolve(src, c[k]).error)
  {
    var pre := c[..k + 1];
    assert pre[..k] == c[..k] && pre[k] == c[k];
    assert forall i :: 0 <= i < k ==> c[..k][i] == c[i];
    ResolveAllOkIff(src, c[..k]);
    assert ResolveAll(src, c[..k]).Ok?;
    assert ResolveAll(src, pre) == Err(Resolve(src, c[k]).error);
    ResolveAllErrorSticks(src, pre, c);
  }

  /** On success, the templates are those of the selecting references, one
      each and in the same order. */
  lemma {:induction false} ResolveAllInOrder(src: Sources, c: TemplateConfigs)
    requires ResolveAll(src, c).Ok?
    ensures |ResolveAll(src, c).value| == |Selecting(c)| <= |c|
    ensures forall i :: 0 <= i < |Selecting(c)| ==>
      Resolve(src, Selecting(c)[i]) == Loaded(ResolveAll(src, c).value[i])
    decreases |c|
  {
    if c != [] {
      ResolveAllInOrder(src, c[..|c| - 1]);
    }
  }

  /** Without blank references, template i comes from reference i. */
  lemma ResolveAllNoBlanks(src: Sources, c: TemplateConfigs)
    requires ResolveAll(src, c).Ok?
    requires forall k :: 0 <= k < |c| ==> Selects(c[k])
    ensures |ResolveAll(src, c).value| == |c|
    ensures forall i :: 0 <= i < |c| ==> Resolve(src, c[i]) == Loaded(ResolveAll(src, c).value[i])
  {
    SelectingAll(c);
    ResolveAllInOrder(src, c);
  }

  lemma {:induction false} SelectingAll(c: TemplateConfigs)
    requires forall k :: 0 <= k < |c| ==> Selects(c[k])
    ensures Selecting(c) == c
    decreases |c|
  {
    if c != [] {
      SelectingAll(c[..|c| - 1]);
      assert c[..|c| - 1] + [c[|c| - 1]] == c;
    }
  }

  // ---------------------------------------------------------------------
  // Name derivation
  // ---------------------------------------------------------------------

  lemma {:induction false} AfterLastSlashOf(prefix: string, s: string)
    requires prefix == [] || prefix[|prefix| - 1] == '/'
    requires '/' !in s
    ensures AfterLastSlash(prefix + s) == s
    decreases |s|
  {
    if s == [] {
      assert prefix + s == prefix;
    } else {
      var init := s[..|s| - 1];
      assert (prefix + s)[..|prefix + s| - 1] == prefix + init;
      AfterLastSlashOf(prefix, init);
      assert init + [s[|s| - 1]] == s;
    }
  }

  lemma {:induction false} ExtOf(stem: string, ext: string)
    requires '/' !in ext && '.' !in ext
    ensures Ext(stem + "." + ext) == "." + ext
    decreases |ext|
  {
    if ext != [] {
      var init := ext[..|ext| - 1];
      var w := stem + "." + ext;
      assert w[..|w| - 1] == stem + "." + init;
      assert w[|w| - 1] == ext[|ext| - 1];
      ExtOf(stem, init);
      assert "." + init + [ext[|ext| - 1]] == "." + ext;
    }
  }

  lemma BaseOf(prefix: string, file: string)
    requires prefix == [] || prefix[|prefix| - 1] == '/'
    requires file != [] && '/' !in file
    ensures Base(prefix + file) == file
  {
    var path := prefix + file;
    assert path[|path| - 1] == file[|file| - 1];
    assert TrimTrailingSlashes(path) == path;
    AfterLastSlashOf(prefix, file);
  }

  lemma TrimExt(stem: string, ext: string)
    ensures TrimSuffix(stem + "." + ext, "." + ext) == stem
  {
    var file := stem + "." + ext;
    assert file[|file| - |"." + ext|..] == "." + ext;
    assert file[..|file| - |"." + ext|] == stem;
  }

  lemma NoSlashInFile(stem: string, ext: string)
    requires '/' !in stem && '/' !in ext
    ensures '/' !in stem + "." + ext
  {
    var file := stem + "." + ext;
    forall i | 0 <= i < |file| ensures file[i] != '/' {
      if i < |stem| { assert file[i] == stem[i]; }
      else if i > |stem| { assert file[i] == ext[i - |stem| - 1]; }
    }
  }

  /** A custom file `<dir>/<stem>.<ext>` yields a template named `<stem>`. */
  lemma TemplateNameOfFile(prefix: string, stem: string, ext: string)
    requires prefix == [] || prefix[|prefix| - 1] == '/'
    requires '/' !in stem
    requires '/' !in ext && '.' !in ext
    ensures TemplateNameOf(prefix + stem + "." + ext) == stem
  {
    var file := stem + "." + ext;
    assert prefix + stem + "." + ext == prefix + file;
    NoSlashInFile(stem, ext);
    BaseOf(prefix, file);
    ExtOf(stem, ext);
    TrimExt(stem, ext);
  }

  /** The documented example: `./custom.tmpl` is named `custom`. */
  lemma CustomTemplateExample(path: string)
    requires path == "./custom.tmpl"
    ensures TemplateNameOf(path) == "custom"
  {
    assert path == "./" + "custom" + "." + "tmpl";
    TemplateNameOfFile("./", "custom", "tmpl");
  }

  // ---------------------------------------------------------------------
  // Decoding (TemplateConfigs.UnmarshalYAML)
  // ---------------------------------------------------------------------

  /** A YAML value as the YAML library hands it over. */
  datatype Raw =
    | Null
    | Str(s: string)
    | Bool(b: bool)
    | Number(text: string)
    | Sequence(items: seq<Raw>)
    | Mapping(fields: map<string, Raw>)

  /** The bytes given to UnmarshalYAML, after YAML decoding. */
  datatype Document = Parsed(raw: Raw) | Invalid(message: string)

  /** The pick library, left abstract: `convert` is its relaxed conversion of
      a value to a string (pick.Convert[string]), and `mappingItems` lists the
      values its iteration visits in a mapping (iter.Len of a mapping is
      their number); nothing is assumed about the latter. */
  datatype Relaxed = Relaxed(convert: Raw -> Option<string>, mappingItems: map<string, Raw> -> seq<Raw>)

  /** What the model assumes of the relaxed conversion: a string converts to
      itself, and a sequence or a mapping does not convert to a string. */
  ghost predicate Lawful(rx: Relaxed) {
    && (forall s: string :: rx.convert(Str(s)) == Some(s))
    && (forall items: seq<Raw> :: rx.convert(Sequence(items)) == None)
    && (forall fields: map<string, Raw> :: rx.convert(Mapping(fields)) == None)
  }

  /** rp.String(""): the value as a string, "" when it does not convert. */
  function RelaxedString(rx: Relaxed, v: Raw): string {
    match rx.convert(v)
    case Some(s) => s
    case None => ""
  }

  /** rp.String(key): a mapping's field as a string, "" when absent. */
  function FieldString(rx: Relaxed, v: Raw, key: string): string {
    if v.Mapping? && key in v.fields then RelaxedString(rx, v.fields[key]) else ""
  }

  /** The callback given to pick.RelaxedMap: one list element. */
  function DecodeElement(rx: Relaxed, v: Raw): (r: Result<TemplateConfig, Error>)
    ensures r.Ok? ==> Selects(r.value)
    ensures r.Err? ==> r.error == MalformedTemplateConfigs
    ensures rx.convert(v).None? && !v.Mapping? ==> r == Err(MalformedTemplateConfigs)
  {
    var s := RelaxedString(rx, v);
    if s != "" then Ok(TemplateConfig(s, ""))
    else
      var tc := TemplateConfig(FieldString(rx, v, "name"), FieldString(rx, v, "template_file"));
      if tc.name == "" && tc.customTemplateFile == "" then Err(MalformedTemplateConfigs) else Ok(tc)
  }

  /** Under the relaxed conversion the model assumes, a non-empty string is
      a name, and a mapping is accepted iff its `name` or its `template_file`
      is non-empty, field for field. */
  lemma DecodeElementShapes(rx: Relaxed, v: Raw)
    requires Lawful(rx)
    ensures v.Str? && v.s != "" ==> DecodeElement(rx, v) == Ok(TemplateConfig(v.s, ""))
    ensures v.Mapping? ==>
      DecodeElement(rx, v).Ok? == (FieldString(rx, v, "name") != "" || FieldString(rx, v, "template_file") != "")
    ensures v.Mapping? && DecodeElement(rx, v).Ok? ==>
      DecodeElement(rx, v).value == TemplateConfig(FieldString(rx, v, "name"), FieldString(rx, v, "template_file"))
  {
    if v.Mapping? {
      assert rx.convert(v) == None;
    }
  }

  /** pick.RelaxedMap: the elements that decode, in order. */
  function RelaxedMap(rx: Relaxed, items: seq<Raw>): (r: TemplateConfigs)
    ensures |r| <= |items|
    decreases |items|
  {
    if items == [] then []
    else
      var init := RelaxedMap(rx, items[..|items| - 1]);
      match DecodeElement(rx, items[|items| - 1])
      case Ok(tc) => init + [tc]
      case Err(_) => init
  }

  /** The elements iter.Len counts. */
  function IterItems(rx: Relaxed, raw: Raw): seq<Raw> {
    match raw
    case Sequence(items) => items
    case Mapping(fields) => rx.mappingItems(fields)
    case _ => []
  }

  /** UnmarshalYAML as the decoding tests expect it: a non-empty list decodes
      element by element; anything else must convert to one name. */
  function Decode(rx: Relaxed, doc: Document): (r: Result<TemplateConfigs, Error>)
    ensures r.Ok? ==> |r.value| > 0
    ensures doc.Invalid? ==> r == Err(YamlFailed(doc.message))
    ensures doc.Parsed? ==> r.Err? ==> r.error == MalformedTemplateConfigs
    ensures doc.Parsed? && |IterItems(rx, doc.raw)| == 0 ==>
      r == (match rx.convert(doc.raw)
            case Some(s) => Ok([TemplateConfig(s, "")])
            case None => Err(MalformedTemplateConfigs))
  {
    match doc
    case Invalid(message) => Err(YamlFailed(message))
    case Parsed(raw) =>
      var items := IterItems(rx, raw);
      if |items| > 0 then
        var got := RelaxedMap(rx, items);
        if |got| != |items| then Err(MalformedTemplateConfigs) else Ok(got)
      else
        match rx.convert(raw)
        case Some(s) => Ok([TemplateConfig(s, "")])
        case None => Err(MalformedTemplateConfigs)
  }

  /** UnmarshalYAML as written: the list branch has no return, so a list that
      decoded is then handed to the scalar conversion as well. */
  function DecodeAsWritten(rx: Relaxed, doc: Document): (r: Result<TemplateConfigs, Error>)
    ensures r.Ok? ==> |r.value| == 1
  {
    match doc
    case Invalid(message) => Err(YamlFailed(message))
    case Parsed(raw) =>
      var items := IterItems(rx, raw);
      if |items| > 0 && |RelaxedMap(rx, items)| != |items| then Err(MalformedTemplateConfigs)
      else
        match rx.convert(raw)
        case Some(s) => Ok([TemplateConfig(s, "")])
        case None => Err(MalformedTemplateConfigs)
  }

  /** What *tc holds after UnmarshalYAML: RelaxedMap's result once the list
      branch ran, the converted scalar on success, else what it held. */
  function Assigned(rx: Relaxed, doc: Document, prior: TemplateConfigs): TemplateConfigs {
    match doc
    case Invalid(_) => prior
    case Parsed(raw) =>
      if |IterItems(rx, raw)| > 0 then RelaxedMap(rx, IterItems(rx, raw))
      else match rx.convert(raw)
        case Some(s) => [TemplateConfig(s, "")]
        case None => prior
  }

  function ErrorOf<T>(r: Result<T, Error>): Option<Error> {
    match r
    case Ok(_) => None
    case Err(e) => Some(e)
  }

  /** The variable a TemplateConfigs pointer designates. */
  class TemplateConfigsRef {
    var value: TemplateConfigs

    constructor (initial: TemplateConfigs)
      ensures value == initial
    {
      value := initial;
    }

    method UnmarshalYAML(rx: Relaxed, doc: Document) returns (err: Option<Error>)
      modifies this
      ensures err == ErrorOf(Decode(rx, doc))
      ensures value == Assigned(rx, doc, old(value))
      ensures err.None? ==> value == Decode(rx, doc).value
    {
      if doc.Invalid? {
        return Some(YamlFailed(doc.message));
      }
      var raw := doc.raw;
      var items := IterItems(rx, raw);
      if |items| > 0 {
        value := RelaxedMap(rx, items);
        if |value| != |items| {
          return Some(MalformedTemplateConfigs);
        }
        // The source has no return here and falls through to the scalar
        // conversion (see DecodeAsWritten); the decoding tests expect the
        // decoded list, which is what this returns.
        return None;
      }
      match rx.convert(raw) {
        case None =>
          return Some(MalformedTemplateConfigs);
        case Some(s) =>
          value := [TemplateConfig(s, "")];
          return None;
      }
    }
  }

  /** RelaxedMap keeps every element exactly when every element decodes, and
      then keeps them in place. */
  lemma {:induction false} RelaxedMapComplete(rx: Relaxed, items: seq<Raw>)
    ensures |RelaxedMap(rx, items)| == |items| <==> forall k :: 0 <= k < |items| ==> DecodeElement(rx, items[k]).Ok?
    ensures |RelaxedMap(rx, items)| == |items| ==>
      forall k :: 0 <= k < |items| ==> RelaxedMap(rx, items)[k] == DecodeElement(rx, items[k]).value
    decreases |items|
  {
    if items != [] {
      var init := items[..|items| - 1];
      var last := items[|items| - 1];
      RelaxedMapComplete(rx, init);
      assert forall k :: 0 <= k < |init| ==> init[k] == items[k];
      if DecodeElement(rx, last).Ok? {
        assert RelaxedMap(rx, items) == RelaxedMap(rx, init) + [DecodeElement(rx, last).value];
      } else {
        assert RelaxedMap(rx, items) == RelaxedMap(rx, init);
      }
    }
  }

  /** A non-empty list decodes iff every element does, element for element. */
  lemma DecodeSequence(rx: Relaxed, items: seq<Raw>)
    requires |items| > 0
    ensures Decode(rx, Parsed(Sequence(items))).Ok? <==> forall k :: 0 <= k < |items| ==> DecodeElement(rx, items[k]).Ok?
    ensures Decode(rx, Parsed(Sequence(items))).Ok? ==>
      |Decode(rx, Parsed(Sequence(items))).value| == |items| &&
      forall k :: 0 <= k < |items| ==> Decode(rx, Parsed(Sequence(items))).value[k] == DecodeElement(rx, items[k]).value
  {
    RelaxedMapComplete(rx, items);
  }

  /** The YAML shape the struct tags give a list of references. */
  function Encode(tcs: TemplateConfigs): Raw {
    Sequence(seq(|tcs|, i requires 0 <= i < |tcs| =>
      Mapping(map["name" := Str(tcs[i].name), "template_file" := Str(tcs[i].customTemplateFile)])))
  }

  /** Decoding the encoded form of references gives them back. */
  lemma DecodeEncode(rx: Relaxed, tcs: TemplateConfigs)
    requires Lawful(rx)
    requires |tcs| > 0 && forall k :: 0 <= k < |tcs| ==> Selects(tcs[k])
    ensures Decode(rx, Parsed(Encode(tcs))) == Ok(tcs)
  {
    var items := Encode(tcs).items;
    forall k | 0 <= k < |items| ensures DecodeElement(rx, items[k]) == Ok(tcs[k]) {
      var v := items[k];
      assert FieldString(rx, v, "name") == tcs[k].name;
      assert FieldString(rx, v, "template_file") == tcs[k].customTemplateFile;
    }
    DecodeSequence(rx, items);
    var r := Decode(rx, Parsed(Sequence(items)));
    assert r.Ok?;
    assert r.value == tcs;
  }

  /** A list of non-empty strings decodes to name-only references. */
  lemma DecodeNames(rx: Relaxed, names: seq<string>)
    requires Lawful(rx)
    requires |names| > 0 && forall k :: 0 <= k < |names| ==> names[k] != ""
    ensures Decode(rx, Parsed(Sequence(seq(|names|, i requires 0 <= i < |names| => Str(names[i]))))) ==
      Ok(seq(|names|, i requires 0 <= i < |names| => TemplateConfig(names[i], "")))
  {
    var items := seq(|names|, i requires 0 <= i < |names| => Str(names[i]));
    var want := seq(|names|, i requires 0 <= i < |names| => TemplateConfig(names[i], ""));
    forall k | 0 <= k < |items| ensures DecodeElement(rx, items[k]) == Ok(want[k]) {
    }
    DecodeSequence(rx, items);
    var r := Decode(rx, Parsed(Sequence(items)));
    assert r.Ok?;
    assert r.value == want;
  }

  /** The bare string, the one-string list and the one-object list all
      decode to the same single reference. */
  lemma ThreeShapesAgree(rx: Relaxed, s: string)
    requires Lawful(rx) && s != ""
    ensures Decode(rx, Parsed(Str(s))) == Ok([TemplateConfig(s, "")])
    ensures Decode(rx, Parsed(Sequence([Str(s)]))) == Ok([TemplateConfig(s, "")])
    ensures Decode(rx, Parsed(Sequence([Mapping(map["name" := Str(s)])]))) == Ok([TemplateConfig(s, "")])
  {
    DecodeSequence(rx, [Str(s)]);
    assert DecodeElement(rx, [Str(s)][0]) == Ok(TemplateConfig(s, ""));
    var r1 := Decode(rx, Parsed(Sequence([Str(s)])));
    assert r1.Ok?;
    assert r1.value == [TemplateConfig(s, "")];
    var m := Mapping(map["name" := Str(s)]);
    assert FieldString(rx, m, "name") == s;
    assert FieldString(rx, m, "template_file") == "";
    DecodeSequence(rx, [m]);
    assert DecodeElement(rx, [m][0]) == Ok(TemplateConfig(s, ""));
  }

  /** As written, no non-empty list is accepted. */
  lemma AsWrittenRejectsSequences(rx: Relaxed, items: seq<Raw>)
    requires Lawful(rx) && |items| > 0
    ensures DecodeAsWritten(rx, Parsed(Sequence(items))) == Err(MalformedTemplateConfigs)
  {
  }

  /** The decoding test's `[ "abc", "def" ]`: rejected as written, decoded
      by the corrected routine. */
  lemma AsWrittenFailsStringArrayTest(rx: Relaxed)
    requires Lawful(rx)
    ensures DecodeAsWritten(rx, Parsed(Sequence([Str("abc"), Str("def")]))) == Err(MalformedTemplateConfigs)
    ensures Decode(rx, Parsed(Sequence([Str("abc"), Str("def")]))) ==
      Ok([TemplateConfig("abc", ""), TemplateConfig("def", "")])
  {
    var items := [Str("abc"), Str("def")];
    assert DecodeElement(rx, items[0]) == Ok(TemplateConfig("abc", ""));
    assert DecodeElement(rx, items[1]) == Ok(TemplateConfig("def", ""));
    DecodeSequence(rx, items);
    var r := Decode(rx, Parsed(Sequence(items)));
    assert r.Ok?;
    assert r.value == [TemplateConfig("abc", ""), TemplateConfig("def", "")];
  }
}
