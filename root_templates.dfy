/** The root package's template resolver (templates.go): the same resolution
    as package templates, with the bundle embedded one directory up, so that
    a name is looked up under `templates/`. */
module RootTemplates {
  import opened Wrappers
  import opened Host
  import opened Templates

  /** Templates.Get: read `templates/<name>.tmpl` (path.Join) from the bundle
      and compile it under `name`. */
  function Get(src: Sources, name: string): (r: Result<Template, Error>)
    ensures r.Ok? ==> r.value.name == name
    ensures r.Ok? ==> ReadFile(src.bundle, Join(src.clean, "templates", name + ".tmpl")) == Ok(r.value.text)
    ensures Join(src.clean, "templates", name + ".tmpl") !in src.bundle.entries ==>
      r == Err(TemplateNotFound(NotExist(Join(src.clean, "templates", name + ".tmpl"))))
    ensures ReadFile(src.bundle, Join(src.clean, "templates", name + ".tmpl")).Err? ==>
      r == Err(TemplateNotFound(ReadFile(src.bundle, Join(src.clean, "templates", name + ".tmpl")).error))
    ensures ReadFile(src.bundle, Join(src.clean, "templates", name + ".tmpl")).Ok? ==>
      r == Parse(src.engine, name, ReadFile(src.bundle, Join(src.clean, "templates", name + ".tmpl")).value)
    ensures r.Err? ==> IsTemplateNotFound(r.error) || r.error.ParseFailed?
  {
    match ReadFile(src.bundle, Join(src.clean, "templates", name + ".tmpl"))
    case Err(e) => Err(TemplateNotFound(e))
    case Ok(b) => Parse(src.engine, name, b)
  }

  /** Templates.customTemplate. */
  function CustomTemplate(src: Sources, filePath: string): (r: Result<Template, Error>)
    ensures r.Ok? ==> r.value.name == TemplateNameOf(filePath)
    ensures r.Ok? ==> ReadFile(src.files, src.clean(filePath)) == Ok(r.value.text)
    ensures ReadFile(src.files, src.clean(filePath)).Err? ==>
      r == Err(TemplateNotFound(ReadFile(src.files, src.clean(filePath)).error))
    ensures ReadFile(src.files, src.clean(filePath)).Ok? ==>
      r == Parse(src.engine, TemplateNameOf(filePath), ReadFile(src.files, src.clean(filePath)).value)
    ensures r.Err? ==> IsTemplateNotFound(r.error) || r.error.ParseFailed?
  {
    match ReadFile(src.files, src.clean(filePath))
    case Err(e) => Err(TemplateNotFound(e))
    case Ok(b) => Parse(src.engine, TemplateNameOf(filePath), b)
  }

  /** The switch in GetAll: a name wins; a blank reference is skipped. */
  function Resolve(src: Sources, c: TemplateConfig): (r: Resolution)
    ensures r.Skipped? <==> !Selects(c)
    ensures c.name != "" ==> r == FromResult(Get(src, c.name))
    ensures c.name == "" && c.customTemplateFile != "" ==> r == FromResult(CustomTemplate(src, c.customTemplateFile))
  {
    if c.name != "" then FromResult(Get(src, c.name))
    else if c.customTemplateFile != "" then FromResult(CustomTemplate(src, c.customTemplateFile))
    else Skipped
  }

  /** The result of GetAll on a list, first failure wins. */
  function ResolveAll(src: Sources, c: TemplateConfigs): Result<seq<Template>, Error>
    decreases |c|
  {
    if c == [] then Ok([])
    else match ResolveAll(src, c[..|c| - 1])
      case Err(e) => Err(e)
      case Ok(sl) =>
        match Resolve(src, c[|c| - 1])
        case Skipped => Ok(sl)
        case Loaded(t) => Ok(sl + [t])
        case Failed(e) => Err(e)
  }

  /** Templates.GetAll. */
  method GetAll(src: Sources, c: TemplateConfigs) returns (r: Result<seq<Template>, Error>)
    ensures r == ResolveAll(src, c)
    ensures |c| == 0 ==> r == Ok([])
  {
    if |c| == 0 {
      return Ok([]);
    }
    var sl: seq<Template> := [];
    for k := 0 to |c|
      invariant ResolveAll(src, c[..k]) == Ok(sl)
    {
      var cnf := c[k];
      assert c[..k + 1][..k] == c[..k];
      if cnf.name != "" {
        var t := Get(src, cnf.name);
        if t.Err? {
          ResolveAllErrorSticks(src, c[..k + 1], c);
          return Err(t.error);
        }
        sl := sl + [t.value];
      } else if cnf.customTemplateFile != "" {
        var t := CustomTemplate(src, cnf.customTemplateFile);
        if t.Err? {
          ResolveAllErrorSticks(src, c[..k + 1], c);
          return Err(t.error);
        }
        sl := sl + [t.value];
      }
    }
    assert c[..|c|] == c;
    return Ok(sl);
  }

  lemma {:induction false} ResolveAllErrorSticks(src: Sources, a: TemplateConfigs, b: TemplateConfigs)
    requires a <= b && ResolveAll(src, a).Err?
    ensures ResolveAll(src, b) == ResolveAll(src, a)
    decreases |b|
  {
    if |b| > |a| {
      assert a <= b[..|b| - 1];
      ResolveAllErrorSticks(src, a, b[..|b| - 1]);
    } else {
      assert a == b;
    }
  }

  lemma ResolveAllStep(src: Sources, c: TemplateConfigs)
    requires c != []
    ensures ResolveAll(src, c).Ok? <==> ResolveAll(src, c[..|c| - 1]).Ok? && !Resolve(src, c[|c| - 1]).Failed?
  {
  }

  /** GetAll succeeds exactly when no reference fails. */
  lemma {:induction false} ResolveAllOkIff(src: Sources, c: TemplateConfigs)
    ensures ResolveAll(src, c).Ok? <==> forall k :: 0 <= k < |c| ==> !Resolve(src, c[k]).Failed?
    decreases |c|
  {
    if c != [] {
      var init := c[..|c| - 1];
      ResolveAllOkIff(src, init);
      ResolveAllStep(src, c);
      assert forall k :: 0 <= k < |init| ==> init[k] == c[k];
    }
  }

  /** The first failing reference's error is GetAll's error. */
  lemma {:induction false} ResolveAllFirstError(src: Sources, c: TemplateConfigs, k: nat)
    requires k < |c| && Resolve(src, c[k]).Failed?
    requires forall i :: 0 <= i < k ==> !Resolve(src, c[i]).Failed?
    ensures ResolveAll(src, c) == Err(Resolve(src, c[k]).error)
  {
    var pre := c[..k + 1];
    assert pre[..k] == c[..k] && pre[k] == c[k];
    assert forall i :: 0 <= i < k ==> c[..k][i] == c[i];
    ResolveAllOkIff(src, c[..k]);
    assert ResolveAll(src, c[..k]).Ok?;
    assert ResolveAll(src, pre) == Err(Resolve(src, c[k]).error);
    ResolveAllErrorSticks(src, pre, c);
  }

  /** On success GetAll yields one template per selecting reference, in order. */
  lemma {:induction false} ResolveAllInOrder(src: Sources, c: TemplateConfigs)
    requires ResolveAll(src, c).Ok?
    ensures |ResolveAll(src, c).value| == |Selecting(c)| <= |c|
    ensures forall i :: 0 <= i < |Selecting(c)| ==>
      Resolve(src, Selecting(c)[i]) == Loaded(ResolveAll(src, c).value[i])
    decreases |c|
  {
    if c != [] {
      ResolveAllInOrder(src, c[..|c| - 1]);
    }
  }
}
