/** The generation pipeline (generate.go): render every template against
    every discovered package and write the result into the package's
    directory, stopping at the first error. */
module Generate {
  import opened Wrappers
  import opened Host

  /** defaultNameFMT, `zz_generated.%s.go`, filled with a template name. */
  function DefaultName(templateName: string): string {
    "zz_generated." + templateName + ".go"
  }

  /** The default permission bits, 0o644. */
  const DefaultMode: FileMode := 420

  datatype GenerateConfig = GenerateConfig(outputFile: string, outputFileMod: FileMode)

  /** The zero GenerateConfig{}: every default applies. */
  const ZeroGenerateConfig := GenerateConfig("", 0)

  function OutputName(cnf: GenerateConfig, templateName: string): string {
    if cnf.outputFile == "" then DefaultName(templateName) else cnf.outputFile
  }

  function OutputMode(cnf: GenerateConfig): FileMode {
    if cnf.outputFileMod == 0 then DefaultMode else cnf.outputFileMod
  }

  /** The write attempts made and the error returned. */
  datatype Outcome = Outcome(writes: seq<Write>, err: Option<Error>)

  /** What GenerateInPackage does for one package and one template. */
  function Step(pkg: Package, tmp: Template, cnf: GenerateConfig, engine: Engine, clean: Cleaner, rejects: set<string>): Outcome
  {
    if |pkg.goFiles| == 0 then Outcome([], None)
    else
      match engine.execute(tmp, pkg)
      case Err(message) => Outcome([], Some(ExecFailed(message)))
      case Ok(out) =>
        var path := Join(clean, clean(pkg.dir), OutputName(cnf, tmp.name));
        Outcome([Write(path, out, OutputMode(cnf))], WriteOutcome(rejects, path))
  }

  /** What one GenerateInPackage call does: nothing for a package without Go
      files; otherwise a failed render is returned with nothing written, and
      a successful one is written once, to the configured or default name in
      the cleaned package directory, with the configured or default mode;
      the write's error is the result. */
  lemma StepContract(pkg: Package, tmp: Template, cnf: GenerateConfig, engine: Engine, clean: Cleaner, rejects: set<string>)
    ensures var o := Step(pkg, tmp, cnf, engine, clean, rejects);
      && |o.writes| <= 1
      && (|pkg.goFiles| == 0 ==> o == Outcome([], None))
      && (o.writes != [] <==> |pkg.goFiles| != 0 && engine.execute(tmp, pkg).Ok?)
      && (|pkg.goFiles| != 0 && engine.execute(tmp, pkg).Err? ==> o.err == Some(ExecFailed(engine.execute(tmp, pkg).error)))
      && (o.writes != [] ==> o.writes[0].data == engine.execute(tmp, pkg).value)
      && (o.writes != [] && cnf.outputFile == "" ==> o.writes[0].path == Join(clean, clean(pkg.dir), "zz_generated." + tmp.name + ".go"))
      && (o.writes != [] && cnf.outputFile != "" ==> o.writes[0].path == Join(clean, clean(pkg.dir), cnf.outputFile))
      && (o.writes != [] && cnf.outputFileMod == 0 ==> o.writes[0].mode == 0x1A4)
      && (o.writes != [] && cnf.outputFileMod != 0 ==> o.writes[0].mode == cnf.outputFileMod)
      && (o.writes != [] ==> o.err == WriteOutcome(rejects, o.writes[0].path))
      && (o.err.None? <==> |pkg.goFiles| == 0 || (o.writes != [] && o.writes[0].path !in rejects))
  {
  }

  /** GenerateInPackage. */
  method GenerateInPackage(pkg: Package, tmp: Template, cnf: GenerateConfig, engine: Engine, clean: Cleaner, disk: Disk)
    returns (err: Option<Error>)
    modifies disk
    ensures disk.log == old(disk.log) + Step(pkg, tmp, cnf, engine, clean, disk.rejects).writes
    ensures err == Step(pkg, tmp, cnf, engine, clean, disk.rejects).err
  {
    if |pkg.goFiles| == 0 {
      return None;
    }
    // cnf is a copy: the defaults below do not reach the caller.
    var c := cnf;
    if c.outputFile == "" {
      c := c.(outputFile := DefaultName(tmp.name));
    }
    if c.outputFileMod == 0 {
      c := c.(outputFileMod := DefaultMode);
    }
    var rendered := engine.execute(tmp, pkg);
    if rendered.Err? {
      return Some(ExecFailed(rendered.error));
    }
    var outPath := Join(clean, clean(pkg.dir), c.outputFile);
    err := disk.WriteFile(outPath, rendered.value, c.outputFileMod);
  }

  /** One package with each template, in template order. */
  function Row(pkg: Package, tmps: seq<Template>): (r: seq<(Package, Template)>)
    ensures |r| == |tmps|
    ensures forall j :: 0 <= j < |tmps| ==> r[j] == (pkg, tmps[j])
    decreases |tmps|
  {
    if tmps == [] then [] else Row(pkg, tmps[..|tmps| - 1]) + [(pkg, tmps[|tmps| - 1])]
  }

  /** Every (package, template) pair, package-major. */
  function Pairs(pkgs: seq<Package>, tmps: seq<Template>): seq<(Package, Template)>
    decreases |pkgs|
  {
    if pkgs == [] then [] else Pairs(pkgs[..|pkgs| - 1], tmps) + Row(pkgs[|pkgs| - 1], tmps)
  }

  /** Generating a sequence of pairs: steps run in order until one fails. */
  function Generated(pairs: seq<(Package, Template)>, cnf: GenerateConfig, engine: Engine, clean: Cleaner, rejects: set<string>): Outcome
    decreases |pairs|
  {
    if pairs == [] then Outcome([], None)
    else
      var prev := Generated(pairs[..|pairs| - 1], cnf, engine, clean, rejects);
      if prev.err.Some? then prev
      else
        var s := Step(pairs[|pairs| - 1].0, pairs[|pairs| - 1].1, cnf, engine, clean, rejects);
        Outcome(prev.writes + s.writes, s.err)
  }

  /** Generate. */
  method Generate(pkgs: seq<Package>, tmps: seq<Template>, cnf: GenerateConfig, engine: Engine, clean: Cleaner, disk: Disk)
    returns (err: Option<Error>)
    modifies disk
    ensures disk.log == old(disk.log) + Generated(Pairs(pkgs, tmps), cnf, engine, clean, disk.rejects).writes
    ensures err == Generated(Pairs(pkgs, tmps), cnf, engine, clean, disk.rejects).err
  {
    ghost var rejects := disk.rejects;
    ghost var run := Outcome([], None);
    for i := 0 to |pkgs|
      invariant run == Generated(Pairs(pkgs[..i], tmps), cnf, engine, clean, rejects)
      invariant run.err == None && disk.log == old(disk.log) + run.writes
    {
      NextPackage(pkgs, tmps, i, cnf, engine, clean, rejects);
      ghost var row := Generated(Row(pkgs[i], tmps), cnf, engine, clean, rejects);
      AppendAssoc(old(disk.log), run.writes, row.writes);
      var e := GenerateRow(pkgs[i], tmps, cnf, engine, clean, disk);
      if e.Some? {
        return e;
      }
      run := Outcome(run.writes + row.writes, None);
    }
    assert pkgs[..|pkgs|] == pkgs;
    return None;
  }

  /** The inner loop of Generate: one package with each template in turn. */
  method GenerateRow(pkg: Package, tmps: seq<Template>, cnf: GenerateConfig, engine: Engine, clean: Cleaner, disk: Disk)
    returns (err: Option<Error>)
    modifies disk
    ensures disk.log == old(disk.log) + Generated(Row(pkg, tmps), cnf, engine, clean, disk.rejects).writes
    ensures err == Generated(Row(pkg, tmps), cnf, engine, clean, disk.rejects).err
  {
    for j := 0 to |tmps|
      invariant Generated(Row(pkg, tmps[..j]), cnf, engine, clean, disk.rejects).err == None
      invariant disk.log == old(disk.log) + Generated(Row(pkg, tmps[..j]), cnf, engine, clean, disk.rejects).writes
    {
      NextTemplate(pkg, tmps, j, cnf, engine, clean, disk.rejects);
      AppendAssoc(old(disk.log), Generated(Row(pkg, tmps[..j]), cnf, engine, clean, disk.rejects).writes,
                  Step(pkg, tmps[j], cnf, engine, clean, disk.rejects).writes);
      var e := GenerateInPackage(pkg, tmps[j], cnf, engine, clean, disk);
      if e.Some? {
        return e;
      }
    }
    assert tmps[..|tmps|] == tmps;
    return None;
  }

  /** The outer loop's step: package i's row extends the run, and a failure
      in it is the failure of the whole run. */
  lemma NextPackage(pkgs: seq<Package>, tmps: seq<Template>, i: nat,
                    cnf: GenerateConfig, engine: Engine, clean: Cleaner, rejects: set<string>)
    requires i < |pkgs|
    requires Generated(Pairs(pkgs[..i], tmps), cnf, engine, clean, rejects).err == None
    ensures Generated(Pairs(pkgs[..i + 1], tmps), cnf, engine, clean, rejects) ==
      Outcome(Generated(Pairs(pkgs[..i], tmps), cnf, engine, clean, rejects).writes
                + Generated(Row(pkgs[i], tmps), cnf, engine, clean, rejects).writes,
              Generated(Row(pkgs[i], tmps), cnf, engine, clean, rejects).err)
    ensures Generated(Row(pkgs[i], tmps), cnf, engine, clean, rejects).err.Some? ==>
      Generated(Pairs(pkgs, tmps), cnf, engine, clean, rejects) == Generated(Pairs(pkgs[..i + 1], tmps), cnf, engine, clean, rejects)
  {
    assert pkgs[..i + 1][..i] == pkgs[..i];
    GeneratedAppend(Pairs(pkgs[..i], tmps), Row(pkgs[i], tmps), cnf, engine, clean, rejects);
    if Generated(Row(pkgs[i], tmps), cnf, engine, clean, rejects).err.Some? {
      PairsGrow(pkgs, tmps, i + 1);
      GeneratedErrorSticks(Pairs(pkgs[..i + 1], tmps), Pairs(pkgs, tmps), cnf, engine, clean, rejects);
    }
  }

  /** The inner loop's step: template j extends the row's run, and a failure
      there is the failure of the whole row. */
  lemma NextTemplate(pkg: Package, tmps: seq<Template>, j: nat,
                     cnf: GenerateConfig, engine: Engine, clean: Cleaner, rejects: set<string>)
    requires j < |tmps|
    requires Generated(Row(pkg, tmps[..j]), cnf, engine, clean, rejects).err == None
    ensures Generated(Row(pkg, tmps[..j + 1]), cnf, engine, clean, rejects) ==
      Outcome(Generated(Row(pkg, tmps[..j]), cnf, engine, clean, rejects).writes
                + Step(pkg, tmps[j], cnf, engine, clean, rejects).writes,
              Step(pkg, tmps[j], cnf, engine, clean, rejects).err)
    ensures Step(pkg, tmps[j], cnf, engine, clean, rejects).err.Some? ==>
      Generated(Row(pkg, tmps), cnf, engine, clean, rejects) == Generated(Row(pkg, tmps[..j + 1]), cnf, engine, clean, rejects)
  {
    RowSnoc(pkg, tmps, j);
    GeneratedSnoc(Row(pkg, tmps[..j]), (pkg, tmps[j]), cnf, engine, clean, rejects);
    if Step(pkg, tmps[j], cnf, engine, clean, rejects).err.Some? {
      RowPrefix(pkg, tmps, j + 1);
      GeneratedErrorSticks(Row(pkg, tmps[..j + 1]), Row(pkg, tmps), cnf, engine, clean, rejects);
    }
  }

  /** Running b after a run of a that did not fail: the writes concatenate and
      the error is b's. */
  lemma {:induction false} GeneratedAppend(a: seq<(Package, Template)>, b: seq<(Package, Template)>,
                                           cnf: GenerateConfig, engine: Engine, clean: Cleaner, rejects: set<string>)
    requires Generated(a, cnf, engine, clean, rejects).err == None
    ensures Generated(a + b, cnf, engine, clean, rejects) ==
      Outcome(Generated(a, cnf, engine, clean, rejects).writes + Generated(b, cnf, engine, clean, rejects).writes,
              Generated(b, cnf, engine, clean, rejects).err)
    decreases |b|
  {
    if b == [] {
      assert a + b == a;
      assert Generated(a, cnf, engine, clean, rejects).writes + [] == Generated(a, cnf, engine, clean, rejects).writes;
    } else {
      var init := b[..|b| - 1];
      var last := b[|b| - 1];
      assert a + b == (a + init) + [last];
      assert b == init + [last];
      GeneratedAppend(a, init, cnf, engine, clean, rejects);
      var gi := Generated(init, cnf, engine, clean, rejects);
      if gi.err.None? {
        GeneratedSnoc(a + init, last, cnf, engine, clean, rejects);
        GeneratedSnoc(init, last, cnf, engine, clean, rejects);
        AppendAssoc(Generated(a, cnf, engine, clean, rejects).writes, gi.writes, Step(last.0, last.1, cnf, engine, clean, rejects).writes);
      } else {
        GeneratedFailed(a + init, last, cnf, engine, clean, rejects);
        GeneratedFailed(init, last, cnf, engine, clean, rejects);
      }
    }
  }

  /** One more pair after a failed run changes nothing. */
  lemma GeneratedFailed(done: seq<(Package, Template)>, p: (Package, Template), cnf: GenerateConfig, engine: Engine, clean: Cleaner, rejects: set<string>)
    requires Generated(done, cnf, engine, clean, rejects).err.Some?
    ensures Generated(done + [p], cnf, engine, clean, rejects) == Generated(done, cnf, engine, clean, rejects)
  {
    assert (done + [p])[..|done + [p]| - 1] == done;
  }

  lemma AppendAssoc(a: seq<Write>, b: seq<Write>, c: seq<Write>)
    ensures a + b + c == a + (b + c)
  {
  }

  lemma RowSnoc(pkg: Package, tmps: seq<Template>, j: nat)
    requires j < |tmps|
    ensures Row(pkg, tmps[..j + 1]) == Row(pkg, tmps[..j]) + [(pkg, tmps[j])]
  {
    assert tmps[..j + 1][..j] == tmps[..j];
  }

  /** One more pair after a run without error. */
  lemma GeneratedSnoc(done: seq<(Package, Template)>, p: (Package, Template), cnf: GenerateConfig, engine: Engine, clean: Cleaner, rejects: set<string>)
    requires Generated(done, cnf, engine, clean, rejects).err == None
    ensures Generated(done + [p], cnf, engine, clean, rejects) ==
      Outcome(Generated(done, cnf, engine, clean, rejects).writes + Step(p.0, p.1, cnf, engine, clean, rejects).writes,
              Step(p.0, p.1, cnf, engine, clean, rejects).err)
  {
    assert (done + [p])[..|done + [p]| - 1] == done;
  }

  lemma {:induction false} RowPrefix(pkg: Package, tmps: seq<Template>, j: nat)
    requires j <= |tmps|
    ensures Row(pkg, tmps[..j]) <= Row(pkg, tmps)
  {
  }

  lemma {:induction false} PairsGrow(pkgs: seq<Package>, tmps: seq<Template>, i: nat)
    requires i <= |pkgs|
    ensures Pairs(pkgs[..i], tmps) <= Pairs(pkgs, tmps)
    decreases |pkgs|
  {
    if i < |pkgs| {
      var init := pkgs[..|pkgs| - 1];
      assert init[..i] == pkgs[..i];
      PairsGrow(init, tmps, i);
    } else {
      assert pkgs[..i] == pkgs;
    }
  }

  /** Once a step has failed, later pairs are not attempted. */
  lemma {:induction false} GeneratedErrorSticks(a: seq<(Package, Template)>, b: seq<(Package, Template)>,
                                                cnf: GenerateConfig, engine: Engine, clean: Cleaner, rejects: set<string>)
    requires a <= b && Generated(a, cnf, engine, clean, rejects).err.Some?
    ensures Generated(b, cnf, engine, clean, rejects) == Generated(a, cnf, engine, clean, rejects)
    decreases |b|
  {
    if |b| > |a| {
      assert a <= b[..|b| - 1];
      GeneratedErrorSticks(a, b[..|b| - 1], cnf, engine, clean, rejects);
    } else {
      assert a == b;
    }
  }

  /** Generation succeeds iff every pair's step succeeds. */
  lemma {:induction false} GeneratedOkIff(pairs: seq<(Package, Template)>, cnf: GenerateConfig, engine: Engine, clean: Cleaner, rejects: set<string>)
    ensures Generated(pairs, cnf, engine, clean, rejects).err.None? <==>
      forall k :: 0 <= k < |pairs| ==> Step(pairs[k].0, pairs[k].1, cnf, engine, clean, rejects).err.None?
    decreases |pairs|
  {
    if pairs != [] {
      var init := pairs[..|pairs| - 1];
      GeneratedOkIff(init, cnf, engine, clean, rejects);
      assert forall k :: 0 <= k < |init| ==> init[k] == pairs[k];
    }
  }

  /** The first failing pair decides the error; the writes are those of the
      pairs before it and its own attempt, and nothing after it runs. */
  lemma GeneratedFirstFailure(pairs: seq<(Package, Template)>, k: nat, cnf: GenerateConfig, engine: Engine, clean: Cleaner, rejects: set<string>)
    requires k < |pairs|
    requires Step(pairs[k].0, pairs[k].1, cnf, engine, clean, rejects).err.Some?
    requires forall i :: 0 <= i < k ==> Step(pairs[i].0, pairs[i].1, cnf, engine, clean, rejects).err.None?
    ensures Generated(pairs, cnf, engine, clean, rejects) ==
      Outcome(Generated(pairs[..k], cnf, engine, clean, rejects).writes + Step(pairs[k].0, pairs[k].1, cnf, engine, clean, rejects).writes,
              Step(pairs[k].0, pairs[k].1, cnf, engine, clean, rejects).err)
  {
    var pre := pairs[..k + 1];
    assert pre[..k] == pairs[..k];
    GeneratedOkIff(pairs[..k], cnf, engine, clean, rejects);
    GeneratedErrorSticks(pre, pairs, cnf, engine, clean, rejects);
  }

  /** At most one write attempt per pair, and every attempt is the write of
      one of the pairs. */
  lemma {:induction false} GeneratedWritesFromPairs(pairs: seq<(Package, Template)>, cnf: GenerateConfig, engine: Engine, clean: Cleaner, rejects: set<string>)
    ensures |Generated(pairs, cnf, engine, clean, rejects).writes| <= |pairs|
    ensures forall w :: w in Generated(pairs, cnf, engine, clean, rejects).writes ==>
      exists k :: 0 <= k < |pairs| && Step(pairs[k].0, pairs[k].1, cnf, engine, clean, rejects).writes == [w]
    decreases |pairs|
  {
    if pairs != [] {
      var init := pairs[..|pairs| - 1];
      GeneratedWritesFromPairs(init, cnf, engine, clean, rejects);
      forall w | w in Generated(pairs, cnf, engine, clean, rejects).writes
        ensures exists k :: 0 <= k < |pairs| && Step(pairs[k].0, pairs[k].1, cnf, engine, clean, rejects).writes == [w]
      {
        var prev := Generated(init, cnf, engine, clean, rejects);
        if w in prev.writes {
          var k :| 0 <= k < |init| && Step(init[k].0, init[k].1, cnf, engine, clean, rejects).writes == [w];
          assert init[k] == pairs[k];
        } else {
          var last := |pairs| - 1;
          assert Step(pairs[last].0, pairs[last].1, cnf, engine, clean, rejects).writes == [w];
        }
      }
    }
  }

  /** With a zero GenerateConfig every write is the write of some pair, and
      uses the default mode and the default name of that pair's template. */
  lemma ZeroConfigDefaults(pairs: seq<(Package, Template)>, engine: Engine, clean: Cleaner, rejects: set<string>)
    ensures forall w :: w in Generated(pairs, ZeroGenerateConfig, engine, clean, rejects).writes ==>
      w.mode == DefaultMode &&
      exists k :: (0 <= k < |pairs| && Step(pairs[k].0, pairs[k].1, ZeroGenerateConfig, engine, clean, rejects).writes == [w] &&
                   w.path == Join(clean, clean(pairs[k].0.dir), DefaultName(pairs[k].1.name)))
  {
    GeneratedWritesFromPairs(pairs, ZeroGenerateConfig, engine, clean, rejects);
    forall w | w in Generated(pairs, ZeroGenerateConfig, engine, clean, rejects).writes
      ensures w.mode == DefaultMode &&
        exists k :: (0 <= k < |pairs| && Step(pairs[k].0, pairs[k].1, ZeroGenerateConfig, engine, clean, rejects).writes == [w] &&
                     w.path == Join(clean, clean(pairs[k].0.dir), DefaultName(pairs[k].1.name)))
    {
      var k :| 0 <= k < |pairs| && Step(pairs[k].0, pairs[k].1, ZeroGenerateConfig, engine, clean, rejects).writes == [w];
    }
  }

  /** Packages without Go files produce no writes and no error, for any
      templates. */
  lemma {:induction false} NoGoFilesNoWrites(pkgs: seq<Package>, tmps: seq<Template>, cnf: GenerateConfig, engine: Engine, clean: Cleaner, rejects: set<string>)
    requires forall p :: p in pkgs ==> |p.goFiles| == 0
    ensures Generated(Pairs(pkgs, tmps), cnf, engine, clean, rejects) == Outcome([], None)
  {
    var pairs := Pairs(pkgs, tmps);
    PairsFromInputs(pkgs, tmps);
    assert forall k :: 0 <= k < |pairs| ==> Step(pairs[k].0, pairs[k].1, cnf, engine, clean, rejects) == Outcome([], None);
    GeneratedOkIff(pairs, cnf, engine, clean, rejects);
    GeneratedNoWrites(pairs, cnf, engine, clean, rejects);
  }

  lemma {:induction false} GeneratedNoWrites(pairs: seq<(Package, Template)>, cnf: GenerateConfig, engine: Engine, clean: Cleaner, rejects: set<string>)
    requires forall k :: 0 <= k < |pairs| ==> Step(pairs[k].0, pairs[k].1, cnf, engine, clean, rejects).writes == []
    ensures Generated(pairs, cnf, engine, clean, rejects).writes == []
    decreases |pairs|
  {
    if pairs != [] {
      var init := pairs[..|pairs| - 1];
      assert forall k :: 0 <= k < |init| ==> init[k] == pairs[k];
      GeneratedNoWrites(init, cnf, engine, clean, rejects);
    }
  }

  /** Every pair is made of an input package and an input template. */
  lemma {:induction false} PairsFromInputs(pkgs: seq<Package>, tmps: seq<Template>)
    ensures forall k :: 0 <= k < |Pairs(pkgs, tmps)| ==> Pairs(pkgs, tmps)[k].0 in pkgs && Pairs(pkgs, tmps)[k].1 in tmps
    decreases |pkgs|
  {
    if pkgs != [] {
      var init := pkgs[..|pkgs| - 1];
      PairsFromInputs(init, tmps);
      assert forall p :: p in init ==> p in pkgs;
    }
  }

  /** Package-major order: pair i*|tmps|+j is package i with template j. */
  lemma {:induction false} PairsAt(pkgs: seq<Package>, tmps: seq<Template>, i: nat, j: nat)
    requires i < |pkgs| && j < |tmps|
    ensures |Pairs(pkgs, tmps)| == |pkgs| * |tmps|
    ensures i * |tmps| + j < |Pairs(pkgs, tmps)|
    ensures Pairs(pkgs, tmps)[i * |tmps| + j] == (pkgs[i], tmps[j])
    decreases |pkgs|
  {
    var n := |pkgs|;
    var m := |tmps|;
    var init := pkgs[..n - 1];
    PairsLength(pkgs, tmps);
    PairsLength(init, tmps);
    assert Pairs(pkgs, tmps) == Pairs(init, tmps) + Row(pkgs[n - 1], tmps);
    if i < n - 1 {
      IndexBelow(i, j, n - 1, m);
      PairsAt(init, tmps, i, j);
      assert init[i] == pkgs[i];
    } else {
      assert i * m == (n - 1) * m;
      IndexBelow(i, j, n, m);
    }
  }

  /** Row-major indices stay below the product. */
  lemma IndexBelow(i: nat, j: nat, n: nat, m: nat)
    requires i < n && j < m
    ensures i * m + j < n * m
  {
    assert i * m + j < i * m + m == (i + 1) * m;
    assert (i + 1) * m <= n * m;
  }

  lemma {:induction false} PairsLength(pkgs: seq<Package>, tmps: seq<Template>)
    ensures |Pairs(pkgs, tmps)| == |pkgs| * |tmps|
    decreases |pkgs|
  {
    if pkgs != [] {
      PairsLength(pkgs[..|pkgs| - 1], tmps);
      assert (|pkgs| - 1) * |tmps| + |tmps| == |pkgs| * |tmps|;
    }
  }
}
