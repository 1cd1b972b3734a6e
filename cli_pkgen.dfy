/** PKGen.Run (cmd/pkgen/pkgen.go): query packages, resolve templates,
    generate, returning the first error. The three collaborators are
    abstract; the model records the calls made to them. */
module PkgenRun {
  import opened Wrappers
  import opened Host
  import opened Templates
  import opened Generate
  import opened PkgenConfig

  /** A call made to a collaborator, with its arguments. */
  datatype Call =
    | QueryCall(query: PackagesQueryConfig)
    | GetAllCall(refs: TemplateConfigs)
    | GenerateCall(pkgs: seq<Package>, tmps: seq<Template>, cnf: GenerateConfig)

  datatype RunResult = RunResult(trace: seq<Call>, err: Option<Error>)

  /** PKGen with its Packages, Templates and Generator collaborators. */
  datatype PKGen = PKGen(
    pk: PackagesQueryConfig -> Result<seq<Package>, Error>,
    tm: TemplateConfigs -> Result<seq<Template>, Error>,
    gn: (seq<Package>, seq<Template>, GenerateConfig) -> Option<Error>)
  {
    function Run(cnf: Config): (r: RunResult)
      ensures |r.trace| >= 1 && r.trace[0] == QueryCall(cnf.packagesQuery)
      ensures pk(cnf.packagesQuery).Err? ==>
        r == RunResult([QueryCall(cnf.packagesQuery)], Some(pk(cnf.packagesQuery).error))
      ensures GetAllCall(cnf.templates) in r.trace <==> pk(cnf.packagesQuery).Ok?
      ensures forall c :: c in r.trace ==> c.QueryCall? || c == GetAllCall(cnf.templates) || c.GenerateCall?
      ensures pk(cnf.packagesQuery).Ok? && tm(cnf.templates).Err? ==>
        r == RunResult([QueryCall(cnf.packagesQuery), GetAllCall(cnf.templates)], Some(tm(cnf.templates).error))
      ensures (exists c :: c in r.trace && c.GenerateCall?) <==> pk(cnf.packagesQuery).Ok? && tm(cnf.templates).Ok?
      ensures forall c :: c in r.trace && c.GenerateCall? ==>
        pk(cnf.packagesQuery).Ok? && tm(cnf.templates).Ok? &&
        c == GenerateCall(pk(cnf.packagesQuery).value, tm(cnf.templates).value, cnf.generate)
      ensures r.err.None? <==>
        pk(cnf.packagesQuery).Ok? && tm(cnf.templates).Ok? &&
        gn(pk(cnf.packagesQuery).value, tm(cnf.templates).value, cnf.generate).None?
      ensures pk(cnf.packagesQuery).Ok? && tm(cnf.templates).Ok? ==>
        r.trace == [QueryCall(cnf.packagesQuery), GetAllCall(cnf.templates),
                    GenerateCall(pk(cnf.packagesQuery).value, tm(cnf.templates).value, cnf.generate)]
      ensures pk(cnf.packagesQuery).Ok? && tm(cnf.templates).Ok? ==>
        r.err == gn(pk(cnf.packagesQuery).value, tm(cnf.templates).value, cnf.generate)
    {
      match pk(cnf.packagesQuery)
      case Err(e) => RunResult([QueryCall(cnf.packagesQuery)], Some(e))
      case Ok(packages) =>
        match tm(cnf.templates)
        case Err(e) => RunResult([QueryCall(cnf.packagesQuery), GetAllCall(cnf.templates)], Some(e))
        case Ok(tmps) =>
          var call := GenerateCall(packages, tmps, cnf.generate);
          var r := RunResult([QueryCall(cnf.packagesQuery), GetAllCall(cnf.templates), call], gn(packages, tmps, cnf.generate));
          assert call in r.trace;
          r
    }
  }
}
