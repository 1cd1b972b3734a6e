/** The resolved configuration record (config.go) and the package query it
    carries. */
module PkgenConfig {
  import opened Templates
  import opened Generate

  /** What package discovery is asked for. */
  datatype PackagesQueryConfig = PackagesQueryConfig(
    includeTests: bool,
    env: seq<string>,
    buildFlags: seq<string>,
    dir: string,
    patterns: seq<string>)

  datatype Config = Config(packagesQuery: PackagesQueryConfig, templates: TemplateConfigs, generate: GenerateConfig)

  /** The zero values, as `pkgen.Config{}` has them. */
  const ZeroQuery := PackagesQueryConfig(false, [], [], "", [])
  const ZeroConfig := Config(ZeroQuery, [], ZeroGenerateConfig)
}
