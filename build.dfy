/**
 * The per-network decisions of the multi-network build script: whether a
 * network keeps its script separate, the bundle's script name, the output
 * directory and the generated bundler configuration.
 */
module Build {
  import opened Wrappers
  import opened Text
  import opened Selection

  // ---------------------------------------------------------------------
  // Per-network configuration
  // ---------------------------------------------------------------------

  /** The networks whose script stays a separate file. */
  const InliningNetworks: seq<string> := ["tencent", "smadex"]

  function RequiresInlining(network: string): (b: bool)
    ensures b <==> network == "tencent" || network == "smadex"
  {
    network in InliningNetworks
  }

  /** The bundle's script file name. */
  function ScriptFilename(network: string): (f: string)
    ensures f == "creative.js" <==> network == "adikteev"
    ensures f == "creative.js" || f == "playable.js"
  {
    if network == "adikteev" then "creative.js" else "playable.js"
  }

  const BuildDir := "dist"
  const TemplateDir := "src/index"

  /** `dist/<prefix>_<network>`. */
  function OutputDir(prefix: string, network: string): string {
    BuildDir + "/" + prefix + "_" + network
  }

  /** `src/index/<network>/index.html`. */
  function TemplatePath(network: string): string {
    TemplateDir + "/" + network + "/index.html"
  }

  /** `webpack.<network>.config.js` at the repository root. */
  function TempConfigPath(network: string): string {
    "webpack." + network + ".config.js"
  }

  /** Different networks built with the same prefix never share an output directory. */
  lemma OutputDirInjective(prefix: string, a: string, b: string)
    requires OutputDir(prefix, a) == OutputDir(prefix, b)
    ensures a == b
  {
    var n := |BuildDir + "/" + prefix + "_"|;
    assert OutputDir(prefix, a)[n..] == a;
    assert OutputDir(prefix, b)[n..] == b;
  }

  /** The content of the generated bundler configuration. */
  datatype WebpackConfig = WebpackConfig(
    mode: string,
    entry: string,
    scriptFilename: string,
    outputPath: string,
    clean: bool,
    adNetwork: string,
    template: string,
    htmlFilename: string)

  datatype ConfigError = TemplateNotFound(path: string)

  /**
   * `createWebpackConfig(network, inline, prefix)`: fails when the
   * network's template is not among the existing files. The `inline`
   * argument is accepted but not used.
   */
  function CreateWebpackConfig(network: string, inline: bool, prefix: string, existing: set<string>): (r: Result<WebpackConfig, ConfigError>)
    ensures r.Failure? <==> TemplatePath(network) !in existing
    ensures r.Failure? ==> r.error == TemplateNotFound(TemplatePath(network))
    ensures r.Success? ==>
      (r.value.scriptFilename == ScriptFilename(network)
       && r.value.outputPath == OutputDir(prefix, network)
       && r.value.template == TemplatePath(network)
       && r.value.adNetwork == network
       && r.value.htmlFilename == "index.html"
       && r.value.clean)
  {
    var path := TemplatePath(network);
    if path !in existing then Failure(TemplateNotFound(path))
    else Success(WebpackConfig(
      "production", "./src/index.js", ScriptFilename(network), OutputDir(prefix, network),
      true, network, path, "index.html"))
  }

  /** The configuration does not depend on the inlining flag. */
  lemma ConfigIgnoresInline(network: string, prefix: string, existing: set<string>)
    ensures CreateWebpackConfig(network, true, prefix, existing) == CreateWebpackConfig(network, false, prefix, existing)
  {
  }
}
