/**
 * The build loop of the multi-network build script: for every selected
 * network it writes a temporary bundler configuration, runs the bundler,
 * removes the configuration, copies the network's auxiliary file and
 * post-processes the built page. The file system is a map from path to
 * contents; the bundler is a parameter that returns the file system it
 * leaves behind and whether it exited without an error.
 */
module BuildLoop {
  import opened Wrappers
  import opened Text
  import opened Selection
  import opened Build
  import opened StoreLinks

  type Files = map<string, string>

  /**
   * What a run of `npx webpack --config …` leaves behind: the file system,
   * which a failing run may already have cleaned or written into, and
   * whether the command exited without an error.
   */
  datatype BundleRun = BundleRun(files: Files, ok: bool)

  type Bundler = (WebpackConfig, Files) -> BundleRun

  /** The file system: ordinary files, and the temporary configurations written for the bundler. */
  datatype Disk = Disk(files: Files, configs: map<string, WebpackConfig>)

  datatype Failure = MissingTemplate(path: string) | BundlerFailed

  /** What the loop reports for one network: it completed, or the error the `catch` logged. */
  datatype Outcome = Built(network: string) | Failed(network: string, failure: Failure)

  /** The placeholder of the page template that the bundle replaces. */
  const Placeholder := "// P3 SCRIPT HERE"

  // ---------------------------------------------------------------------
  // Auxiliary copies
  // ---------------------------------------------------------------------

  /** The extra file a network's template directory contributes to its output. */
  function AuxFile(network: string): (f: Option<string>)
    ensures f.Some? <==> network in {"development", "tiktok", "bigabid", "adikteev"}
  {
    if network == "development" then Some("playable-preview.html")
    else if network == "tiktok" then Some("config.json")
    else if network == "bigabid" then Some("ad.txt")
    else if network == "adikteev" then Some("style.css")
    else None
  }

  /** Copy the auxiliary file, when the network has one and its source exists. */
  function CopyAux(files: Files, network: string, prefix: string): Files {
    match AuxFile(network)
    case None => files
    case Some(name) =>
      var source := TemplateDir + "/" + network + "/" + name;
      var target := OutputDir(prefix, network) + "/" + name;
      if source in files then files[target := files[source]] else files
  }

  /** Only the target of the network's own auxiliary file can change, and it gets the source's contents. */
  lemma CopyAuxEffect(files: Files, network: string, prefix: string, path: string)
    ensures var r := CopyAux(files, network, prefix);
      path in r <==> path in files || (AuxFile(network).Some?
                                       && path == OutputDir(prefix, network) + "/" + AuxFile(network).value
                                       && TemplateDir + "/" + network + "/" + AuxFile(network).value in files)
    ensures var r := CopyAux(files, network, prefix);
      path in r ==> r[path] == (if AuxFile(network).Some? && path == OutputDir(prefix, network) + "/" + AuxFile(network).value
                                   && TemplateDir + "/" + network + "/" + AuxFile(network).value in files
                                then files[TemplateDir + "/" + network + "/" + AuxFile(network).value]
                                else files[path])
  {
  }

  /** A network without an auxiliary file gets no copy. */
  lemma CopyAuxNone(files: Files, network: string, prefix: string)
    requires network !in {"development", "tiktok", "bigabid", "adikteev"}
    ensures CopyAux(files, network, prefix) == files
  {
  }

  // ---------------------------------------------------------------------
  // Post-processing of the built page
  // ---------------------------------------------------------------------

  function IndexPath(prefix: string, network: string): string {
    OutputDir(prefix, network) + "/index.html"
  }

  function ScriptPath(prefix: string, network: string): string {
    OutputDir(prefix, network) + "/" + ScriptFilename(network)
  }

  /** The page and the script of a network are different files. */
  lemma IndexNotScript(prefix: string, network: string)
    ensures IndexPath(prefix, network) != ScriptPath(prefix, network)
  {
    assert |IndexPath(prefix, network)| + 1 == |ScriptPath(prefix, network)|;
  }

  /** The networks whose bundle is embedded into the page. */
  predicate InlinesScript(network: string) {
    !RequiresInlining(network) && network != "adikteev"
  }

  /**
   * The script the inlining branch looks for is always `playable.js`: the
   * branch excludes `adikteev`, so its `creative.js` alternative is never
   * taken.
   */
  lemma InlinedScriptIsPlayable(prefix: string, network: string)
    requires InlinesScript(network)
    ensures ScriptPath(prefix, network) == OutputDir(prefix, network) + "/playable.js"
  {
  }

  /** Embed the bundle and inject the store links, or only inject the store links. */
  function PostProcess(files: Files, network: string, prefix: string): Files {
    var index := IndexPath(prefix, network);
    if InlinesScript(network) then
      var script := ScriptPath(prefix, network);
      if index in files && script in files then
        var content := InjectStoreLinks(ReplaceFirst(files[index], Placeholder, files[script]), network);
        files[index := content] - {script}
      else files
    else if index in files then files[index := InjectStoreLinks(files[index], network)]
    else files
  }

  /**
   * The inlining branch: the first placeholder of the page becomes the
   * bundle, verbatim, the store links are injected into the result and the
   * script file is deleted. Nothing else changes.
   */
  lemma PostProcessInlines(files: Files, network: string, prefix: string, before: string, after: string)
    requires InlinesScript(network)
    requires ScriptPath(prefix, network) in files
    requires IndexPath(prefix, network) in files && files[IndexPath(prefix, network)] == before + Placeholder + after
    requires forall j :: 0 <= j < |before| ==> !OccursAt(before + Placeholder + after, Placeholder, j)
    ensures var r := PostProcess(files, network, prefix);
      && IndexPath(prefix, network) in r
      && r[IndexPath(prefix, network)] == InjectStoreLinks(before + files[ScriptPath(prefix, network)] + after, network)
      && ScriptPath(prefix, network) !in r
      && forall path :: path != IndexPath(prefix, network) && path != ScriptPath(prefix, network) ==>
           (path in r <==> path in files) && (path in r ==> r[path] == files[path])
  {
    IndexNotScript(prefix, network);
    ReplaceFirstAt(before, Placeholder, after, files[ScriptPath(prefix, network)]);
  }

  /**
   * The inlining call as JavaScript evaluates it: the bundle is passed as a
   * replacement string, so `$` patterns in it are expanded.
   */
  function EmbedAsWritten(page: string, script: string): string {
    ReplaceFirstExpanding(page, Placeholder, script)
  }

  /** A bundle holding `$$` loses a `$` when it is embedded as written; the literal embedding keeps it. */
  lemma EmbedAsWrittenMangles()
    ensures EmbedAsWritten(Placeholder, "a$$b") == "a$b"
    ensures ReplaceFirst(Placeholder, Placeholder, "a$$b") == "a$$b"
  {
    assert FirstOccurrence(Placeholder, Placeholder) == Some(0);
    assert Placeholder[..0] == [] && Placeholder[|Placeholder|..] == [];
    var e := Expand("a$$b", Placeholder, [], []);
    assert "a$$b"[1..] == "$$b" && "$$b"[2..] == "b" && "b"[1..] == [];
    assert Expand("b", Placeholder, [], []) == "b";
    assert Expand("$$b", Placeholder, [], []) == "$b";
    assert e == "a$b";
  }

  /** A bundle without `$` is embedded the same either way. */
  lemma EmbedAsWrittenLiteral(page: string, script: string)
    requires '$' !in script
    ensures EmbedAsWritten(page, script) == ReplaceFirst(page, Placeholder, script)
  {
    ReplaceFirstExpandingLiteral(page, Placeholder, script);
  }

  /** The inlining branch changes nothing when the page or the script is missing. */
  lemma PostProcessMissing(files: Files, network: string, prefix: string)
    requires InlinesScript(network)
    requires IndexPath(prefix, network) !in files || ScriptPath(prefix, network) !in files
    ensures PostProcess(files, network, prefix) == files
  {
  }

  /**
   * The other branch (`tencent`, `smadex`, `adikteev`): only the store links
   * of the page are injected; the script file, like every other file, stays.
   */
  lemma PostProcessInjectsOnly(files: Files, network: string, prefix: string)
    requires !InlinesScript(network)
    ensures var r := PostProcess(files, network, prefix);
      && r.Keys == files.Keys
      && (IndexPath(prefix, network) in files ==>
            r[IndexPath(prefix, network)] == InjectStoreLinks(files[IndexPath(prefix, network)], network))
      && forall path :: path in files && path != IndexPath(prefix, network) ==> r[path] == files[path]
  {
  }

  // ---------------------------------------------------------------------
  // One network
  // ---------------------------------------------------------------------

  /** The body of the loop for one network, with the `catch` that logs its error. */
  function NetworkStep(d: Disk, network: string, prefix: string, bundle: Bundler): (Disk, Outcome) {
    match CreateWebpackConfig(network, RequiresInlining(network), prefix, d.files.Keys)
    case Failure(TemplateNotFound(path)) => (d, Failed(network, MissingTemplate(path)))
    case Success(config) =>
      var configs := d.configs[TempConfigPath(network) := config];
      var run := bundle(config, d.files);
      if !run.ok then (Disk(run.files, configs), Failed(network, BundlerFailed))
      else
        (Disk(PostProcess(CopyAux(run.files, network, prefix), network, prefix), configs - {TempConfigPath(network)}),
         Built(network))
  }

  /** A network without a template fails before anything is written. */
  lemma MissingTemplateChangesNothing(d: Disk, network: string, prefix: string, bundle: Bundler)
    requires TemplatePath(network) !in d.files
    ensures NetworkStep(d, network, prefix, bundle) == (d, Failed(network, MissingTemplate(TemplatePath(network))))
  {
  }

  /**
   * When the bundler fails, the temporary configuration is left on disk
   * (its removal sits after the bundler call inside the `try`), and the
   * files are exactly those the failed run left: no auxiliary file is
   * copied and the page is not post-processed.
   */
  lemma BundlerFailureLeavesConfig(d: Disk, network: string, prefix: string, bundle: Bundler)
    requires TemplatePath(network) in d.files
    requires !bundle(CreateWebpackConfig(network, RequiresInlining(network), prefix, d.files.Keys).value, d.files).ok
    ensures var (d', o) := NetworkStep(d, network, prefix, bundle);
      && o == Failed(network, BundlerFailed)
      && d'.files == bundle(CreateWebpackConfig(network, RequiresInlining(network), prefix, d.files.Keys).value, d.files).files
      && TempConfigPath(network) in d'.configs
      && d'.configs[TempConfigPath(network)].outputPath == OutputDir(prefix, network)
  {
  }

  /** After a successful build the temporary configuration is gone and the others are untouched. */
  lemma BuiltRemovesConfig(d: Disk, network: string, prefix: string, bundle: Bundler)
    requires NetworkStep(d, network, prefix, bundle).1 == Built(network)
    ensures var d' := NetworkStep(d, network, prefix, bundle).0;
      && TempConfigPath(network) !in d'.configs
      && d'.configs == d.configs - {TempConfigPath(network)}
  {
  }

  /** The configuration a network is bundled with always names its template and its own output directory. */
  lemma BundledWithOwnConfig(d: Disk, network: string, prefix: string)
    requires TemplatePath(network) in d.files
    ensures var c := CreateWebpackConfig(network, RequiresInlining(network), prefix, d.files.Keys);
      c.Success? && c.value.template == TemplatePath(network) && c.value.outputPath == OutputDir(prefix, network)
  {
  }

  // ---------------------------------------------------------------------
  // The loop
  // ---------------------------------------------------------------------

  /** The disk and the outcomes after building `networks` in order. */
  function RunAll(d: Disk, networks: seq<string>, prefix: string, bundle: Bundler): (Disk, seq<Outcome>)
    decreases |networks|
  {
    if networks == [] then (d, [])
    else
      var (d1, outcomes) := RunAll(d, networks[..|networks| - 1], prefix, bundle);
      var (d2, o) := NetworkStep(d1, networks[|networks| - 1], prefix, bundle);
      (d2, outcomes + [o])
  }

  function NetworkOf(o: Outcome): string {
    o.network
  }

  /**
   * Every selected network is attempted exactly once, in order: a failing
   * network is logged and the loop carries on with the next one.
   */
  lemma {:induction false} RunAllAttemptsEvery(d: Disk, networks: seq<string>, prefix: string, bundle: Bundler)
    ensures var outcomes := RunAll(d, networks, prefix, bundle).1;
      |outcomes| == |networks| && forall i :: 0 <= i < |networks| ==> NetworkOf(outcomes[i]) == networks[i]
    decreases |networks|
  {
    if networks != [] {
      var front := networks[..|networks| - 1];
      RunAllAttemptsEvery(d, front, prefix, bundle);
      var outcomes := RunAll(d, networks, prefix, bundle).1;
      var d1 := RunAll(d, front, prefix, bundle).0;
      assert outcomes == RunAll(d, front, prefix, bundle).1 + [NetworkStep(d1, networks[|networks| - 1], prefix, bundle).1];
    }
  }

  /** The script's state: the disk and the log of outcomes. */
  class BuildScript {
    var disk: Disk
    var outcomes: seq<Outcome>

    constructor (files: Files)
      ensures disk == Disk(files, map[]) && outcomes == []
    {
      disk := Disk(files, map[]);
      outcomes := [];
    }

    /** The body of the loop for one network. */
    method BuildNetwork(network: string, prefix: string, bundle: Bundler)
      modifies this
      ensures var (d, o) := NetworkStep(old(disk), network, prefix, bundle);
        disk == d && outcomes == old(outcomes) + [o]
    {
      var inline := RequiresInlining(network);
      var created := CreateWebpackConfig(network, inline, prefix, disk.files.Keys);
      if created.Failure? {
        outcomes := outcomes + [Failed(network, MissingTemplate(created.error.path))];
        return;
      }
      var config := created.value;
      var temp := TempConfigPath(network);
      disk := disk.(configs := disk.configs[temp := config]);
      var run := bundle(config, disk.files);
      if !run.ok {
        disk := disk.(files := run.files);
        outcomes := outcomes + [Failed(network, BundlerFailed)];
        return;
      }
      var files := run.files;
      disk := disk.(configs := disk.configs - {temp});
      files := CopyAux(files, network, prefix);
      files := PostProcess(files, network, prefix);
      disk := disk.(files := files);
      outcomes := outcomes + [Built(network)];
    }

    /** The loop: build every network in order, whatever happens to the ones before. */
    method BuildAll(networks: seq<string>, prefix: string, bundle: Bundler)
      modifies this
      ensures var (d, log) := RunAll(old(disk), networks, prefix, bundle);
        disk == d && outcomes == old(outcomes) + log
    {
      for i := 0 to |networks|
        invariant var (d, log) := RunAll(old(disk), networks[..i], prefix, bundle);
          disk == d && outcomes == old(outcomes) + log
      {
        BuildNetwork(networks[i], prefix, bundle);
        assert networks[..i + 1][..i] == networks[..i];
      }
      assert networks[..|networks|] == networks;
    }

    /**
     * `main`: resolve the selection against the catalog; with nothing
     * selected exit without building, otherwise build every selected
     * network in order.
     */
    method Run(selection: string, prefix: string, bundle: Bundler)
      modifies this
      ensures var (d, log) := RunAll(old(disk), Select(Catalog, selection), prefix, bundle);
        disk == d && outcomes == old(outcomes) + log
      ensures Select(Catalog, selection) == [] ==> disk == old(disk) && outcomes == old(outcomes)
    {
      var networks := Select(Catalog, selection);
      if |networks| == 0 {
        return;
      }
      BuildAll(networks, prefix, bundle);
    }
  }
}
