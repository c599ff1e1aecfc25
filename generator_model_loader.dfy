/**
 * `GeneratorModelLoader`: where the configuration of a project comes from
 * (`loadConfig`), and how its generation options rewrite the loaded project
 * (`enriched`, `xcodeFileNameOverride`, `organizationNameOverride`).
 */
module ModelLoading {
  import opened Wrappers
  import opened Strings
  import opened TuistCore

  // ---------------------------------------------------------------------------
  // compactMap and first

  /** The index of the first element of `xs` on which `f` is defined. */
  function FirstSomeIndex<T, U>(xs: seq<T>, f: T -> Option<U>): (k: Option<nat>)
    ensures k.Some? ==> k.value < |xs| && f(xs[k.value]).Some? && forall j :: 0 <= j < k.value ==> f(xs[j]).None?
    ensures k.None? ==> forall i :: 0 <= i < |xs| ==> f(xs[i]).None?
    decreases |xs|
  {
    if xs == [] then None
    else if f(xs[0]).Some? then Some(0)
    else match FirstSomeIndex(xs[1..], f)
      case None => None
      case Some(k) => Some(k + 1)
  }

  /** `xs.compactMap(f).first`: the first defined answer of `f` along `xs`. */
  function FirstSome<T, U>(xs: seq<T>, f: T -> Option<U>): (r: Option<U>)
    ensures r.None? <==> forall i :: 0 <= i < |xs| ==> f(xs[i]).None?
    ensures r.Some? ==> exists i :: 0 <= i < |xs| && f(xs[i]) == r && forall j :: 0 <= j < i ==> f(xs[j]).None?
  {
    match FirstSomeIndex(xs, f)
    case None => None
    case Some(k) => f(xs[k])
  }

  /** `xs.compactMap { $0 }`: the present values, in order. */
  function Compact<T(!new)>(xs: seq<Option<T>>): (r: seq<T>)
    ensures |r| <= |xs|
    ensures forall x :: x in r <==> Some(x) in xs
    decreases |xs|
  {
    if xs == [] then []
    else
      var rest := Compact(xs[1..]);
      assert forall o :: o in xs <==> o == xs[0] || o in xs[1..];
      if xs[0].Some? then [xs[0].value] + rest else rest
  }

  // ---------------------------------------------------------------------------
  // Overrides taken from the generation options

  /** The placeholder `TemplateString.Token.projectName` stands for, in an `xcodeProjectName` template. */
  const ProjectNameToken: string := "${project_name}"

  /** The template of an `.xcodeProjectName` option. */
  function ProjectNameTemplate(option: GenerationOption): Option<string>
  {
    match option
    case XcodeProjectName(template) => Some(template)
    case _ => None
  }

  /** The name of an `.organizationName` option. */
  function OrganizationNameOption(option: GenerationOption): Option<string>
  {
    match option
    case OrganizationName(name) => Some(name)
    case _ => None
  }

  /**
   * `xcodeFileNameOverride(from:for:)`: the template of the first
   * `.xcodeProjectName` option, with every occurrence of the project-name
   * token replaced by the project's name; none without such an option.
   */
  function XcodeFileNameOverride(config: Config, model: Project): (r: Option<string>)
    ensures r.None? <==> forall i :: 0 <= i < |config.generationOptions| ==> !config.generationOptions[i].XcodeProjectName?
    ensures r.Some? ==> exists i :: (0 <= i < |config.generationOptions| &&
      config.generationOptions[i].XcodeProjectName? &&
      r.value == ReplacingOccurrences(config.generationOptions[i].template, ProjectNameToken, model.name) &&
      forall j :: 0 <= j < i ==> !config.generationOptions[j].XcodeProjectName?)
  {
    var xcodeFileName := FirstSome(config.generationOptions, ProjectNameTemplate);
    match xcodeFileName
    case None => None
    case Some(template) => Some(ReplacingOccurrences(template, ProjectNameToken, model.name))
  }

  /** `organizationNameOverride(from:)`: the name of the first `.organizationName` option. */
  function OrganizationNameOverride(config: Config): (r: Option<string>)
    ensures r.None? <==> forall i :: 0 <= i < |config.generationOptions| ==> !config.generationOptions[i].OrganizationName?
    ensures r.Some? ==> exists i :: (0 <= i < |config.generationOptions| &&
      config.generationOptions[i] == OrganizationName(r.value) &&
      forall j :: 0 <= j < i ==> !config.generationOptions[j].OrganizationName?)
  {
    FirstSome(config.generationOptions, OrganizationNameOption)
  }

  /** The first template, when it holds no token, is the file name as written. */
  lemma TemplateWithoutToken(config: Config, model: Project, template: string)
    requires FirstSome(config.generationOptions, ProjectNameTemplate) == Some(template)
    requires forall i :: !StartsAt(template, ProjectNameToken, i)
    ensures XcodeFileNameOverride(config, model) == Some(template)
  {
    ReplacingNothing(template, ProjectNameToken, model.name);
  }

  /**
   * The token is replaced where it stands and the characters around it are
   * kept: `"${project_name}-Generated"` names the file of project `App`
   * `"App-Generated"`.
   */
  lemma TokenReplacedByProjectName(config: Config, model: Project)
    requires config.generationOptions == [DisableAutogeneratedSchemes, XcodeProjectName("${project_name}-Generated")]
    requires model.name == "App"
    ensures XcodeFileNameOverride(config, model) == Some("App-Generated")
  {
    var options := config.generationOptions;
    assert options[1..] == [XcodeProjectName("${project_name}-Generated")];
    assert FirstSomeIndex(options[1..], ProjectNameTemplate) == Some(0);
    assert FirstSomeIndex(options, ProjectNameTemplate) == Some(1);
    assert "${project_name}-Generated" == "" + ProjectNameToken + "-Generated";
    ReplacingFirst("", ProjectNameToken, "-Generated", "App");
    forall i ensures !StartsAt("-Generated", ProjectNameToken, i) {
      assert |ProjectNameToken| > |"-Generated"|;
    }
    ReplacingNothing("-Generated", ProjectNameToken, "App");
    assert "" + "App" + "-Generated" == "App-Generated";
    assert FirstSome(options, ProjectNameTemplate) == Some("${project_name}-Generated");
    assert ReplacingOccurrences("${project_name}-Generated", ProjectNameToken, "App") == "App-Generated";
  }

  /** Only the first option of each kind counts: later ones are ignored. */
  lemma FirstOptionWins(model: Project)
    ensures var config := Config([OrganizationName("Tuist"), XcodeProjectName("A"), OrganizationName("Other"), XcodeProjectName("B")]);
      OrganizationNameOverride(config) == Some("Tuist") && XcodeFileNameOverride(config, model) == Some("A")
  {
    var config := Config([OrganizationName("Tuist"), XcodeProjectName("A"), OrganizationName("Other"), XcodeProjectName("B")]);
    forall i ensures !StartsAt("A", ProjectNameToken, i) {
    }
    ReplacingNothing("A", ProjectNameToken, model.name);
  }

  /**
   * `enriched(model:with:)`: the project with its `.xcodeproj` renamed within
   * the same directory when a file-name override exists, and its organization
   * name replaced when an organization override exists. Nothing else changes.
   */
  method Enriched(model: Project, config: Config) returns (enrichedModel: Project)
    ensures enrichedModel == model.(xcodeProjPath := enrichedModel.xcodeProjPath, organizationName := enrichedModel.organizationName)
    ensures XcodeFileNameOverride(config, model).None? ==> enrichedModel.xcodeProjPath == model.xcodeProjPath
    ensures XcodeFileNameOverride(config, model).Some? ==>
      enrichedModel.xcodeProjPath.ParentDirectory() == model.xcodeProjPath.ParentDirectory() &&
      enrichedModel.xcodeProjPath.Basename() == XcodeFileNameOverride(config, model).value + ".xcodeproj"
    ensures OrganizationNameOverride(config).None? ==> enrichedModel.organizationName == model.organizationName
    ensures OrganizationNameOverride(config).Some? ==> enrichedModel.organizationName == OrganizationNameOverride(config)
  {
    enrichedModel := model;

    var xcodeProjPath := enrichedModel.xcodeProjPath;
    var xcodeFileName := XcodeFileNameOverride(config, model);
    if xcodeFileName.Some? {
      xcodeProjPath := enrichedModel.xcodeProjPath.ParentDirectory().Appending(xcodeFileName.value + ".xcodeproj");
    }
    enrichedModel := enrichedModel.(xcodeProjPath := xcodeProjPath);

    var organizationName := OrganizationNameOverride(config);
    if organizationName.Some? {
      enrichedModel := enrichedModel.(organizationName := organizationName);
    }
  }

  // ---------------------------------------------------------------------------
  // loadConfig(at:)

  /**
   * The names of the configuration manifest: the `Tuist` directory's name,
   * `Manifest.config.fileName` and `Manifest.config.deprecatedFileName`.
   */
  datatype ConfigNames = ConfigNames(tuistDirectoryName: string, fileName: string, deprecatedFileName: Option<string>)

  /** `[deprecatedFileName, fileName].compactMap { $0 }`: the names tried, in order. */
  function ConfigFileNames(names: ConfigNames): seq<string>
  {
    Compact([names.deprecatedFileName, Some(names.fileName)])
  }

  /** The deprecated name is tried first when there is one, and skipped when there is none. */
  lemma ConfigFileNamesOrder(names: ConfigNames)
    ensures names.deprecatedFileName.Some? ==> ConfigFileNames(names) == [names.deprecatedFileName.value, names.fileName]
    ensures names.deprecatedFileName.None? ==> ConfigFileNames(names) == [names.fileName]
  {
    var xs := [names.deprecatedFileName, Some(names.fileName)];
    assert xs[1..] == [Some(names.fileName)];
    assert xs[1..][1..] == [];
  }

  /** `RootDirectoryLocating.locate(from:)`. */
  datatype RootDirectoryLocator = RootDirectoryLocator(locate: AbsolutePath -> Option<AbsolutePath>)

  /** The parts of `FileHandler.shared` that `loadConfig` asks. */
  datatype FileHandler = FileHandler(
    fileExists: AbsolutePath -> bool,
    locateDirectoryTraversingParents: (AbsolutePath, string) -> Option<AbsolutePath>)

  /** `ManifestLoading.loadConfig(at:)`, followed by `Config.from(manifest:)`. */
  datatype ManifestLoader = ManifestLoader(loadConfig: AbsolutePath -> Result<Config, ToolError>)

  /** `<root>/Tuist/<fileName>`. */
  function RootConfigPath(root: AbsolutePath, names: ConfigNames): (p: AbsolutePath)
    ensures p.ParentDirectory() == root.Appending(names.tuistDirectoryName)
    ensures p.Basename() == names.fileName
  {
    root.Appending(names.tuistDirectoryName).Appending(names.fileName)
  }

  /** The configuration found by trying `fileNames` in order, or the default one. */
  function FirstLocatedConfig(manifestLoader: ManifestLoader, fileHandler: FileHandler, path: AbsolutePath,
                              fileNames: seq<string>): Result<Config, ToolError>
    decreases |fileNames|
  {
    if fileNames == [] then Success(DefaultConfig)
    else match fileHandler.locateDirectoryTraversingParents(path, fileNames[0])
      case None => FirstLocatedConfig(manifestLoader, fileHandler, path, fileNames[1..])
      case Some(configPath) => manifestLoader.loadConfig(configPath.ParentDirectory())
  }

  /** What `loadConfig(at:)` returns for `path`. */
  function ResolvedConfig(manifestLoader: ManifestLoader, locator: RootDirectoryLocator, fileHandler: FileHandler,
                          names: ConfigNames, path: AbsolutePath): Result<Config, ToolError>
  {
    match locator.locate(path)
    case Some(root) =>
      if fileHandler.fileExists(RootConfigPath(root, names)) then manifestLoader.loadConfig(root.Appending(names.tuistDirectoryName))
      else FirstLocatedConfig(manifestLoader, fileHandler, path, ConfigFileNames(names))
    case None => FirstLocatedConfig(manifestLoader, fileHandler, path, ConfigFileNames(names))
  }

  /**
   * The resolution order: the root `Tuist/` directory's manifest when it
   * exists; else the deprecated file name, when there is one, found in the
   * nearest directory up from `path`; else the current file name found the same
   * way; else the default configuration. An error of the manifest loader is
   * passed on, and stops the search.
   */
  lemma ConfigResolutionOrder(manifestLoader: ManifestLoader, locator: RootDirectoryLocator, fileHandler: FileHandler,
                              names: ConfigNames, path: AbsolutePath)
    ensures var r := ResolvedConfig(manifestLoader, locator, fileHandler, names, path);
      var atRoot := locator.locate(path).Some? && fileHandler.fileExists(RootConfigPath(locator.locate(path).value, names));
      var deprecated := if names.deprecatedFileName.None? then None
                        else fileHandler.locateDirectoryTraversingParents(path, names.deprecatedFileName.value);
      var current := fileHandler.locateDirectoryTraversingParents(path, names.fileName);
      && (atRoot ==> r == manifestLoader.loadConfig(locator.locate(path).value.Appending(names.tuistDirectoryName)))
      && (!atRoot && deprecated.Some? ==> r == manifestLoader.loadConfig(deprecated.value.ParentDirectory()))
      && (!atRoot && deprecated.None? && current.Some? ==> r == manifestLoader.loadConfig(current.value.ParentDirectory()))
      && (!atRoot && deprecated.None? && current.None? ==> r == Success(DefaultConfig))
  {
    ConfigFileNamesOrder(names);
    var fileNames := ConfigFileNames(names);
    var current := [names.fileName];
    assert current[1..] == [];
    assert FirstLocatedConfig(manifestLoader, fileHandler, path, []) == Success(DefaultConfig);
    var fromCurrent := FirstLocatedConfig(manifestLoader, fileHandler, path, current);
    assert fileHandler.locateDirectoryTraversingParents(path, names.fileName).None? ==> fromCurrent == Success(DefaultConfig);
    if names.deprecatedFileName.Some? {
      assert fileNames[1..] == current;
      assert fileHandler.locateDirectoryTraversingParents(path, names.deprecatedFileName.value).None? ==>
        FirstLocatedConfig(manifestLoader, fileHandler, path, fileNames) == fromCurrent;
    } else {
      assert fileNames == current;
    }
  }

  /**
   * `loadConfig(at:)`: the root `Tuist/` manifest when it exists, then each
   * candidate file name in turn, returning at the first one located.
   */
  method LoadConfig(manifestLoader: ManifestLoader, rootDirectoryLocator: RootDirectoryLocator, fileHandler: FileHandler,
                    names: ConfigNames, path: AbsolutePath) returns (r: Result<Config, ToolError>)
    ensures r == ResolvedConfig(manifestLoader, rootDirectoryLocator, fileHandler, names, path)
  {
    var rootDirectoryPath := rootDirectoryLocator.locate(path);
    if rootDirectoryPath.Some? {
      var configPath := RootConfigPath(rootDirectoryPath.value, names);
      if fileHandler.fileExists(configPath) {
        return manifestLoader.loadConfig(configPath.ParentDirectory());
      }
    }

    var fileNames := ConfigFileNames(names);
    var i := 0;
    while i < |fileNames|
      invariant 0 <= i <= |fileNames|
      invariant FirstLocatedConfig(manifestLoader, fileHandler, path, fileNames[i..]) ==
                FirstLocatedConfig(manifestLoader, fileHandler, path, fileNames)
    {
      var configPath := fileHandler.locateDirectoryTraversingParents(path, fileNames[i]);
      assert fileNames[i..][1..] == fileNames[i + 1..];
      if configPath.Some? {
        return manifestLoader.loadConfig(configPath.value.ParentDirectory());
      }
      i := i + 1;
    }
    return Success(DefaultConfig);
  }
}
