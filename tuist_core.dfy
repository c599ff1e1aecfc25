/**
 * The value types the modelled services exchange: paths, targets, schemes,
 * projects, the dependency graph and the configuration.
 * Only the fields the modelled code reads or writes are kept.
 */
module TuistCore {
  import opened Wrappers

  /** An absolute path, as the list of its components below `/`. */
  datatype AbsolutePath = AbsolutePath(components: seq<string>)
  {
    /** `parentDirectory`: the root is its own parent. */
    function ParentDirectory(): (p: AbsolutePath)
      ensures |p.components| == if components == [] then 0 else |components| - 1
      ensures p.components == components[..|p.components|]
    {
      if components == [] then this else AbsolutePath(components[..|components| - 1])
    }

    /** `appending(component:)`. */
    function Appending(component: string): (p: AbsolutePath)
      ensures p.ParentDirectory() == this && p.Basename() == component
    {
      AbsolutePath(components + [component])
    }

    /** `basename`: the last component, empty for the root. */
    function Basename(): string
    {
      if components == [] then "" else components[|components| - 1]
    }
  }

  /** An error thrown by a collaborator; the model passes it on untouched. */
  datatype ToolError = ToolError(message: string)

  /** `ErrorType` of a `FatalError`: how the command line reports it. */
  datatype ErrorType = Abort | Bug | AbortSilent | BugSilent

  datatype Platform = IOS | MacOS | TvOS | WatchOS
  {
    /** `caseValue`, as printed in lint messages. */
    function CaseValue(): string
    {
      match this
      case IOS => "iOS"
      case MacOS => "macOS"
      case TvOS => "tvOS"
      case WatchOS => "watchOS"
    }

    /** `xcodeSimulatorSDK`: macOS has no simulator. */
    function XcodeSimulatorSDK(): (sdk: Option<string>)
      ensures sdk.None? <==> this == MacOS
    {
      match this
      case IOS => Some("iphonesimulator")
      case TvOS => Some("appletvsimulator")
      case WatchOS => Some("watchsimulator")
      case MacOS => None
    }
  }

  datatype Product =
    | App | StaticLibrary | DynamicLibrary | Framework | StaticFramework
    | UnitTests | UiTests | Bundle | AppExtension | Watch2App | Watch2Extension
  {
    /** The product's description, as printed in lint messages. */
    function Description(): string
    {
      match this
      case App => "application"
      case StaticLibrary => "static library"
      case DynamicLibrary => "dynamic library"
      case Framework => "dynamic framework"
      case StaticFramework => "static framework"
      case UnitTests => "unit tests bundle"
      case UiTests => "ui tests bundle"
      case Bundle => "bundle"
      case AppExtension => "app extension"
      case Watch2App => "watch 2 application"
      case Watch2Extension => "watch 2 extension"
    }
  }

  datatype SdkStatus = Required | Optional

  /** A dependency a target declares. */
  datatype Dependency =
    | TargetDependency(name: string)
    | ProjectDependency(target: string, path: AbsolutePath)
    | FrameworkDependency(path: AbsolutePath)
    | LibraryDependency(path: AbsolutePath)
    | SdkDependency(sdkName: string, status: SdkStatus)
    | PackageDependency(product: string)

  datatype DeploymentTarget = DeploymentTarget(platform: Platform, version: string)

  datatype Target = Target(
    name: string,
    platform: Platform,
    product: Product,
    productName: string,
    bundleId: string,
    deploymentTarget: Option<DeploymentTarget>,
    infoPlist: Option<AbsolutePath>,
    entitlements: Option<AbsolutePath>,
    sources: seq<AbsolutePath>,
    resources: seq<AbsolutePath>,
    dependencies: seq<Dependency>)

  /** A target's identity: the path of its project and its name. */
  datatype TargetReference = TargetReference(projectPath: AbsolutePath, name: string)

  datatype TestableTarget = TestableTarget(target: TargetReference)
  datatype BuildAction = BuildAction(targets: seq<TargetReference>)
  datatype TestAction = TestAction(targets: seq<TestableTarget>)

  datatype Scheme = Scheme(name: string, buildAction: Option<BuildAction>, testAction: Option<TestAction>)

  datatype Project = Project(
    path: AbsolutePath,
    name: string,
    xcodeProjPath: AbsolutePath,
    organizationName: Option<string>,
    targets: seq<Target>,
    schemes: seq<Scheme>)

  /** A graph node; the source's subclasses of `GraphNode` become variants. */
  datatype GraphNode =
    | TargetNode(project: Project, target: Target)
    | PrecompiledNode(path: AbsolutePath)
    | SdkNode(sdkName: string)

  datatype Graph = Graph(entryNodes: seq<GraphNode>, targets: map<TargetReference, Target>)
  {
    /** `target(path:name:)`: absence is an answer, not an error. */
    function TargetAt(path: AbsolutePath, name: string): (t: Option<Target>)
      ensures t.Some? <==> TargetReference(path, name) in targets
      ensures t.Some? ==> t.value == targets[TargetReference(path, name)]
    {
      var key := TargetReference(path, name);
      if key in targets then Some(targets[key]) else None
    }
  }

  datatype GenerationOption =
    | XcodeProjectName(template: string)
    | OrganizationName(name: string)
    | DisableAutogeneratedSchemes
    | DisableSynthesizedResourceAccessors

  datatype Config = Config(generationOptions: seq<GenerationOption>)

  /** `Config.default`. */
  const DefaultConfig := Config([])

  /** `XcodeBuildArgument`: only `.sdk` is built by the modelled code; the rest stand as flags. */
  datatype XcodeBuildArgument = Sdk(name: string) | Flag(text: string)
}
