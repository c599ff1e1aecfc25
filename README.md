# tuist: build and test services, configuration loading, project mappers, target lint rules

A Dafny model of five parts of tuist, the Xcode project generator.

- `tuist build` (`BuildService`). It obtains the project graph: it generates the workspace when asked to or when none exists, and loads the graph otherwise. It then builds one named buildable scheme, or every buildable scheme in turn. Only the first build cleans, and the first failure stops the run.
- `tuist test` (`TestService`). It obtains the graph the same way; the project is generated when no `*.xcworkspace` exists. It selects the testable schemes: the schemes of the projects of the entry targets, without those whose test action has no targets, sorted by name. It then tests one of them by name, or all of them in turn, passing `-sdk` for the simulator of each scheme's first test target.
- `GeneratorModelLoader`.
  - `loadConfig(at:)` finds the configuration manifest. It looks first in the root `Tuist/` directory, then for the deprecated file name and then the current file name up the directory tree, and falls back to the default configuration.
  - `enriched(model:with:)` applies the `xcodeProjectName` and `organizationName` generation options to a loaded project.
- `ProjectMapperProvider.mapper(config:)`: the sequential project mapper run before generation.
- The target lint rules that need no file system: product name, bundle identifier, sources, copied Info.plist and entitlements files, library resources, deployment-target version, platform/product combinations and duplicate dependencies.

## How collaborators and state are modelled

- Collaborators are datatypes whose fields are total functions. Each call answers from its inputs alone. The collaborators are the project generator, the xcodebuild controller, the build-graph inspector, the root-directory locator, the file handler and the manifest loader.
- The services are classes.
  - Both services have a `workspaces` field: the workspaces present in the current directory.
  - `BuildService` asks the build-graph inspector's `workspacePath`, a function of those workspaces, each time it needs a workspace. `TestService` takes the first `*.xcworkspace` match.
  - Both services record the graph requests and xcodebuild calls they make in `seq` fields that their methods extend.
  - Generation writes the workspace it returns into the directory. The field gains it, unless it is already there.
- A Swift force-unwrap of `nil` traps the process. The model shows it as a `Crashed` failure. Examples are `scheme.testAction!`, `xcodeSimulatorSDK!` and the workspace lookups `workspacePath(directory:)!` and `workspacePath()!`, which are made anew for every scheme.
- `Sweep` is the specification of the scheme loop, shared by both services. It is a function over the prepared steps. The services' loops are proved equal to it, and its own properties are proved as lemmas.

## Model

| member | source | states |
|---|---|---|
| BuildOrchestration.BuildServiceError.Description | Sources/TuistKit/Services/BuildService.swift:12-17 | the description is "Couldn't find scheme ", the scheme, ". The available schemes are: ", then exactly the available names joined by ", " |
| BuildOrchestration.BuildServiceError.Type | Sources/TuistKit/Services/BuildService.swift:20-25 | a missing scheme is an abort error |
| BuildOrchestration.DescriptionEndsWithLastName | Sources/TuistKit/Services/BuildService.swift:15 | the description ends with the last available name, with nothing after it |
| BuildOrchestration.DescriptionOfMissingScheme | Tests/TuistKitTests/Services/BuildServiceTests.swift:11-13 | for scheme A among B and C the description is the prefix followed by "B, C"; it is not the test's expected text, which ends in a period |
| BuildOrchestration.GeneratesExactlyWhenNeeded | Sources/TuistKit/Services/BuildService.swift:48-52 | the graph is generated exactly when `generate` is set or the inspector finds no workspace among those present; otherwise it is loaded |
| BuildOrchestration.GraphFailureBuildsNothing | Sources/TuistKit/Services/BuildService.swift:46-52 | when generating or loading throws, the run throws that error, builds nothing and leaves the directory as it was |
| BuildOrchestration.UnknownSchemeBuildsNothing | Sources/TuistKit/Services/BuildService.swift:72-75 | a name no buildable scheme has throws `schemeNotFound` with that name and every buildable name in order; the error aborts; nothing is built |
| BuildOrchestration.NamedSchemeBuildsOnce | Sources/TuistKit/Services/BuildService.swift:58-76 | with a workspace found, a name some scheme has builds exactly once, for the first scheme of that name: cleaning, in that workspace, with its buildable target's arguments; the run ends as that build does |
| BuildOrchestration.AllSchemesBuiltInOrder | Sources/TuistKit/Services/BuildService.swift:56-78 | without a name and with a workspace found, the i-th build is of the i-th buildable scheme, in that workspace; only the first cleans; every build before the last passed; the run passes iff every scheme was built and none threw; otherwise it throws the last build's error |
| BuildOrchestration.BuildTrapsExactlyWithoutWorkspace | Sources/TuistKit/Services/BuildService.swift:58-79 | the run traps iff the lookup finds no workspace and some scheme was selected; the trap is then the workspace lookup's; without a workspace nothing is built |
| BuildOrchestration.BuildCrashesOnlyWithoutWorkspace | Sources/TuistKit/Services/BuildService.swift:46-79 | a whole run traps only on the workspace lookup, only when the inspector finds nothing in the directory the run leaves, and only after generating; every build is in the workspace the inspector finds there |
| BuildOrchestration.BuildStep | Sources/TuistKit/Services/BuildService.swift:60-65 | specified by `BuildTrapsExactlyWithoutWorkspace` and `NamedSchemeBuildsOnce`: the `workspacePath(directory:)!` trap of line 61 when the lookup finds nothing, otherwise a call in the workspace found with the buildable target's arguments |
| BuildOrchestration.BuildSteps | Sources/TuistKit/Services/BuildService.swift:78 | one step per scheme, in order, each that scheme's `BuildStep` |
| BuildOrchestration.BuildSession | Sources/TuistKit/Services/BuildService.swift:46-82 | specified by `GeneratesExactlyWhenNeeded`, `GraphFailureBuildsNothing` and `BuildCrashesOnlyWithoutWorkspace`: how the graph is obtained, what the directory holds afterwards, and where builds are made |
| BuildOrchestration.BuildGraphSchemes | Sources/TuistKit/Services/BuildService.swift:54-79 | specified by `UnknownSchemeBuildsNothing`, `NamedSchemeBuildsOnce`, `AllSchemesBuiltInOrder` and `BuildTrapsExactlyWithoutWorkspace`: the selection, the builds and how the run ends |
| BuildOrchestration.BuildService.constructor | Sources/TuistKit/Services/BuildService.swift:38-44 | the service holds the given collaborators and the workspaces present, and has made no call yet |
| BuildOrchestration.BuildService.Run | Sources/TuistKit/Services/BuildService.swift:46-82 | the graph request, the workspaces the directory holds afterwards, the builds appended and the outcome are those of `BuildSession`, so all the lemmas above apply to it |
| BuildOrchestration.BuildService.BuildSchemes | Sources/TuistKit/Services/BuildService.swift:54-79 | after the graph is obtained, the builds appended and the outcome are those of the scheme selection followed by the sweep |
| BuildOrchestration.BuildService.BuildEach | Sources/TuistKit/Services/BuildService.swift:78 | the loop over the buildable schemes appends exactly the calls of `Sweep` over their steps and ends as it does |
| BuildOrchestration.BuildService.BuildScheme | Sources/TuistKit/Services/BuildService.swift:58-70 | the scheme's step run on its own: a trap when the workspace lookup finds nothing, otherwise one build call in the workspace found, with the scheme's name, the arguments of its buildable target and `clean` iff the latch is unset, ending as the call does; the latch is set afterwards iff it was set or the build completed |
| SchemeRuns.Names | Sources/TuistKit/Services/BuildService.swift:74 | one name per scheme, in order |
| SchemeRuns.NotFoundDescription | Sources/TuistKit/Services/BuildService.swift:15 | specified by `DescriptionEndsWithLastName` and `DescriptionOfMissingScheme`; the message is at least as long as the scheme name |
| SchemeRuns.FirstNamed | Sources/TuistKit/Services/BuildService.swift:73 | the index of a scheme with exactly that name and no earlier one, or none when no scheme has it |
| SchemeRuns.Select | Sources/TuistKit/Services/BuildService.swift:72-79 | without a name, all schemes in order; with a name, the first scheme of that name, or failure (carrying the name and all names) iff no scheme has it |
| SchemeRuns.WithWorkspace | Sources/TuistKit/Services/BuildService.swift:49 | the directory after generation holds the generated workspace and every workspace it held before, the earlier ones first and in order, with at most one added |
| SchemeRuns.StepRun | Sources/TuistKit/Services/TestService.swift:55-68 | one scheme on its own: at most one call; no call iff its preparation traps; never a missing-scheme error |
| SchemeRuns.Sweep | Sources/TuistKit/Services/TestService.swift:76 | specified by `SweepInvocations`, `SweepStopsAtFirstFailure` and `SweepWithoutTraps`; never a missing-scheme error |
| SchemeRuns.SweepInvocations | Sources/TuistKit/Services/BuildService.swift:56-78 | the i-th call is for the i-th step, which did not trap, with the workspace and arguments prepared for it, and cleans iff it is the first call and the latch started unset |
| SchemeRuns.SweepStopsAtFirstFailure | Sources/TuistKit/Services/TestService.swift:53-76 | every call but the last passed; the sweep passes iff every step was called and the last call passed; a thrown error is the last call's; a trap is that of the step right after the last call |
| SchemeRuns.SweepWithoutTraps | Sources/TuistKit/Services/BuildService.swift:58-78 | when no step traps, the sweep fails only by a thrown error, a pass means every step was called, and a non-empty sweep makes at least one call |
| Strings.JoinConcat | Sources/TuistKit/Services/BuildService.swift:15 | joining two non-empty lists gives the two joins with one separator between them |
| Strings.JoinLength | Sources/TuistKit/Services/BuildService.swift:15 | a join is as long as its parts plus one separator between each two neighbours |
| Strings.Join | Sources/TuistKit/Services/BuildService.swift:15 | specified by `JoinConcat` and `JoinLength`: the parts in order with one separator between each two neighbours |
| Strings.ReplacingNothing | Sources/TuistLoader/Loaders/GeneratorModelLoader.swift:122-123 | a string in which the searched text does not occur is unchanged |
| Strings.ReplacingFirst | Sources/TuistLoader/Loaders/GeneratorModelLoader.swift:122-123 | the first occurrence is replaced, the characters before it are kept, and replacement continues after it |
| Strings.ReplacingOccurrences | Sources/TuistLoader/Loaders/GeneratorModelLoader.swift:122-123 | specified by `ReplacingNothing` and `ReplacingFirst` |
| Strings.LexLeTotal | Sources/TuistKit/Services/TestService.swift:95 | any two names are ordered one way or the other |
| Strings.LexLeTransitive | Sources/TuistKit/Services/TestService.swift:95 | the name order is transitive |
| Strings.LexLeReflexive | Sources/TuistKit/Services/TestService.swift:95 | every name is ordered before or equal to itself |
| TestOrchestration.TestServiceError.Description | Sources/TuistKit/Services/TestService.swift:13-18 | the same message shape as the build service's error |
| TestOrchestration.TestServiceError.Type | Sources/TuistKit/Services/TestService.swift:21-26 | a missing scheme is an abort error |
| TestOrchestration.EntryProjects | Sources/TuistKit/Services/TestService.swift:91 | a project is listed iff some entry node is a target node of that project |
| TestOrchestration.Dedupe | Sources/TuistKit/Services/TestService.swift:91 | the same elements as the input, each once |
| TestOrchestration.EntryProjectsOnce | Sources/TuistKit/Services/TestService.swift:91 | the projects of the entry target nodes, with no project twice |
| TestOrchestration.ProjectSchemes | Sources/TuistKit/Services/TestService.swift:93 | a scheme is listed iff some listed project has it |
| TestOrchestration.KeptAsTestable | Sources/TuistKit/Services/TestService.swift:94 | specified by `FilterTestable` and `SchemeWithoutTestActionTraps`: a scheme is kept iff it has no test action or its test action has targets |
| TestOrchestration.FilterTestable | Sources/TuistKit/Services/TestService.swift:94 | a scheme is kept iff it is in the input and has no test action or a test action with targets; each kept scheme keeps its multiplicity |
| TestOrchestration.FilterKeepsNamedOrder | Sources/TuistKit/Services/TestService.swift:94 | the filter keeps the schemes of any one name in their order: filtering and then taking one name's schemes equals taking them and then filtering |
| TestOrchestration.InsertByName | Sources/TuistKit/Services/TestService.swift:95 | the result is the input with the new scheme added, as a multiset |
| TestOrchestration.SortByName | Sources/TuistKit/Services/TestService.swift:95 | the result is a permutation of the input; `SortByNameSorted` and `SortByNameStable` give its order |
| TestOrchestration.InsertKeepsSorted | Sources/TuistKit/Services/TestService.swift:95 | inserting into a list sorted by name keeps it sorted |
| TestOrchestration.SortByNameSorted | Sources/TuistKit/Services/TestService.swift:95 | the sorted list is in ascending name order |
| TestOrchestration.InsertKeepsNamedOrder | Sources/TuistKit/Services/TestService.swift:95 | inserting a scheme puts it before the schemes of its own name already inserted and leaves the order of every name's schemes otherwise unchanged |
| TestOrchestration.SortByNameStable | Sources/TuistKit/Services/TestService.swift:95 | the sort is stable: the schemes of any one name keep their input order |
| TestOrchestration.TestableSchemesSpec | Sources/TuistKit/Services/TestService.swift:90-96 | the testable schemes are sorted by name, a permutation of the filtered schemes of the entry projects, and a scheme is among them iff it is kept by the filter and belongs to the project of some entry target node |
| TestOrchestration.TestableSchemes | Sources/TuistKit/Services/TestService.swift:90-96 | specified by `TestableSchemesSpec`, `SortByNameStable` and `TestableSchemesHaveTestTargets` |
| TestOrchestration.TestableTargetOf | Sources/TuistKit/Services/TestService.swift:85-88 | finding the test target traps only for the three unwraps, never for a missing SDK or a missing workspace |
| TestOrchestration.TestableTargetCases | Sources/TuistKit/Services/TestService.swift:85-88 | it traps with `NoTestAction` iff there is no test action, with `NoTestTargets` iff the action has no targets, and succeeds iff the graph has the first target, returning that target |
| TestOrchestration.TestArguments | Sources/TuistKit/Services/TestService.swift:61-63 | a test call receives exactly one argument, an `-sdk` |
| TestOrchestration.TestArgumentsCases | Sources/TuistKit/Services/TestService.swift:57-63 | a call is made iff the test target is found and is not macOS, with the simulator SDK of its platform; a macOS target traps on the SDK; a target not found passes on its trap |
| TestOrchestration.TestStepInWorkspace | Sources/TuistKit/Services/TestService.swift:55-63 | with a workspace found, a scheme's call is prepared in that workspace exactly when its `-sdk` argument is, and traps where that does otherwise |
| TestOrchestration.TestStep | Sources/TuistKit/Services/TestService.swift:57-63 | specified by `TestStepInWorkspace` and `TestTrapsOnMissingWorkspace`: the test-target trap, then the `workspacePath()!` trap, then the SDK trap, in that order, otherwise a call in the workspace found with its `-sdk` |
| TestOrchestration.TestSteps | Sources/TuistKit/Services/TestService.swift:76 | one step per scheme, in order, each that scheme's `TestStep` |
| TestOrchestration.TestableSchemesHaveTestTargets | Sources/TuistKit/Services/TestService.swift:85-96 | a testable scheme never traps for want of test targets |
| TestOrchestration.FirstWorkspace | Sources/TuistKit/Services/TestService.swift:102-104 | the workspace is the first glob match, and there is none iff nothing matched |
| TestOrchestration.GeneratesExactlyWithoutWorkspace | Sources/TuistKit/Services/TestService.swift:45-49 | the project is generated iff no workspace matches; otherwise the graph is loaded |
| TestOrchestration.UnknownSchemeTestsNothing | Sources/TuistKit/Services/TestService.swift:70-73 | a name no testable scheme has throws `schemeNotFound` with that name and the testable names, which are in ascending order; nothing is tested |
| TestOrchestration.NamedSchemeTestedOnce | Sources/TuistKit/Services/TestService.swift:70-74 | with a workspace found, a name some testable scheme has runs only the first scheme of that name: one cleaning call with its `-sdk` iff its arguments are found, ending as that call does; otherwise its trap, before any call |
| TestOrchestration.AllSchemesTestedInOrder | Sources/TuistKit/Services/TestService.swift:53-76 | without a name and with a workspace found, the i-th test is of the i-th testable scheme, in that workspace, with its `-sdk`; only the first cleans; calls before the last passed; the run passes iff all passed; a trap is that of the next scheme; the run is never rejected |
| TestOrchestration.SchemesTestedInOrder | Sources/TuistKit/Services/TestService.swift:76 | the same as `AllSchemesTestedInOrder`, for any list of schemes swept in a found workspace |
| TestOrchestration.TestTrapsOnMissingWorkspace | Sources/TuistKit/Services/TestService.swift:55-77 | with no match: no call is made, a run with some scheme selected traps at the first one (on its test target if that traps, on the workspace otherwise), and a run with none selected passes; a workspace trap happens only with no match |
| TestOrchestration.TestNeverLacksWorkspace | Sources/TuistKit/Services/TestService.swift:43-104 | a whole run never traps on `workspacePath()!`, because a match existed or generation wrote one; every call is made in the first match of the directory the run leaves |
| TestOrchestration.TestSession | Sources/TuistKit/Services/TestService.swift:43-81 | specified by `GeneratesExactlyWithoutWorkspace` and `TestNeverLacksWorkspace`: how the graph is obtained, what the directory holds afterwards, and where tests are made |
| TestOrchestration.TestGraphSchemes | Sources/TuistKit/Services/TestService.swift:51-77 | specified by `UnknownSchemeTestsNothing`, `NamedSchemeTestedOnce`, `AllSchemesTestedInOrder` and `TestTrapsOnMissingWorkspace` |
| TestOrchestration.TestSelected | Sources/TuistKit/Services/TestService.swift:70-77 | specified through `TestGraphSchemes` and `SchemesTestedInOrder`: selection by name or all, then the sweep of the selected schemes |
| TestOrchestration.SchemeWithoutTestActionTraps | Sources/TuistKit/Services/TestService.swift:85-96 | a scheme without a test action passes the filter (`nil != 0`), is selected, and traps on `testAction!` before any call |
| TestOrchestration.SingleSchemeSelected | Sources/TuistKit/Services/TestService.swift:90-96 | one entry target whose project has only a scheme without test action yields exactly that scheme |
| TestOrchestration.TestService.constructor | Sources/TuistKit/Services/TestService.swift:37-41 | the service holds the given collaborators and the matches present, and has made no call yet |
| TestOrchestration.TestService.WorkspacePath | Sources/TuistKit/Services/TestService.swift:102-104 | a workspace iff something matched, and then one of the matches (the first, as `FirstWorkspace` states) |
| TestOrchestration.TestService.ShouldGenerateProject | Sources/TuistKit/Services/TestService.swift:98-100 | generate iff there is no match |
| TestOrchestration.TestService.Run | Sources/TuistKit/Services/TestService.swift:43-81 | the graph request, the workspaces left behind, the tests appended and the outcome are those of `TestSession` |
| TestOrchestration.TestService.TestSchemes | Sources/TuistKit/Services/TestService.swift:51-77 | after the graph is obtained, the tests appended and the outcome are those of selecting among the testable schemes and sweeping them |
| TestOrchestration.TestService.TestAmong | Sources/TuistKit/Services/TestService.swift:70-77 | selection by name or all, then the sweep over the selected schemes' steps |
| TestOrchestration.TestService.TestEach | Sources/TuistKit/Services/TestService.swift:76 | the loop over the testable schemes appends exactly the calls of `Sweep` over their steps and ends as it does |
| TestOrchestration.TestService.TestScheme | Sources/TuistKit/Services/TestService.swift:55-68 | one scheme run on its own: its test-target trap, then the workspace trap when nothing matches, then its SDK trap; otherwise one test call in the first match with `clean` iff the latch is unset, ending as the call does; the latch is set afterwards iff it was set or the test completed |
| ModelLoading.FirstSome | Sources/TuistLoader/Loaders/GeneratorModelLoader.swift:112-119 | `compactMap(...).first` is none iff no element yields a value; otherwise it is the value of the first element that yields one |
| ModelLoading.Compact | Sources/TuistLoader/Loaders/GeneratorModelLoader.swift:58-60 | exactly the present values, no more of them than the input has |
| ModelLoading.XcodeFileNameOverride | Sources/TuistLoader/Loaders/GeneratorModelLoader.swift:111-126 | none iff there is no `xcodeProjectName` option; otherwise the first such option's template with the project-name token replaced by the project's name |
| ModelLoading.OrganizationNameOverride | Sources/TuistLoader/Loaders/GeneratorModelLoader.swift:128-137 | none iff there is no `organizationName` option; otherwise the first such option's name |
| ModelLoading.TemplateWithoutToken | Sources/TuistLoader/Loaders/GeneratorModelLoader.swift:111-123 | when the first `xcodeProjectName` template holds no project-name token, the file name is that template as written |
| ModelLoading.TokenReplacedByProjectName | Sources/TuistLoader/Loaders/GeneratorModelLoader.swift:121-123 | `"${project_name}-Generated"` for project `App` gives `"App-Generated"` |
| ModelLoading.FirstOptionWins | Sources/TuistLoader/Loaders/GeneratorModelLoader.swift:111-137 | with two options of each kind, only the first of each counts |
| ModelLoading.Enriched | Sources/TuistLoader/Loaders/GeneratorModelLoader.swift:93-109 | only the `.xcodeproj` path and the organization name can change; an override keeps the path's directory and names the file override + ".xcodeproj"; the organization is the override when there is one and is unchanged otherwise |
| ModelLoading.ConfigFileNamesOrder | Sources/TuistLoader/Loaders/GeneratorModelLoader.swift:57-60 | the deprecated name is tried first when there is one; the current name is always tried, last |
| ModelLoading.ConfigFileNames | Sources/TuistLoader/Loaders/GeneratorModelLoader.swift:57-60 | specified by `ConfigFileNamesOrder` |
| ModelLoading.RootConfigPath | Sources/TuistLoader/Loaders/GeneratorModelLoader.swift:49 | the root manifest lies in the root's `Tuist` directory under the manifest's file name |
| ModelLoading.ConfigResolutionOrder | Sources/TuistLoader/Loaders/GeneratorModelLoader.swift:46-71 | the root `Tuist/` manifest wins when it exists; else the deprecated name's nearest directory; else the current name's; else the default configuration; loader errors are passed on |
| ModelLoading.ResolvedConfig | Sources/TuistLoader/Loaders/GeneratorModelLoader.swift:46-71 | specified by `ConfigResolutionOrder` |
| ModelLoading.FirstLocatedConfig | Sources/TuistLoader/Loaders/GeneratorModelLoader.swift:57-70 | specified by `ConfigResolutionOrder`: the first name found up the directory tree is loaded, else the default configuration |
| ModelLoading.LoadConfig | Sources/TuistLoader/Loaders/GeneratorModelLoader.swift:46-71 | the method's loop returns exactly the resolution that `ConfigResolutionOrder` describes |
| ProjectMappers.Mapper | Sources/TuistKit/GraphMappers/ProjectMapperProvider.swift:14-33 | a sequential mapper of 5 mappers, or 4 when autogeneration is disabled; the autogenerated-schemes mapper occurs once, or never when disabled; signing occurs exactly once and last; the last four are derived-directory deletion, Info.plist generation, resources, signing |
| ProjectMappers.MapperCounts | Tests/TuistKitTests/GraphMappers/ProjectMapperProviderTests.swift:36 | with or without the leading autogenerated-schemes mapper, it occurs as often as it leads and signing occurs once |
| ProjectMappers.FixedMapperCounts | Tests/TuistKitTests/GraphMappers/ProjectMapperProviderTests.swift:48 | the four mappers every configuration gets hold signing once and no autogenerated-schemes mapper |
| ProjectMappers.Count | Tests/TuistKitTests/GraphMappers/ProjectMapperProviderTests.swift:36 | the count never exceeds the length, and is zero iff the mapper is absent |
| TargetLinting.LastIndexOf | Tests/TuistGeneratorTests/Linter/TargetLinterTests.swift:62 | the last index holding the character, or none iff no index does |
| TargetLinting.FirstOpeningFrom | Tests/TuistGeneratorTests/Linter/TargetLinterTests.swift:62 | the first `${` from a position that leaves room for one character before the closing brace, or none iff there is none |
| TargetLinting.StripBuildVariables | Tests/TuistGeneratorTests/Linter/TargetLinterTests.swift:62 | removing build variables never lengthens the identifier and leaves one without `}` unchanged |
| TargetLinting.Split | Tests/TuistGeneratorTests/Linter/TargetLinterTests.swift:165-191 | at least one part, no part holds the separator, and joining the parts with the separator gives the string back |
| TargetLinting.Duplicates | Tests/TuistGeneratorTests/Linter/TargetLinterTests.swift:212-226 | a dependency is reported iff it is listed twice or more, and each is reported once |
| TargetLinting.ProductNameIssues | Tests/TuistGeneratorTests/Linter/TargetLinterTests.swift:23-43 | the invalid-product-name error is raised iff the name holds a character other than A-Z, a-z, 0-9 and `_`, and it is the only issue of this rule |
| TargetLinting.ValidProductName | Tests/TuistGeneratorTests/Linter/TargetLinterTests.swift:23-43 | specified by `ProductNameIssues`, `LintRaisesExactly` and `ProductNameCases` |
| TargetLinting.PlatformProductIssues | Tests/TuistGeneratorTests/Linter/TargetLinterTests.swift:193-210 | the platform/product error is raised iff the combination is invalid |
| TargetLinting.BundleIdIssues | Tests/TuistGeneratorTests/Linter/TargetLinterTests.swift:45-63 | the invalid-bundle-identifier error is raised iff, once build variables are removed, a character other than A-Z, a-z, 0-9, `-` and `.` remains |
| TargetLinting.ValidBundleId | Tests/TuistGeneratorTests/Linter/TargetLinterTests.swift:45-63 | specified by `BundleIdIssues`, `BuildVariableAccepted`, `BundleIdUnderscoreAndMarkRejected` and `BundleIdNonAsciiRejected` |
| TargetLinting.SourceIssues | Tests/TuistGeneratorTests/Linter/TargetLinterTests.swift:65-70 | a warning iff a target that takes sources has none; an error iff a target that takes none has some |
| TargetLinting.CopiedFileIssues | Tests/TuistGeneratorTests/Linter/TargetLinterTests.swift:72-97 | a resource is warned about as a copied Info.plist iff it is one, and as a copied entitlements file iff it is one; every issue is such a warning naming the target |
| TargetLinting.LibraryResourceIssues | Tests/TuistGeneratorTests/Linter/TargetLinterTests.swift:119-132 | an error iff a static or dynamic library has resources |
| TargetLinting.DeploymentTargetIssues | Tests/TuistGeneratorTests/Linter/TargetLinterTests.swift:165-191 | an error iff a deployment target's version is not digits.digits with an optional third group |
| TargetLinting.ValidVersion | Tests/TuistGeneratorTests/Linter/TargetLinterTests.swift:165-191 | specified by `DeploymentTargetIssues`, `TwoPartVersionAccepted`, `ThreePartVersionAccepted`, `VersionsWithoutDotRejected`, `LeadingLettersRejected`, `TrailingLettersRejected` and `SinglePart` |
| TargetLinting.DuplicateDependencyIssues | Tests/TuistGeneratorTests/Linter/TargetLinterTests.swift:212-226 | a warning for a dependency iff it is listed twice or more; all such issues are warnings naming the target |
| TargetLinting.InLint | Tests/TuistGeneratorTests/Linter/TargetLinterTests.swift:23-226 | an issue is linted iff one of the rules raises it |
| TargetLinting.LintRaisesExactly | Tests/TuistGeneratorTests/Linter/TargetLinterTests.swift:23-210 | each error and the missing-sources warning is in the target's lint iff its rule is broken |
| TargetLinting.LintWarnsExactly | Tests/TuistGeneratorTests/Linter/TargetLinterTests.swift:72-226 | the copied-file warnings and duplicate-dependency warnings in the lint are exactly those of the offending resources and dependencies |
| TargetLinting.Lint | Tests/TuistGeneratorTests/Linter/TargetLinterTests.swift:23-226 | specified by `InLint`, `LintRaisesExactly`, `LintWarnsExactly` and `CleanTargetHasNoIssues` |
| TargetLinting.CleanTargetHasNoIssues | Tests/TuistGeneratorTests/Linter/TargetLinterTests.swift:150-163 | a target breaking no rule has an empty lint |
| TargetLinting.ProductNameCases | Tests/TuistGeneratorTests/Linter/TargetLinterTests.swift:37-42 | "MyFramework-iOS", "My.Framework", "ⅫFramework" and "ؼFramework" are invalid product names; "MyFramework_iOS" and "MyFramework" are valid |
| TargetLinting.BundleIdUnderscoreAndMarkRejected | Tests/TuistGeneratorTests/Linter/TargetLinterTests.swift:58-59 | "_.company.app" and "com.company.◌́" are invalid bundle identifiers |
| TargetLinting.BundleIdNonAsciiRejected | Tests/TuistGeneratorTests/Linter/TargetLinterTests.swift:60-61 | "Ⅻ.company.app" and "ؼ.company.app" are invalid bundle identifiers |
| TargetLinting.BuildVariableAccepted | Tests/TuistGeneratorTests/Linter/TargetLinterTests.swift:62 | "com.company.MyModule${BUNDLE_SUFFIX}" loses its build variable and is valid |
| TargetLinting.TrailingBuildVariableRemoved | Tests/TuistGeneratorTests/Linter/TargetLinterTests.swift:62 | a trailing `${...}` after a `$`-free prefix is removed and nothing else is |
| TargetLinting.NoBraceUnchanged | Tests/TuistGeneratorTests/Linter/TargetLinterTests.swift:58-61 | an identifier without `}` has nothing removed |
| TargetLinting.TwoPartVersionAccepted | Tests/TuistGeneratorTests/Linter/TargetLinterTests.swift:166 | "10.0" is a valid version |
| TargetLinting.ThreePartVersionAccepted | Tests/TuistGeneratorTests/Linter/TargetLinterTests.swift:166 | "9.0.1" is a valid version |
| TargetLinting.VersionsWithoutDotRejected | Tests/TuistGeneratorTests/Linter/TargetLinterTests.swift:180 | "tuist", "10_0" and "1_1_3" are invalid versions |
| TargetLinting.LeadingLettersRejected | Tests/TuistGeneratorTests/Linter/TargetLinterTests.swift:180 | "tuist9.0.1" is an invalid version |
| TargetLinting.TrailingLettersRejected | Tests/TuistGeneratorTests/Linter/TargetLinterTests.swift:180 | "1.0tuist" is an invalid version |
| TargetLinting.SinglePart | Tests/TuistGeneratorTests/Linter/TargetLinterTests.swift:179-191 | a string without `.` is one part and not a version |
| TargetLinting.SplitParts | Tests/TuistGeneratorTests/Linter/TargetLinterTests.swift:165-191 | splitting on `.` gives back the dot-free parts a string was joined from |
| TargetLinting.NoSourcesWarned | Tests/TuistGeneratorTests/Linter/TargetLinterTests.swift:65-70 | a target without sources that takes sources is warned about |
| TargetLinting.InfoPlistCopiedCase | Tests/TuistGeneratorTests/Linter/TargetLinterTests.swift:72-88 | `/Info.plist` among the resources is warned about; `/GoogleService-Info.plist` is not |
| TargetLinting.EntitlementsCopiedCase | Tests/TuistGeneratorTests/Linter/TargetLinterTests.swift:90-97 | `/App.entitlements` among the resources is warned about |
| TargetLinting.LibraryResourcesCase | Tests/TuistGeneratorTests/Linter/TargetLinterTests.swift:119-132 | a static or dynamic library with a resource gets the resources error naming its product |
| TargetLinting.IosBundleWithSourcesCase | Tests/TuistGeneratorTests/Linter/TargetLinterTests.swift:134-148 | an iOS bundle with a source gets the sources error |
| TargetLinting.ValidIosBundleCase | Tests/TuistGeneratorTests/Linter/TargetLinterTests.swift:150-163 | an iOS bundle with only an asset and no sources has no issue |
| TargetLinting.WatchProductsOnIosCase | Tests/TuistGeneratorTests/Linter/TargetLinterTests.swift:193-210 | a watchOS 2 app or extension on iOS gets the platform/product error |
| TargetLinting.DuplicateDependencyCase | Tests/TuistGeneratorTests/Linter/TargetLinterTests.swift:212-226 | `libc++.tbd` listed twice gets the duplicate-dependency warning |

## Left out

- Logging, output streaming (`printFormattedOutput`, `toBlocking().last()`), `FileHandler.shared` as a global, and the real file system. The file system is replaced by the services' workspace fields and by the file-handler functions.
- Swift `Set` iteration order in `testableSchemes`. It is unspecified. The model keeps each entry project once, in first-occurrence order. The later sort by name makes the result independent of that order except among schemes with equal names.
- Swift's `<` on strings compares by Unicode canonical ordering. The model compares code points lexicographically. Swift's `sorted(by:)` is not documented as stable; the model's `SortByName` is a stable insertion sort. Among schemes of equal names it keeps the order the filter leaves them in (`SortByNameStable`), and the filter keeps the order of the project schemes (`FilterKeepsNamedOrder`).
- `Platform.xcodeSimulatorSDK` and `TemplateString.Token.projectName` are not part of this model. Their values are written as constants: iphonesimulator, appletvsimulator and watchsimulator, none for macOS, and `${project_name}`. `Manifest.config`'s file names and `Constants.tuistDirectoryName` are parameters (`ConfigNames`).
- `Config.from(manifest:)` is folded into the manifest loader's `loadConfig` function. `loadProject`, `loadWorkspace` and both `convert` functions are not modelled. Neither is `TuistCore.Project.from`.
- The build-graph inspector's `workspacePath(directory:)` is a collaborator function of the workspaces present; the model places no constraint on it, so it may miss or misreport the generated workspace.
- Generation is assumed to write the workspace it returns into the current directory, and nothing else changes the directory during a run, so the lookup answers the same for every scheme of one run.
- `TargetLinter.swift` is not part of this model. The lint rules follow what its test suite states. The following are choices the tests do not fix:
  - sources are rejected only for an iOS bundle;
  - resources are rejected only for static and dynamic libraries;
  - the only invalid platform/product pairs are the watchOS 2 app and extension on iOS;
  - a resource is an Info.plist when its file name is exactly `Info.plist`, and an entitlements file when its name ends in `.entitlements`;
  - a deployment-target version uses ASCII digits only, where the regular expression's `\d` would also match other Unicode decimal digits;
  - the order of the issues within a lint is not stated.
- The lint rules that need the file system (Info.plist or entitlements file not found, Core Data models) and the rules the tests do not mention are not modelled.
- TargetLinting.Message: the issue texts are written out, but no contract states them. A dependency is described by a `describe` parameter, standing for Swift's string interpolation of a `Dependency`.
- TargetLinting.StripBuildVariables: models the regular expression `\$\{.+\}` on strings without line breaks. `.` does not match a newline, and the model does not treat newlines specially.
- TargetLinting.ProductNameCases: the two valid cases state the evidently intended property. The test's valid-name helper (TargetLinterTests.swift:31-35) sets the bundle identifier, not the product name.
- BuildOrchestration.BuildServiceError.Description follows the source, which puts no period at the end. BuildServiceTests.swift:12 expects one; `DescriptionOfMissingScheme` states the difference.
- GraphTraverser, the CLI commands and the scale, cache and signing services are outside the modelled core.
