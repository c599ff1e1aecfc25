/**
 * `tuist build`: obtain the graph (generating the workspace when asked to, or
 * when there is none), then build one named buildable scheme or every one of
 * them, cleaning only on the first build and stopping at the first failure.
 */
module BuildOrchestration {
  import opened Wrappers
  import opened Strings
  import opened TuistCore
  import opened SchemeRuns

  /** `BuildServiceError`. */
  datatype BuildServiceError = SchemeNotFound(scheme: string, existing: seq<string>)
  {
    /** `description`: the scheme asked for, then the available names joined by ", ". */
    function Description(): (d: string)
      ensures var prefix := "Couldn't find scheme " + scheme + ". The available schemes are: ";
        |prefix| <= |d| && d[..|prefix|] == prefix && d[|prefix|..] == Join(existing, ", ")
    {
      NotFoundDescription(scheme, existing)
    }

    /** `type`: a scheme that does not exist aborts the command. */
    function Type(): (t: ErrorType)
      ensures t == Abort
    {
      match this
      case SchemeNotFound(_, _) => Abort
    }
  }

  /**
   * The description ends with the last available name: no period follows it.
   */
  lemma DescriptionEndsWithLastName(e: BuildServiceError)
    requires e.existing != []
    ensures var d := e.Description(); var last := e.existing[|e.existing| - 1];
      |last| <= |d| && d[|d| - |last|..] == last
  {
    var xs := e.existing;
    var last := xs[|xs| - 1];
    if |xs| > 1 {
      assert xs == xs[..|xs| - 1] + [last];
      JoinConcat(xs[..|xs| - 1], [last], ", ");
    }
  }

  /**
   * The description for scheme "A" among "B" and "C". It differs from
   * "Couldn't find scheme A. The available schemes are: B, C." in
   * Tests/TuistKitTests/Services/BuildServiceTests.swift, which ends in a period.
   */
  lemma DescriptionOfMissingScheme()
    ensures SchemeNotFound("A", ["B", "C"]).Description() ==
      "Couldn't find scheme " + "A" + ". The available schemes are: " + "B, C"
    ensures SchemeNotFound("A", ["B", "C"]).Description() != "Couldn't find scheme A. The available schemes are: B, C."
  {
    assert Join(["B", "C"], ", ") == "B, C" by {
      assert ["B", "C"][1..] == ["C"];
    }
    var d := SchemeNotFound("A", ["B", "C"]).Description();
    assert |d| == 55;
  }

  /**
   * `BuildGraphInspecting`. `workspacePath` is what `workspacePath(directory:)`
   * answers given the workspaces present in the current directory.
   */
  datatype BuildGraphInspector = BuildGraphInspector(
    workspacePath: seq<AbsolutePath> -> Option<AbsolutePath>,
    buildableSchemes: Graph -> seq<Scheme>,
    buildableTarget: (Scheme, Graph) -> Target,
    buildArguments: Target -> seq<XcodeBuildArgument>)

  /**
   * Building one scheme: its buildable target's arguments, in the workspace
   * the inspector finds at that moment; the force-unwrap of that lookup traps
   * when it finds none.
   */
  function BuildStep(inspector: BuildGraphInspector, graph: Graph, workspace: Option<AbsolutePath>, scheme: Scheme): Step
  {
    var arguments := inspector.buildArguments(inspector.buildableTarget(scheme, graph));
    match workspace
    case None => Step(scheme.name, Failure(NoWorkspace))
    case Some(w) => Step(scheme.name, Success(Prepared(w, arguments)))
  }

  function BuildSteps(inspector: BuildGraphInspector, graph: Graph, workspace: Option<AbsolutePath>,
                      schemes: seq<Scheme>): (steps: seq<Step>)
    ensures |steps| == |schemes|
    ensures forall i :: 0 <= i < |schemes| ==> steps[i] == BuildStep(inspector, graph, workspace, schemes[i])
  {
    seq(|schemes|, i requires 0 <= i < |schemes| => BuildStep(inspector, graph, workspace, schemes[i]))
  }

  /**
   * Everything a call of `run` does once the graph is in hand, given what the
   * inspector's workspace lookup answers while the schemes are built.
   */
  function BuildGraphSchemes(inspector: BuildGraphInspector, controller: XcodeBuildController, graph: Graph,
                             workspace: Option<AbsolutePath>, schemeName: Option<string>): SweepResult<BuildServiceError>
  {
    var schemes := inspector.buildableSchemes(graph);
    match Select(schemes, schemeName)
    case Failure(missing) => SweepResult([], Fail(Rejected(SchemeNotFound(missing.0, missing.1))))
    case Success(chosen) => Sweep(BuildSteps(inspector, graph, workspace, chosen), controller.build, false)
  }

  /** What one call of `run` does: how it got the graph, the workspaces it leaves, its builds and how it ends. */
  datatype Session = Session(request: GraphRequest, workspaces: seq<AbsolutePath>,
                             invocations: seq<Invocation>, outcome: Outcome<Failure<BuildServiceError>>)

  /**
   * `run(schemeName:generate:)` given the workspaces in `currentPath`
   * beforehand. Generation writes the workspace it returns into the directory;
   * every build then looks the workspace up again through the inspector.
   */
  function BuildSession(generator: ProjectGenerator, inspector: BuildGraphInspector, controller: XcodeBuildController,
                        currentPath: AbsolutePath, workspaces: seq<AbsolutePath>,
                        schemeName: Option<string>, generate: bool): Session
  {
    if generate || inspector.workspacePath(workspaces).None? then
      match generator.generateWithGraph(currentPath)
      case Failure(e) => Session(Generate(currentPath), workspaces, [], Fail(Thrown(e)))
      case Success(generated) =>
        var after := WithWorkspace(workspaces, generated.0);
        var r := BuildGraphSchemes(inspector, controller, generated.1, inspector.workspacePath(after), schemeName);
        Session(Generate(currentPath), after, r.invocations, r.outcome)
    else
      match generator.load(currentPath)
      case Failure(e) => Session(Load(currentPath), workspaces, [], Fail(Thrown(e)))
      case Success(graph) =>
        var r := BuildGraphSchemes(inspector, controller, graph, inspector.workspacePath(workspaces), schemeName);
        Session(Load(currentPath), workspaces, r.invocations, r.outcome)
  }

  /** The graph is generated exactly when asked to or when no workspace is found; otherwise it is loaded. */
  lemma GeneratesExactlyWhenNeeded(generator: ProjectGenerator, inspector: BuildGraphInspector, controller: XcodeBuildController,
                                   currentPath: AbsolutePath, workspaces: seq<AbsolutePath>,
                                   schemeName: Option<string>, generate: bool)
    ensures var s := BuildSession(generator, inspector, controller, currentPath, workspaces, schemeName, generate);
      s.request == (if generate || inspector.workspacePath(workspaces).None? then Generate(currentPath) else Load(currentPath))
  {
  }

  /** A failure to obtain the graph ends the run before any build, with the collaborator's error. */
  lemma GraphFailureBuildsNothing(generator: ProjectGenerator, inspector: BuildGraphInspector, controller: XcodeBuildController,
                                  currentPath: AbsolutePath, workspaces: seq<AbsolutePath>,
                                  schemeName: Option<string>, generate: bool)
    requires var r := if generate || inspector.workspacePath(workspaces).None? then generator.generateWithGraph(currentPath).Failure?
                      else generator.load(currentPath).Failure?;
             r
    ensures var s := BuildSession(generator, inspector, controller, currentPath, workspaces, schemeName, generate);
      s.invocations == [] && s.outcome.Fail? && s.outcome.error.Thrown? && s.workspaces == workspaces
  {
  }

  /**
   * A name no buildable scheme has: the run throws `schemeNotFound` with that
   * name and all buildable names in the inspector's order, and builds nothing.
   */
  lemma UnknownSchemeBuildsNothing(inspector: BuildGraphInspector, controller: XcodeBuildController, graph: Graph,
                                   workspace: Option<AbsolutePath>, name: string)
    requires forall s :: s in inspector.buildableSchemes(graph) ==> s.name != name
    ensures var r := BuildGraphSchemes(inspector, controller, graph, workspace, Some(name));
      r.invocations == [] &&
      r.outcome == Fail(Rejected(SchemeNotFound(name, Names(inspector.buildableSchemes(graph))))) &&
      r.outcome.error.error.Type() == Abort
  {
  }

  /**
   * A name some buildable scheme has, with a workspace found: exactly one build
   * runs, for the first such scheme, cleaning, with the arguments of its
   * buildable target; the run ends as that build does.
   */
  lemma NamedSchemeBuildsOnce(inspector: BuildGraphInspector, controller: XcodeBuildController, graph: Graph,
                              workspace: AbsolutePath, name: string, i: nat)
    requires var schemes := inspector.buildableSchemes(graph);
      i < |schemes| && schemes[i].name == name && forall j :: 0 <= j < i ==> schemes[j].name != name
    ensures var scheme := inspector.buildableSchemes(graph)[i];
      var call := Invocation(workspace, name, true, inspector.buildArguments(inspector.buildableTarget(scheme, graph)));
      var r := BuildGraphSchemes(inspector, controller, graph, Some(workspace), Some(name));
      r.invocations == [call] &&
      r.outcome == (if controller.build(call).Pass? then Pass else Fail(Thrown(controller.build(call).error)))
  {
    var schemes := inspector.buildableSchemes(graph);
    var k := FirstNamed(schemes, name);
    assert k == Some(i);
    assert Select(schemes, Some(name)) == Success([schemes[i]]);
    var steps := BuildSteps(inspector, graph, Some(workspace), [schemes[i]]);
    assert steps == [BuildStep(inspector, graph, Some(workspace), schemes[i])];
    assert steps[1..] == [];
    assert Sweep<BuildServiceError>([], controller.build, true) == SweepResult([], Pass);
  }

  /**
   * Without a name and with a workspace found, the buildable schemes are built
   * in the inspector's order, one build each, the first one cleaning and no
   * other; the builds stop at the first one that throws, which ends the run
   * with that error; when none throws, every scheme is built and the run passes.
   */
  lemma AllSchemesBuiltInOrder(inspector: BuildGraphInspector, controller: XcodeBuildController, graph: Graph,
                               workspace: AbsolutePath)
    ensures var schemes := inspector.buildableSchemes(graph);
      var r := BuildGraphSchemes(inspector, controller, graph, Some(workspace), None);
      var n := |r.invocations|;
      && n <= |schemes|
      && (forall i :: 0 <= i < n ==>
            r.invocations[i] == Invocation(workspace, schemes[i].name, i == 0,
                                           inspector.buildArguments(inspector.buildableTarget(schemes[i], graph))))
      && (forall i :: 0 <= i < n - 1 ==> controller.build(r.invocations[i]).Pass?)
      && (r.outcome.Pass? <==> n == |schemes| && (n == 0 || controller.build(r.invocations[n - 1]).Pass?))
      && (r.outcome.Fail? ==> r.outcome.error.Thrown? && n > 0 &&
                              controller.build(r.invocations[n - 1]) == Fail(r.outcome.error.thrown))
  {
    var schemes := inspector.buildableSchemes(graph);
    var steps := BuildSteps(inspector, graph, Some(workspace), schemes);
    SweepInvocations<BuildServiceError>(steps, controller.build, false);
    SweepStopsAtFirstFailure<BuildServiceError>(steps, controller.build, false);
    SweepWithoutTraps<BuildServiceError>(steps, controller.build, false);
  }

  /**
   * The force-unwrap of the workspace lookup: when the lookup finds nothing,
   * no build is made, and the run traps exactly when a scheme was selected
   * to build; with a workspace found, the run never traps.
   */
  lemma BuildTrapsExactlyWithoutWorkspace(inspector: BuildGraphInspector, controller: XcodeBuildController, graph: Graph,
                                          workspace: Option<AbsolutePath>, schemeName: Option<string>)
    ensures var r := BuildGraphSchemes(inspector, controller, graph, workspace, schemeName);
      var selected := Select(inspector.buildableSchemes(graph), schemeName);
      && (r.outcome.Fail? && r.outcome.error.Crashed? <==> workspace.None? && selected.Success? && selected.value != [])
      && (r.outcome.Fail? && r.outcome.error.Crashed? ==> r.outcome.error.crash == NoWorkspace)
      && (workspace.None? ==> r.invocations == [])
  {
    var selected := Select(inspector.buildableSchemes(graph), schemeName);
    if selected.Success? {
      var steps := BuildSteps(inspector, graph, workspace, selected.value);
      if workspace.Some? {
        SweepWithoutTraps<BuildServiceError>(steps, controller.build, false);
      } else if steps != [] {
        assert steps[0].prepared == Failure(NoWorkspace);
      }
    }
  }

  /**
   * A whole run traps only on the workspace lookup, and only when the
   * inspector finds no workspace in the directory as the run leaves it; every
   * build is made in the workspace the inspector finds there, which after
   * generation need not be the generated one. A run that loads the graph
   * found a workspace beforehand and never traps.
   */
  lemma BuildCrashesOnlyWithoutWorkspace(generator: ProjectGenerator, inspector: BuildGraphInspector, controller: XcodeBuildController,
                                         currentPath: AbsolutePath, workspaces: seq<AbsolutePath>,
                                         schemeName: Option<string>, generate: bool)
    ensures var s := BuildSession(generator, inspector, controller, currentPath, workspaces, schemeName, generate);
      var found := inspector.workspacePath(s.workspaces);
      && (s.outcome.Fail? && s.outcome.error.Crashed? ==> s.outcome.error.crash == NoWorkspace && found.None? && s.request.Generate?)
      && (s.invocations != [] ==> found.Some? && forall i :: 0 <= i < |s.invocations| ==> s.invocations[i].workspace == found.value)
  {
    var s := BuildSession(generator, inspector, controller, currentPath, workspaces, schemeName, generate);
    var found := inspector.workspacePath(s.workspaces);
    var graph := if generate || inspector.workspacePath(workspaces).None? then
        (if generator.generateWithGraph(currentPath).Success? then generator.generateWithGraph(currentPath).value.1 else Graph([], map[]))
      else (if generator.load(currentPath).Success? then generator.load(currentPath).value else Graph([], map[]));
    BuildTrapsExactlyWithoutWorkspace(inspector, controller, graph, found, schemeName);
    if found.Some? {
      match Select(inspector.buildableSchemes(graph), schemeName)
      case Failure(_) =>
      case Success(chosen) =>
        var steps := BuildSteps(inspector, graph, found, chosen);
        SweepInvocations<BuildServiceError>(steps, controller.build, false);
    }
  }

  /**
   * The build command's service. The collaborators are fixed at construction;
   * `workspaces` are the workspaces in the current directory (generation
   * writes one); `graphRequests` and `invocations` record the calls made to
   * the generator and to xcodebuild; `cleaned` is the clean-once latch of a run.
   */
  class BuildService {
    const projectGenerator: ProjectGenerator
    const xcodebuildController: XcodeBuildController
    const buildGraphInspector: BuildGraphInspector
    const currentPath: AbsolutePath
    var workspaces: seq<AbsolutePath>
    var graphRequests: seq<GraphRequest>
    var invocations: seq<Invocation>
    var cleaned: bool

    constructor (projectGenerator: ProjectGenerator, xcodebuildController: XcodeBuildController,
                 buildGraphInspector: BuildGraphInspector, currentPath: AbsolutePath, workspaces: seq<AbsolutePath>)
      ensures this.projectGenerator == projectGenerator && this.xcodebuildController == xcodebuildController
      ensures this.buildGraphInspector == buildGraphInspector && this.currentPath == currentPath
      ensures this.workspaces == workspaces && graphRequests == [] && invocations == [] && !cleaned
    {
      this.projectGenerator := projectGenerator;
      this.xcodebuildController := xcodebuildController;
      this.buildGraphInspector := buildGraphInspector;
      this.currentPath := currentPath;
      this.workspaces := workspaces;
      graphRequests := [];
      invocations := [];
      cleaned := false;
    }

    /** `run(schemeName:generate:)`: its calls and its end are those of `BuildSession`. */
    method Run(schemeName: Option<string>, generate: bool) returns (outcome: Outcome<Failure<BuildServiceError>>)
      modifies this
      ensures var s := BuildSession(projectGenerator, buildGraphInspector, xcodebuildController,
                                    currentPath, old(workspaces), schemeName, generate);
        && graphRequests == old(graphRequests) + [s.request]
        && workspaces == s.workspaces
        && invocations == old(invocations) + s.invocations
        && outcome == s.outcome
    {
      var graph: Graph;
      if generate || buildGraphInspector.workspacePath(workspaces) == None {
        graphRequests := graphRequests + [Generate(currentPath)];
        var generated := projectGenerator.generateWithGraph(currentPath);
        if generated.Failure? {
          return Fail(Thrown(generated.error));
        }
        workspaces := WithWorkspace(workspaces, generated.value.0);
        graph := generated.value.1;
      } else {
        graphRequests := graphRequests + [Load(currentPath)];
        var loaded := projectGenerator.load(currentPath);
        if loaded.Failure? {
          return Fail(Thrown(loaded.error));
        }
        graph := loaded.value;
      }

      outcome := BuildSchemes(graph, schemeName);
    }

    /** The part of `run` after the graph is obtained: select the schemes, then build them. */
    method BuildSchemes(graph: Graph, schemeName: Option<string>) returns (outcome: Outcome<Failure<BuildServiceError>>)
      modifies this`invocations, this`cleaned
      ensures var r := BuildGraphSchemes(buildGraphInspector, xcodebuildController, graph,
                                         buildGraphInspector.workspacePath(workspaces), schemeName);
        invocations == old(invocations) + r.invocations && outcome == r.outcome
    {
      var buildableSchemes := buildGraphInspector.buildableSchemes(graph);
      cleaned := false;
      match schemeName
      case Some(name) =>
        var found := FirstNamed(buildableSchemes, name);
        if found.None? {
          return Fail(Rejected(SchemeNotFound(name, Names(buildableSchemes))));
        }
        var scheme := buildableSchemes[found.value];
        ghost var steps := BuildSteps(buildGraphInspector, graph, buildGraphInspector.workspacePath(workspaces), [scheme]);
        ghost var full := Sweep<BuildServiceError>(steps, xcodebuildController.build, false);
        assert Select(buildableSchemes, schemeName) == Success([scheme]);
        assert steps[0..] == steps && steps[1..] == [];
        assert Sweep<BuildServiceError>([], xcodebuildController.build, true) == SweepResult([], Pass);
        SweepAdvance<BuildServiceError>(steps, 0, xcodebuildController.build, false, [], full);
        outcome := BuildScheme(scheme, graph);
      case None =>
        outcome := BuildEach(graph, buildableSchemes);
    }

    /** `buildableSchemes.forEach(buildScheme)`, starting with the latch unset. */
    method BuildEach(graph: Graph, schemes: seq<Scheme>) returns (outcome: Outcome<Failure<BuildServiceError>>)
      requires !cleaned
      modifies this`invocations, this`cleaned
      ensures var r := Sweep<BuildServiceError>(BuildSteps(buildGraphInspector, graph, buildGraphInspector.workspacePath(workspaces), schemes),
                                                xcodebuildController.build, false);
        invocations == old(invocations) + r.invocations && outcome == r.outcome
    {
      ghost var steps := BuildSteps(buildGraphInspector, graph, buildGraphInspector.workspacePath(workspaces), schemes);
      ghost var full := Sweep<BuildServiceError>(steps, xcodebuildController.build, false);
      ghost var done: seq<Invocation> := [];
      assert steps[0..] == steps && done + full.invocations == full.invocations;
      var i := 0;
      while i < |schemes|
        invariant 0 <= i <= |schemes|
        invariant cleaned == (i > 0)
        invariant invocations == old(invocations) + done
        invariant var rest := Sweep<BuildServiceError>(steps[i..], xcodebuildController.build, cleaned);
          full.invocations == done + rest.invocations && full.outcome == rest.outcome
      {
        assert steps[i] == BuildStep(buildGraphInspector, graph, buildGraphInspector.workspacePath(workspaces), schemes[i]);
        SweepAdvance<BuildServiceError>(steps, i, xcodebuildController.build, cleaned, done, full);
        ghost var one := StepRun<BuildServiceError>(steps[i], xcodebuildController.build, cleaned);
        var result := BuildScheme(schemes[i], graph);
        AppendAssociates(old(invocations), done, one.invocations);
        if result.Fail? {
          return result;
        }
        done := done + one.invocations;
        i := i + 1;
      }
      assert steps[i..] == [] && done + [] == done;
      outcome := Pass;
    }

    /**
     * The nested `buildScheme`: look the workspace up (trapping when there is
     * none), then one xcodebuild call, cleaning unless the latch is set, which
     * a completed build sets.
     */
    method BuildScheme(scheme: Scheme, graph: Graph) returns (outcome: Outcome<Failure<BuildServiceError>>)
      modifies this`invocations, this`cleaned
      ensures var r := StepRun<BuildServiceError>(BuildStep(buildGraphInspector, graph, buildGraphInspector.workspacePath(workspaces), scheme),
                                                  xcodebuildController.build, old(cleaned));
        invocations == old(invocations) + r.invocations && outcome == r.outcome
      ensures cleaned == (old(cleaned) || outcome.Pass?)
    {
      var buildableTarget := buildGraphInspector.buildableTarget(scheme, graph);
      var workspacePath := buildGraphInspector.workspacePath(workspaces);
      if workspacePath.None? {
        return Fail(Crashed(NoWorkspace));
      }
      var call := Invocation(workspacePath.value, scheme.name, cleaned == false, buildGraphInspector.buildArguments(buildableTarget));
      invocations := invocations + [call];
      var result := xcodebuildController.build(call);
      if result.Fail? {
        return Fail(Thrown(result.error));
      }
      cleaned := true;
      outcome := Pass;
    }
  }
}
