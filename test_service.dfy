/**
 * `tuist test`: obtain the graph (generating the workspace when none is found),
 * compute the testable schemes of the projects of the graph's entry targets,
 * then test one named scheme or every one of them in name order, cleaning only
 * on the first test and stopping at the first failure.
 */
module TestOrchestration {
  import opened Wrappers
  import opened Strings
  import opened TuistCore
  import opened SchemeRuns

  /** `TestServiceError`. */
  datatype TestServiceError = SchemeNotFound(scheme: string, existing: seq<string>)
  {
    /** `description`: the scheme asked for, then the available names joined by ", ". */
    function Description(): (d: string)
      ensures var prefix := "Couldn't find scheme " + scheme + ". The available schemes are: ";
        |prefix| <= |d| && d[..|prefix|] == prefix && d[|prefix|..] == Join(existing, ", ")
    {
      NotFoundDescription(scheme, existing)
    }

    /** `type`: a scheme that does not exist aborts the command. */
    function Type(): (t: ErrorType)
      ensures t == Abort
    {
      match this
      case SchemeNotFound(_, _) => Abort
    }
  }

  // ---------------------------------------------------------------------------
  // testableSchemes(graph:)

  /** `entryNodes.compactMap { ($0 as? TargetNode)?.project }`. */
  function EntryProjects(nodes: seq<GraphNode>): (projects: seq<Project>)
    ensures forall p :: p in projects <==> exists n :: n in nodes && n.TargetNode? && n.project == p
    decreases |nodes|
  {
    if nodes == [] then []
    else
      var rest := EntryProjects(nodes[1..]);
      assert forall n :: n in nodes[1..] ==> n in nodes;
      assert forall n :: n in nodes ==> n == nodes[0] || n in nodes[1..];
      if nodes[0].TargetNode? then [nodes[0].project] + rest else rest
  }

  /** Each element once, at its first position: the role `Set(...)` plays on the projects. */
  function Dedupe<T(==,!new)>(xs: seq<T>): (r: seq<T>)
    ensures forall x :: x in r <==> x in xs
    ensures forall i, j :: 0 <= i < j < |r| ==> r[i] != r[j]
    decreases |xs|
  {
    if xs == [] then []
    else
      var init := Dedupe(xs[..|xs| - 1]);
      assert xs == xs[..|xs| - 1] + [xs[|xs| - 1]];
      if xs[|xs| - 1] in init then init else init + [xs[|xs| - 1]]
  }

  /** `flatMap { $0.schemes }`. */
  function ProjectSchemes(projects: seq<Project>): (schemes: seq<Scheme>)
    ensures forall s :: s in schemes <==> exists p :: p in projects && s in p.schemes
    decreases |projects|
  {
    if projects == [] then []
    else
      var rest := ProjectSchemes(projects[1..]);
      assert forall p :: p in projects[1..] ==> p in projects;
      assert forall p :: p in projects ==> p == projects[0] || p in projects[1..];
      projects[0].schemes + rest
  }

  /**
   * The filter `$0.testAction?.targets.count != 0`. Swift compares the optional
   * count with 0, and `nil != 0` holds: a scheme without a test action is kept.
   */
  predicate KeptAsTestable(scheme: Scheme)
  {
    scheme.testAction.None? || |scheme.testAction.value.targets| != 0
  }

  function FilterTestable(schemes: seq<Scheme>): (kept: seq<Scheme>)
    ensures forall s :: s in kept <==> s in schemes && KeptAsTestable(s)
    ensures forall s :: KeptAsTestable(s) ==> multiset(kept)[s] == multiset(schemes)[s]
    ensures forall s :: !KeptAsTestable(s) ==> multiset(kept)[s] == 0
    decreases |schemes|
  {
    if schemes == [] then []
    else
      var rest := FilterTestable(schemes[1..]);
      assert schemes == [schemes[0]] + schemes[1..];
      if KeptAsTestable(schemes[0]) then [schemes[0]] + rest else rest
  }

  /** Ascending by name, as `sorted(by: { $0.name < $1.name })` leaves them. */
  ghost predicate SortedByName(schemes: seq<Scheme>)
  {
    forall i, j :: 0 <= i < j < |schemes| ==> LexLe(schemes[i].name, schemes[j].name)
  }

  /** Insert `x` before the first scheme whose name is not less than its own. */
  function InsertByName(x: Scheme, sorted: seq<Scheme>): (r: seq<Scheme>)
    ensures multiset(r) == multiset(sorted) + multiset{x}
    decreases |sorted|
  {
    if sorted == [] then [x]
    else if LexLe(x.name, sorted[0].name) then [x] + sorted
    else
      assert sorted == [sorted[0]] + sorted[1..];
      [sorted[0]] + InsertByName(x, sorted[1..])
  }

  /**
   * `sorted(by: { $0.name < $1.name })`, as a stable insertion sort: each
   * scheme goes before the later ones of the same name.
   */
  function SortByName(schemes: seq<Scheme>): (r: seq<Scheme>)
    ensures multiset(r) == multiset(schemes)
    decreases |schemes|
  {
    if schemes == [] then []
    else
      assert schemes == [schemes[0]] + schemes[1..];
      InsertByName(schemes[0], SortByName(schemes[1..]))
  }

  lemma {:induction false} InsertKeepsSorted(x: Scheme, sorted: seq<Scheme>)
    requires SortedByName(sorted)
    ensures SortedByName(InsertByName(x, sorted))
    decreases |sorted|
  {
    if sorted == [] {
    } else if LexLe(x.name, sorted[0].name) {
      forall y | y in sorted ensures LexLe(x.name, y.name) {
        var j :| 0 <= j < |sorted| && sorted[j] == y;
        if j > 0 {
          LexLeTransitive(x.name, sorted[0].name, sorted[j].name);
        }
      }
      ConsKeepsSorted(x, sorted);
    } else {
      LexLeTotal(x.name, sorted[0].name);
      var tail := InsertByName(x, sorted[1..]);
      InsertKeepsSorted(x, sorted[1..]);
      forall y | y in tail ensures LexLe(sorted[0].name, y.name) {
        assert y in multiset(tail);
        if y != x {
          assert y in multiset(sorted[1..]);
          var k :| 0 <= k < |sorted[1..]| && sorted[1..][k] == y;
          assert sorted[k + 1] == y;
        }
      }
      ConsKeepsSorted(sorted[0], tail);
    }
  }

  /** A scheme that sorts no later than every scheme of a sorted list may lead it. */
  lemma ConsKeepsSorted(head: Scheme, rest: seq<Scheme>)
    requires SortedByName(rest)
    requires forall y | y in rest :: LexLe(head.name, y.name)
    ensures SortedByName([head] + rest)
  {
    var r := [head] + rest;
    forall i, j | 0 <= i < j < |r| ensures LexLe(r[i].name, r[j].name) {
      assert r[j] == rest[j - 1] && r[j] in rest;
      if i > 0 {
        assert r[i] == rest[i - 1];
      }
    }
  }

  lemma {:induction false} SortByNameSorted(schemes: seq<Scheme>)
    ensures SortedByName(SortByName(schemes))
    decreases |schemes|
  {
    if schemes != [] {
      SortByNameSorted(schemes[1..]);
      InsertKeepsSorted(schemes[0], SortByName(schemes[1..]));
    }
  }

  /** The schemes of `schemes` named `name`, in their order. */
  function Named(schemes: seq<Scheme>, name: string): seq<Scheme>
    decreases |schemes|
  {
    if schemes == [] then []
    else (if schemes[0].name == name then [schemes[0]] else []) + Named(schemes[1..], name)
  }

  /** `Named` of a list whose leading scheme has the name. */
  lemma NamedKeeps(head: Scheme, tail: seq<Scheme>, name: string)
    requires head.name == name
    ensures Named([head] + tail, name) == [head] + Named(tail, name)
  {
    assert ([head] + tail)[1..] == tail;
  }

  /** `Named` of a list whose leading scheme has another name. */
  lemma NamedSkips(head: Scheme, tail: seq<Scheme>, name: string)
    requires head.name != name
    ensures Named([head] + tail, name) == Named(tail, name)
  {
    assert ([head] + tail)[1..] == tail;
  }

  /** The filter keeps the schemes of any one name in their order: filtering commutes with `Named`. */
  lemma {:induction false} FilterKeepsNamedOrder(schemes: seq<Scheme>, name: string)
    ensures Named(FilterTestable(schemes), name) == FilterTestable(Named(schemes, name))
    decreases |schemes|
  {
    if schemes != [] {
      var head, rest := schemes[0], schemes[1..];
      FilterKeepsNamedOrder(rest, name);
      FilterCons(head, rest);
      assert schemes == [head] + rest;
      if head.name == name {
        NamedKeeps(head, rest, name);
        FilterCons(head, Named(rest, name));
        if KeptAsTestable(head) {
          NamedKeeps(head, FilterTestable(rest), name);
        }
      } else {
        NamedSkips(head, rest, name);
        if KeptAsTestable(head) {
          NamedSkips(head, FilterTestable(rest), name);
        }
      }
    }
  }

  /** `FilterTestable` of a list with a leading scheme. */
  lemma FilterCons(head: Scheme, tail: seq<Scheme>)
    ensures FilterTestable([head] + tail) == (if KeptAsTestable(head) then [head] else []) + FilterTestable(tail)
  {
    assert ([head] + tail)[1..] == tail;
  }

  /** Inserting `x` puts it before every scheme of the same name and moves no other scheme of that name. */
  lemma {:induction false} InsertKeepsNamedOrder(x: Scheme, sorted: seq<Scheme>, name: string)
    ensures x.name == name ==> Named(InsertByName(x, sorted), name) == [x] + Named(sorted, name)
    ensures x.name != name ==> Named(InsertByName(x, sorted), name) == Named(sorted, name)
    decreases |sorted|
  {
    if sorted == [] || LexLe(x.name, sorted[0].name) {
      assert InsertByName(x, sorted) == [x] + sorted;
      if x.name == name {
        NamedKeeps(x, sorted, name);
      } else {
        NamedSkips(x, sorted, name);
      }
    } else {
      LexLeReflexive(x.name);
      var head := sorted[0];
      var tail := InsertByName(x, sorted[1..]);
      assert InsertByName(x, sorted) == [head] + tail;
      assert sorted == [head] + sorted[1..];
      InsertKeepsNamedOrder(x, sorted[1..], name);
      if head.name == name {
        NamedKeeps(head, tail, name);
        NamedKeeps(head, sorted[1..], name);
      } else {
        NamedSkips(head, tail, name);
        NamedSkips(head, sorted[1..], name);
        if x.name == name {
          assert Named(InsertByName(x, sorted), name) == Named(tail, name);
        }
      }
    }
  }

  /** The sort is stable: the schemes of any one name keep their input order. */
  lemma {:induction false} SortByNameStable(schemes: seq<Scheme>, name: string)
    ensures Named(SortByName(schemes), name) == Named(schemes, name)
    decreases |schemes|
  {
    if schemes != [] {
      var head, rest := schemes[0], schemes[1..];
      assert SortByName(schemes) == InsertByName(head, SortByName(rest));
      SortByNameStable(rest, name);
      InsertKeepsNamedOrder(head, SortByName(rest), name);
      if head.name == name {
        assert Named(schemes, name) == [head] + Named(rest, name);
      } else {
        assert Named(schemes, name) == [] + Named(rest, name);
      }
    }
  }

  /** The projects of the entry target nodes, each once. */
  function EntryProjectsOnce(graph: Graph): (projects: seq<Project>)
    ensures forall p :: p in projects <==> exists n :: n in graph.entryNodes && n.TargetNode? && n.project == p
    ensures forall i, j :: 0 <= i < j < |projects| ==> projects[i] != projects[j]
  {
    Dedupe(EntryProjects(graph.entryNodes))
  }

  /** `testableSchemes(graph:)`. */
  function TestableSchemes(graph: Graph): seq<Scheme>
  {
    SortByName(FilterTestable(ProjectSchemes(EntryProjectsOnce(graph))))
  }

  /**
   * The testable schemes are in ascending name order; they are the schemes of
   * the projects of the entry target nodes, each project counted once, that
   * are kept by the filter: a scheme is dropped exactly when it has a test
   * action with no targets.
   */
  lemma TestableSchemesSpec(graph: Graph)
    ensures var r := TestableSchemes(graph);
      && SortedByName(r)
      && multiset(r) == multiset(FilterTestable(ProjectSchemes(EntryProjectsOnce(graph))))
      && forall s :: s in r <==>
           KeptAsTestable(s) && exists n :: n in graph.entryNodes && n.TargetNode? && s in n.project.schemes
  {
    var kept := FilterTestable(ProjectSchemes(EntryProjectsOnce(graph)));
    SortByNameSorted(kept);
    var r := TestableSchemes(graph);
    forall s ensures s in r <==> s in kept {
      assert s in r <==> s in multiset(r);
      assert s in kept <==> s in multiset(kept);
    }
    forall s ensures s in kept <==>
      KeptAsTestable(s) && exists n :: n in graph.entryNodes && n.TargetNode? && s in n.project.schemes
    {
      if s in kept {
        var p :| p in EntryProjectsOnce(graph) && s in p.schemes;
        var n :| n in graph.entryNodes && n.TargetNode? && n.project == p;
      }
      if KeptAsTestable(s) && exists n :: n in graph.entryNodes && n.TargetNode? && s in n.project.schemes {
        var n :| n in graph.entryNodes && n.TargetNode? && s in n.project.schemes;
        assert n.project in EntryProjectsOnce(graph);
      }
    }
  }

  // ---------------------------------------------------------------------------
  // testableTarget(scheme:graph:) and the arguments of a test call

  /** The first test target of the scheme, by `(projectPath, name)`. */
  function FirstTestTarget(scheme: Scheme): TargetReference
    requires scheme.testAction.Some? && scheme.testAction.value.targets != []
  {
    scheme.testAction.value.targets[0].target
  }

  /**
   * `testableTarget(scheme:graph:)`: the graph's target for the first target of
   * the test action. Each of its three force-unwraps traps: when the test
   * action is missing, when it has no target, or when the graph lacks that
   * target. `TestableTargetCases` states which happens when.
   */
  function TestableTargetOf(scheme: Scheme, graph: Graph): (r: Result<Target, Crash>)
    ensures r.Failure? ==> r.error != NoSimulatorSDK && r.error != NoWorkspace
  {
    match scheme.testAction
    case None => Failure(NoTestAction)
    case Some(action) =>
      if action.targets == [] then Failure(NoTestTargets)
      else
        var reference := action.targets[0].target;
        match graph.TargetAt(reference.projectPath, reference.name)
        case None => Failure(TargetNotInGraph)
        case Some(target) => Success(target)
  }

  /** The test target is found exactly when the test action names a first target the graph has; each trap has its own cause. */
  lemma TestableTargetCases(scheme: Scheme, graph: Graph)
    ensures var r := TestableTargetOf(scheme, graph);
      && (r == Failure(NoTestAction) <==> scheme.testAction.None?)
      && (r == Failure(NoTestTargets) <==> scheme.testAction.Some? && scheme.testAction.value.targets == [])
      && (r.Success? <==> scheme.testAction.Some? && scheme.testAction.value.targets != [] &&
                          FirstTestTarget(scheme) in graph.targets)
      && (r.Success? ==> r.value == graph.targets[FirstTestTarget(scheme)])
  {
  }

  /**
   * The arguments of the test call: only `.sdk` of the target platform's
   * simulator SDK, whose force-unwrap traps for a platform without one.
   */
  function TestArguments(scheme: Scheme, graph: Graph): (r: Result<seq<XcodeBuildArgument>, Crash>)
    ensures r.Success? ==> |r.value| == 1 && r.value[0].Sdk?
  {
    match TestableTargetOf(scheme, graph)
    case Failure(c) => Failure(c)
    case Success(target) =>
      match target.platform.XcodeSimulatorSDK()
      case None => Failure(NoSimulatorSDK)
      case Some(sdk) => Success([Sdk(sdk)])
  }

  /**
   * A test call is made exactly when the test target is found and is not a
   * macOS one, with the `.sdk` of its platform's simulator; otherwise the
   * trap met finding the target, or the missing simulator SDK.
   */
  lemma TestArgumentsCases(scheme: Scheme, graph: Graph)
    ensures var t := TestableTargetOf(scheme, graph);
      var r := TestArguments(scheme, graph);
      && (r.Success? <==> t.Success? && t.value.platform != MacOS)
      && (r.Success? ==> r.value == [Sdk(t.value.platform.XcodeSimulatorSDK().value)])
      && (t.Success? && t.value.platform == MacOS ==> r == Failure(NoSimulatorSDK))
      && (t.Failure? ==> r == Failure(t.error))
  {
  }

  /**
   * Testing one scheme, in the order Swift evaluates it: the test target
   * (which may trap), then the workspace lookup `workspacePath()!` (which
   * traps when nothing matches), then the simulator SDK (which may trap).
   */
  function TestStep(graph: Graph, workspace: Option<AbsolutePath>, scheme: Scheme): Step
  {
    match TestableTargetOf(scheme, graph)
    case Failure(c) => Step(scheme.name, Failure(c))
    case Success(_) =>
      match workspace
      case None => Step(scheme.name, Failure(NoWorkspace))
      case Some(w) =>
        match TestArguments(scheme, graph)
        case Failure(c) => Step(scheme.name, Failure(c))
        case Success(args) => Step(scheme.name, Success(Prepared(w, args)))
  }

  function TestSteps(graph: Graph, workspace: Option<AbsolutePath>, schemes: seq<Scheme>): (steps: seq<Step>)
    ensures |steps| == |schemes|
    ensures forall i :: 0 <= i < |schemes| ==> steps[i] == TestStep(graph, workspace, schemes[i])
  {
    seq(|schemes|, i requires 0 <= i < |schemes| => TestStep(graph, workspace, schemes[i]))
  }

  /**
   * With a workspace found, a scheme's call is made exactly when its
   * arguments are, in that workspace; otherwise it traps where computing its
   * arguments does.
   */
  lemma TestStepInWorkspace(graph: Graph, workspace: AbsolutePath, scheme: Scheme)
    ensures var step := TestStep(graph, Some(workspace), scheme);
      var args := TestArguments(scheme, graph);
      && step.scheme == scheme.name
      && (args.Success? ==> step.prepared == Success(Prepared(workspace, args.value)))
      && (args.Failure? ==> step.prepared == Failure(args.error))
  {
    TestArgumentsCases(scheme, graph);
  }

  /** A testable scheme never traps for want of test targets: the filter removed those. */
  lemma TestableSchemesHaveTestTargets(graph: Graph, s: Scheme)
    requires s in TestableSchemes(graph)
    ensures TestableTargetOf(s, graph) != Failure(NoTestTargets)
  {
    TestableSchemesSpec(graph);
    TestableTargetCases(s, graph);
  }

  // ---------------------------------------------------------------------------
  // run(schemeName:)

  /**
   * Everything a call of `run` does once the graph is in hand, given what
   * `workspacePath()` answers while the schemes are tested.
   */
  function TestGraphSchemes(controller: XcodeBuildController, graph: Graph, workspace: Option<AbsolutePath>,
                            schemeName: Option<string>): SweepResult<TestServiceError>
  {
    TestSelected(controller, graph, workspace, TestableSchemes(graph), schemeName)
  }

  /** Pick among `schemes` by name (or take them all), then test the ones picked in turn. */
  function TestSelected(controller: XcodeBuildController, graph: Graph, workspace: Option<AbsolutePath>,
                        schemes: seq<Scheme>, schemeName: Option<string>): SweepResult<TestServiceError>
  {
    match Select(schemes, schemeName)
    case Failure(missing) => SweepResult([], Fail(Rejected(SchemeNotFound(missing.0, missing.1))))
    case Success(chosen) => Sweep(TestSteps(graph, workspace, chosen), controller.test, false)
  }

  /** `workspacePath()`: the first `*.xcworkspace` match. */
  function FirstWorkspace(matches: seq<AbsolutePath>): (w: Option<AbsolutePath>)
    ensures w.None? <==> matches == []
    ensures w.Some? ==> w.value == matches[0]
  {
    if matches == [] then None else Some(matches[0])
  }

  /** What one call of `run` does: how it got the graph, the workspaces it leaves, its tests and how it ends. */
  datatype Session = Session(request: GraphRequest, workspaces: seq<AbsolutePath>,
                             invocations: seq<Invocation>, outcome: Outcome<Failure<TestServiceError>>)

  /**
   * `run(schemeName:)` given the `*.xcworkspace` matches in `currentPath`
   * beforehand. The project is generated exactly when there is no match;
   * generation writes the workspace it returns into the directory, and every
   * test call looks the workspace up again.
   */
  function TestSession(generator: ProjectGenerator, controller: XcodeBuildController,
                       currentPath: AbsolutePath, workspaces: seq<AbsolutePath>, schemeName: Option<string>): Session
  {
    if FirstWorkspace(workspaces).None? then
      match generator.generateWithGraph(currentPath)
      case Failure(e) => Session(Generate(currentPath), workspaces, [], Fail(Thrown(e)))
      case Success(generated) =>
        var after := WithWorkspace(workspaces, generated.0);
        var r := TestGraphSchemes(controller, generated.1, FirstWorkspace(after), schemeName);
        Session(Generate(currentPath), after, r.invocations, r.outcome)
    else
      match generator.load(currentPath)
      case Failure(e) => Session(Load(currentPath), workspaces, [], Fail(Thrown(e)))
      case Success(graph) =>
        var r := TestGraphSchemes(controller, graph, FirstWorkspace(workspaces), schemeName);
        Session(Load(currentPath), workspaces, r.invocations, r.outcome)
  }

  /** The project is generated exactly when `workspacePath()` is nil; otherwise the graph is loaded. */
  lemma GeneratesExactlyWithoutWorkspace(generator: ProjectGenerator, controller: XcodeBuildController,
                                         currentPath: AbsolutePath, workspaces: seq<AbsolutePath>, schemeName: Option<string>)
    ensures var s := TestSession(generator, controller, currentPath, workspaces, schemeName);
      s.request == (if workspaces == [] then Generate(currentPath) else Load(currentPath))
  {
  }

  /**
   * A name no testable scheme has: the run throws `schemeNotFound` with that
   * name and the testable names in ascending order, and tests nothing.
   */
  lemma UnknownSchemeTestsNothing(controller: XcodeBuildController, graph: Graph, workspace: Option<AbsolutePath>, name: string)
    requires forall s :: s in TestableSchemes(graph) ==> s.name != name
    ensures var r := TestGraphSchemes(controller, graph, workspace, Some(name));
      var names := Names(TestableSchemes(graph));
      && r.invocations == []
      && r.outcome == Fail(Rejected(SchemeNotFound(name, names)))
      && (forall i, j :: 0 <= i < j < |names| ==> LexLe(names[i], names[j]))
  {
    TestableSchemesSpec(graph);
  }

  /**
   * A name some testable scheme has, with a workspace found: the first scheme
   * of that name alone runs. Its call is made, cleaning, exactly when its
   * arguments are, and the run ends as that call does; otherwise the run traps
   * where computing the arguments does, before any call.
   */
  lemma NamedSchemeTestedOnce(controller: XcodeBuildController, graph: Graph, workspace: AbsolutePath, name: string, i: nat)
    requires var schemes := TestableSchemes(graph);
      i < |schemes| && schemes[i].name == name && forall j :: 0 <= j < i ==> schemes[j].name != name
    ensures var scheme := TestableSchemes(graph)[i];
      var args := TestArguments(scheme, graph);
      var r := TestGraphSchemes(controller, graph, Some(workspace), Some(name));
      && (args.Failure? ==> r == SweepResult([], Fail(Crashed(args.error))))
      && (args.Success? ==>
            var call := Invocation(workspace, name, true, args.value);
            r.invocations == [call] &&
            r.outcome == (if controller.test(call).Pass? then Pass else Fail(Thrown(controller.test(call).error))))
  {
    var schemes := TestableSchemes(graph);
    var k := FirstNamed(schemes, name);
    assert k == Some(i);
    assert Select(schemes, Some(name)) == Success([schemes[i]]);
    assert TestGraphSchemes(controller, graph, Some(workspace), Some(name)) ==
      Sweep<TestServiceError>(TestSteps(graph, Some(workspace), [schemes[i]]), controller.test, false);
    OneSchemeTested(controller, graph, workspace, schemes[i]);
  }

  /** Sweeping a single scheme in a found workspace: its trap, or its one cleaning call. */
  lemma OneSchemeTested(controller: XcodeBuildController, graph: Graph, workspace: AbsolutePath, scheme: Scheme)
    ensures var args := TestArguments(scheme, graph);
      var r := Sweep<TestServiceError>(TestSteps(graph, Some(workspace), [scheme]), controller.test, false);
      && (args.Failure? ==> r == SweepResult([], Fail(Crashed(args.error))))
      && (args.Success? ==>
            var call := Invocation(workspace, scheme.name, true, args.value);
            r.invocations == [call] &&
            r.outcome == (if controller.test(call).Pass? then Pass else Fail(Thrown(controller.test(call).error))))
  {
    var steps := TestSteps(graph, Some(workspace), [scheme]);
    assert steps == [TestStep(graph, Some(workspace), scheme)];
    assert steps[1..] == [];
    TestStepInWorkspace(graph, workspace, scheme);
    assert Sweep<TestServiceError>([], controller.test, true) == SweepResult([], Pass);
  }

  /**
   * Without a name, the testable schemes are tested in ascending name order,
   * one call each, only the first one cleaning, each with the `.sdk` argument
   * of its test target; a call that throws or a scheme that traps ends the run
   * there, and the run passes only when every scheme was tested and passed.
   */
  lemma AllSchemesTestedInOrder(controller: XcodeBuildController, graph: Graph, workspace: AbsolutePath, schemes: seq<Scheme>)
    requires schemes == TestableSchemes(graph)
    ensures var r := TestGraphSchemes(controller, graph, Some(workspace), None);
      var n := |r.invocations|;
      && n <= |schemes|
      && (forall i :: 0 <= i < n ==>
            TestArguments(schemes[i], graph).Success? &&
            r.invocations[i] == Invocation(workspace, schemes[i].name, i == 0, TestArguments(schemes[i], graph).value))
      && (forall i :: 0 <= i < n - 1 ==> controller.test(r.invocations[i]).Pass?)
      && (r.outcome.Pass? <==> n == |schemes| && (n == 0 || controller.test(r.invocations[n - 1]).Pass?))
      && (r.outcome.Fail? && r.outcome.error.Crashed? ==>
            n < |schemes| && TestArguments(schemes[n], graph) == Failure(r.outcome.error.crash))
      && (r.outcome.Fail? ==> !r.outcome.error.Rejected?)
  {
    var r := TestGraphSchemes(controller, graph, Some(workspace), None);
    assert r == Sweep<TestServiceError>(TestSteps(graph, Some(workspace), schemes), controller.test, false);
    SchemesTestedInOrder(controller, graph, workspace, schemes, r);
  }

  /** `AllSchemesTestedInOrder` for any list of schemes swept in a found workspace. */
  lemma SchemesTestedInOrder(controller: XcodeBuildController, graph: Graph, workspace: AbsolutePath, schemes: seq<Scheme>,
                             r: SweepResult<TestServiceError>)
    requires r == Sweep<TestServiceError>(TestSteps(graph, Some(workspace), schemes), controller.test, false)
    ensures var n := |r.invocations|;
      && n <= |schemes|
      && (forall i :: 0 <= i < n ==>
            TestArguments(schemes[i], graph).Success? &&
            r.invocations[i] == Invocation(workspace, schemes[i].name, i == 0, TestArguments(schemes[i], graph).value))
      && (forall i :: 0 <= i < n - 1 ==> controller.test(r.invocations[i]).Pass?)
      && (r.outcome.Pass? <==> n == |schemes| && (n == 0 || controller.test(r.invocations[n - 1]).Pass?))
      && (r.outcome.Fail? && r.outcome.error.Crashed? ==>
            n < |schemes| && TestArguments(schemes[n], graph) == Failure(r.outcome.error.crash))
  {
    var steps := TestSteps(graph, Some(workspace), schemes);
    TestStepsInWorkspace(graph, workspace, schemes);
    SweepInvocations<TestServiceError>(steps, controller.test, false);
    SweepStopsAtFirstFailure<TestServiceError>(steps, controller.test, false);
    forall i | 0 <= i < |r.invocations|
      ensures TestArguments(schemes[i], graph).Success?
      ensures r.invocations[i] == Invocation(workspace, schemes[i].name, i == 0, TestArguments(schemes[i], graph).value)
    {
      assert steps[i].prepared.Success?;
    }
    if r.outcome.Fail? && r.outcome.error.Crashed? {
      var n := |r.invocations|;
      assert steps[n].prepared == Failure(r.outcome.error.crash);
    }
  }

  /** `TestStepInWorkspace` for every scheme of a list. */
  lemma TestStepsInWorkspace(graph: Graph, workspace: AbsolutePath, schemes: seq<Scheme>)
    ensures var steps := TestSteps(graph, Some(workspace), schemes);
      forall i :: 0 <= i < |schemes| ==>
        var args := TestArguments(schemes[i], graph);
        && steps[i].scheme == schemes[i].name
        && (args.Success? ==> steps[i].prepared == Success(Prepared(workspace, args.value)))
        && (args.Failure? ==> steps[i].prepared == Failure(args.error))
  {
    forall i | 0 <= i < |schemes| {
      TestStepInWorkspace(graph, workspace, schemes[i]);
    }
  }

  /**
   * The force-unwrap of `workspacePath()`: with no match, no call is made and
   * the run traps exactly when a scheme was selected, at the first selected
   * scheme, on its test target when that traps and on the workspace
   * otherwise; with a match, the workspace never traps.
   */
  lemma TestTrapsOnMissingWorkspace(controller: XcodeBuildController, graph: Graph, workspace: Option<AbsolutePath>,
                                    schemeName: Option<string>)
    ensures var r := TestGraphSchemes(controller, graph, workspace, schemeName);
      var selected := Select(TestableSchemes(graph), schemeName);
      && (workspace.None? ==> r.invocations == [])
      && (workspace.None? && selected.Success? && selected.value != [] ==>
            var target := TestableTargetOf(selected.value[0], graph);
            r.outcome == Fail(Crashed(if target.Failure? then target.error else NoWorkspace)))
      && (workspace.None? && selected.Success? && selected.value == [] ==> r.outcome == Pass)
      && (r.outcome.Fail? && r.outcome.error.Crashed? && r.outcome.error.crash == NoWorkspace ==> workspace.None?)
  {
    var selected := Select(TestableSchemes(graph), schemeName);
    if selected.Success? {
      var steps := TestSteps(graph, workspace, selected.value);
      SweepStopsAtFirstFailure<TestServiceError>(steps, controller.test, false);
      if workspace.None? && steps != [] {
        assert steps[0] == TestStep(graph, None, selected.value[0]);
      }
      if workspace.Some? {
        var r := Sweep<TestServiceError>(steps, controller.test, false);
        var n := |r.invocations|;
        if r.outcome.Fail? && r.outcome.error.Crashed? {
          TestStepInWorkspace(graph, workspace.value, selected.value[n]);
          TestArgumentsCases(selected.value[n], graph);
        }
      }
    }
  }

  /**
   * A whole test run never traps on `workspacePath()!`: either a workspace
   * matched beforehand, or the generated one matches afterwards; every call
   * is made in the first match of the directory as the run leaves it.
   */
  lemma TestNeverLacksWorkspace(generator: ProjectGenerator, controller: XcodeBuildController,
                                currentPath: AbsolutePath, workspaces: seq<AbsolutePath>, schemeName: Option<string>)
    ensures var s := TestSession(generator, controller, currentPath, workspaces, schemeName);
      && (s.outcome.Fail? && s.outcome.error.Crashed? ==> s.outcome.error.crash != NoWorkspace)
      && (s.invocations != [] ==> s.workspaces != [] && forall i :: 0 <= i < |s.invocations| ==> s.invocations[i].workspace == s.workspaces[0])
  {
    var s := TestSession(generator, controller, currentPath, workspaces, schemeName);
    var graph := if workspaces == [] then
        (if generator.generateWithGraph(currentPath).Success? then generator.generateWithGraph(currentPath).value.1 else Graph([], map[]))
      else (if generator.load(currentPath).Success? then generator.load(currentPath).value else Graph([], map[]));
    if s.workspaces != [] {
      var w := s.workspaces[0];
      TestTrapsOnMissingWorkspace(controller, graph, Some(w), schemeName);
      match Select(TestableSchemes(graph), schemeName)
      case Failure(_) =>
      case Success(chosen) =>
        var steps := TestSteps(graph, Some(w), chosen);
        forall i | 0 <= i < |chosen| && steps[i].prepared.Success? ensures steps[i].prepared.value.workspace == w {
          TestStepInWorkspace(graph, w, chosen[i]);
        }
        SweepInvocations<TestServiceError>(steps, controller.test, false);
    }
  }

  /**
   * Keeping schemes without a test action has a consequence: a graph whose
   * only entry target's project has a scheme "App" with no test action makes
   * `tuist test` select "App" and trap on `scheme.testAction!` before any call.
   */
  lemma SchemeWithoutTestActionTraps(controller: XcodeBuildController, workspace: Option<AbsolutePath>, project: Project, target: Target)
    requires project.schemes == [Scheme("App", None, None)]
    ensures var graph := Graph([TargetNode(project, target)], map[]);
      && TestableSchemes(graph) == [Scheme("App", None, None)]
      && TestGraphSchemes(controller, graph, workspace, None) == SweepResult([], Fail(Crashed(NoTestAction)))
  {
    var graph := Graph([TargetNode(project, target)], map[]);
    var app := Scheme("App", None, None);
    SingleSchemeSelected(project, target);
    assert TestSteps(graph, workspace, [app]) == [Step("App", Failure(NoTestAction))];
  }

  /** A graph with one entry target whose project has the single scheme "App" (no test action) keeps that scheme. */
  lemma SingleSchemeSelected(project: Project, target: Target)
    requires project.schemes == [Scheme("App", None, None)]
    ensures TestableSchemes(Graph([TargetNode(project, target)], map[])) == [Scheme("App", None, None)]
  {
    var graph := Graph([TargetNode(project, target)], map[]);
    var app := Scheme("App", None, None);
    assert EntryProjects(graph.entryNodes) == [project];
    assert Dedupe([project]) == [project];
    assert ProjectSchemes([project]) == [app];
    assert FilterTestable([app]) == [app];
    assert SortByName([app]) == [app];
  }

  /**
   * The test command's service. `workspaces` are the matches of
   * `*.xcworkspace` in the current directory (generation writes one);
   * `graphRequests` and `invocations` record the calls made to the generator
   * and to xcodebuild; `cleaned` is the clean-once latch of a run.
   */
  class TestService {
    const projectGenerator: ProjectGenerator
    const xcodebuildController: XcodeBuildController
    const currentPath: AbsolutePath
    var workspaces: seq<AbsolutePath>
    var graphRequests: seq<GraphRequest>
    var invocations: seq<Invocation>
    var cleaned: bool

    constructor (projectGenerator: ProjectGenerator, xcodebuildController: XcodeBuildController,
                 currentPath: AbsolutePath, workspaces: seq<AbsolutePath>)
      ensures this.projectGenerator == projectGenerator && this.xcodebuildController == xcodebuildController
      ensures this.currentPath == currentPath && this.workspaces == workspaces
      ensures graphRequests == [] && invocations == [] && !cleaned
    {
      this.projectGenerator := projectGenerator;
      this.xcodebuildController := xcodebuildController;
      this.currentPath := currentPath;
      this.workspaces := workspaces;
      graphRequests := [];
      invocations := [];
      cleaned := false;
    }

    /** `workspacePath()`: the first match, when there is one. */
    function WorkspacePath(): (w: Option<AbsolutePath>)
      reads this
      ensures w.Some? <==> workspaces != []
      ensures w.Some? ==> w.value in workspaces
    {
      FirstWorkspace(workspaces)
    }

    /** `shouldGenerateProject()`. */
    function ShouldGenerateProject(): (generate: bool)
      reads this
      ensures generate <==> workspaces == []
    {
      WorkspacePath() == None
    }

    /** `run(schemeName:)`: its calls and its end are those of `TestSession`. */
    method Run(schemeName: Option<string>) returns (outcome: Outcome<Failure<TestServiceError>>)
      modifies this
      ensures var s := TestSession(projectGenerator, xcodebuildController, currentPath, old(workspaces), schemeName);
        && graphRequests == old(graphRequests) + [s.request]
        && workspaces == s.workspaces
        && invocations == old(invocations) + s.invocations
        && outcome == s.outcome
    {
      var graph: Graph;
      if ShouldGenerateProject() {
        graphRequests := graphRequests + [Generate(currentPath)];
        var generated := projectGenerator.generateWithGraph(currentPath);
        if generated.Failure? {
          return Fail(Thrown(generated.error));
        }
        workspaces := WithWorkspace(workspaces, generated.value.0);
        graph := generated.value.1;
      } else {
        graphRequests := graphRequests + [Load(currentPath)];
        var loaded := projectGenerator.load(currentPath);
        if loaded.Failure? {
          return Fail(Thrown(loaded.error));
        }
        graph := loaded.value;
      }
      outcome := TestSchemes(graph, schemeName);
    }

    /** The part of `run` after the graph is obtained: select the schemes, then test them. */
    method TestSchemes(graph: Graph, schemeName: Option<string>) returns (outcome: Outcome<Failure<TestServiceError>>)
      modifies this`invocations, this`cleaned
      ensures var r := TestGraphSchemes(xcodebuildController, graph, FirstWorkspace(workspaces), schemeName);
        invocations == old(invocations) + r.invocations && outcome == r.outcome
    {
      var testableSchemes := TestableSchemes(graph);
      cleaned := false;
      outcome := TestAmong(graph, testableSchemes, schemeName);
    }

    /** The selection and the calls, among the schemes already found testable. */
    method TestAmong(graph: Graph, testableSchemes: seq<Scheme>, schemeName: Option<string>)
      returns (outcome: Outcome<Failure<TestServiceError>>)
      requires !cleaned
      modifies this`invocations, this`cleaned
      ensures var r := TestSelected(xcodebuildController, graph, FirstWorkspace(workspaces), testableSchemes, schemeName);
        invocations == old(invocations) + r.invocations && outcome == r.outcome
    {
      match schemeName
      case Some(name) =>
        var found := FirstNamed(testableSchemes, name);
        if found.None? {
          return Fail(Rejected(SchemeNotFound(name, Names(testableSchemes))));
        }
        var scheme := testableSchemes[found.value];
        ghost var steps := TestSteps(graph, FirstWorkspace(workspaces), [scheme]);
        ghost var full := Sweep<TestServiceError>(steps, xcodebuildController.test, false);
        assert Select(testableSchemes, schemeName) == Success([scheme]);
        assert steps[0..] == steps && steps[1..] == [];
        assert Sweep<TestServiceError>([], xcodebuildController.test, true) == SweepResult([], Pass);
        SweepAdvance<TestServiceError>(steps, 0, xcodebuildController.test, false, [], full);
        outcome := TestScheme(scheme, graph);
      case None =>
        outcome := TestEach(graph, testableSchemes);
    }

    /** `testableSchemes.forEach(testScheme)`, starting with the latch unset. */
    method TestEach(graph: Graph, schemes: seq<Scheme>) returns (outcome: Outcome<Failure<TestServiceError>>)
      requires !cleaned
      modifies this`invocations, this`cleaned
      ensures var r := Sweep<TestServiceError>(TestSteps(graph, FirstWorkspace(workspaces), schemes), xcodebuildController.test, false);
        invocations == old(invocations) + r.invocations && outcome == r.outcome
    {
      ghost var steps := TestSteps(graph, FirstWorkspace(workspaces), schemes);
      ghost var full := Sweep<TestServiceError>(steps, xcodebuildController.test, false);
      ghost var done: seq<Invocation> := [];
      assert steps[0..] == steps && done + full.invocations == full.invocations;
      var i := 0;
      while i < |schemes|
        invariant 0 <= i <= |schemes|
        invariant cleaned == (i > 0)
        invariant invocations == old(invocations) + done
        invariant var rest := Sweep<TestServiceError>(steps[i..], xcodebuildController.test, cleaned);
          full.invocations == done + rest.invocations && full.outcome == rest.outcome
      {
        assert steps[i] == TestStep(graph, FirstWorkspace(workspaces), schemes[i]);
        SweepAdvance<TestServiceError>(steps, i, xcodebuildController.test, cleaned, done, full);
        ghost var one := StepRun<TestServiceError>(steps[i], xcodebuildController.test, cleaned);
        var result := TestScheme(schemes[i], graph);
        AppendAssociates(old(invocations), done, one.invocations);
        if result.Fail? {
          return result;
        }
        done := done + one.invocations;
        i := i + 1;
      }
      assert steps[i..] == [] && done + [] == done;
      outcome := Pass;
    }

    /**
     * The nested `testScheme`: find the test target (which may trap), look
     * the workspace up (trapping when nothing matches), take the simulator SDK
     * (which may trap), then one xcodebuild test call, cleaning unless the
     * latch is set, which a completed test sets.
     */
    method TestScheme(scheme: Scheme, graph: Graph) returns (outcome: Outcome<Failure<TestServiceError>>)
      modifies this`invocations, this`cleaned
      ensures var r := StepRun<TestServiceError>(TestStep(graph, FirstWorkspace(workspaces), scheme), xcodebuildController.test, old(cleaned));
        invocations == old(invocations) + r.invocations && outcome == r.outcome
      ensures cleaned == (old(cleaned) || outcome.Pass?)
    {
      var testableTarget := TestableTargetOf(scheme, graph);
      if testableTarget.Failure? {
        return Fail(Crashed(testableTarget.error));
      }
      var workspacePath := WorkspacePath();
      if workspacePath.None? {
        return Fail(Crashed(NoWorkspace));
      }
      var sdk := testableTarget.value.platform.XcodeSimulatorSDK();
      if sdk.None? {
        return Fail(Crashed(NoSimulatorSDK));
      }
      var call := Invocation(workspacePath.value, scheme.name, cleaned == false, [Sdk(sdk.value)]);
      invocations := invocations + [call];
      var result := xcodebuildController.test(call);
      if result.Fail? {
        return Fail(Thrown(result.error));
      }
      cleaned := true;
      outcome := Pass;
    }
  }
}
