/**
 * What BuildService.run and TestService.run have in common: pick the schemes
 * to run (one by exact name, or all of them), then invoke the toolchain once
 * per scheme, cleaning only the first time, and stop at the first failure.
 */
module SchemeRuns {
  import opened Wrappers
  import opened Strings
  import opened TuistCore

  /** `ProjectGenerating`: generates the workspace (returning its path and the graph) or loads the graph of one already generated. */
  datatype ProjectGenerator = ProjectGenerator(
    generateWithGraph: AbsolutePath -> Result<(AbsolutePath, Graph), ToolError>,
    load: AbsolutePath -> Result<Graph, ToolError>)

  /** `XcodeBuildControlling`: whether a build or test call completes or throws. */
  datatype XcodeBuildController = XcodeBuildController(
    build: Invocation -> Outcome<ToolError>,
    test: Invocation -> Outcome<ToolError>)

  /** How a service obtained its graph, and from which directory. */
  datatype GraphRequest = Generate(path: AbsolutePath) | Load(path: AbsolutePath)

  /** One call of the xcodebuild controller, as the controller receives it. */
  datatype Invocation = Invocation(workspace: AbsolutePath, scheme: string, clean: bool, arguments: seq<XcodeBuildArgument>)

  /** A Swift force-unwrap of `nil` met while preparing a scheme: the process traps. */
  datatype Crash = NoTestAction | NoTestTargets | TargetNotInGraph | NoWorkspace | NoSimulatorSDK

  /** Why a run did not complete: the service's own error, a collaborator's thrown error, or a trap. */
  datatype Failure<+E> = Rejected(error: E) | Thrown(thrown: ToolError) | Crashed(crash: Crash)

  /** What a scheme's call is made with: the workspace looked up for it and its arguments. */
  datatype Prepared = Prepared(workspace: AbsolutePath, arguments: seq<XcodeBuildArgument>)

  /** A scheme about to run: its name and what its call is made with (or the trap met computing that). */
  datatype Step = Step(scheme: string, prepared: Result<Prepared, Crash>)

  /** The invocations a sequence of steps made, and how it ended. */
  datatype SweepResult<+E> = SweepResult(invocations: seq<Invocation>, outcome: Outcome<Failure<E>>)

  /**
   * The workspaces of a directory once generation has written `w` into it:
   * the ones already there, in their order, then `w` unless it was there.
   */
  function WithWorkspace(workspaces: seq<AbsolutePath>, w: AbsolutePath): (r: seq<AbsolutePath>)
    ensures forall x :: x in r <==> x == w || x in workspaces
    ensures |workspaces| <= |r| <= |workspaces| + 1 && r[..|workspaces|] == workspaces
  {
    if w in workspaces then workspaces else workspaces + [w]
  }

  /** `schemes.map(\.name)`. */
  function Names(schemes: seq<Scheme>): (names: seq<string>)
    ensures |names| == |schemes|
    ensures forall i :: 0 <= i < |schemes| ==> names[i] == schemes[i].name
  {
    seq(|schemes|, i requires 0 <= i < |schemes| => schemes[i].name)
  }

  /** The message of `schemeNotFound`, shared by both services' error enums. */
  function NotFoundDescription(scheme: string, existing: seq<string>): (d: string)
    ensures |d| >= |scheme|
  {
    "Couldn't find scheme " + scheme + ". The available schemes are: " + Join(existing, ", ")
  }

  /** `schemes.first(where: { $0.name == name })`, as an index. */
  function FirstNamed(schemes: seq<Scheme>, name: string): (i: Option<nat>)
    ensures i.Some? ==> i.value < |schemes| && schemes[i.value].name == name
    ensures i.Some? ==> forall j :: 0 <= j < i.value ==> schemes[j].name != name
    ensures i.None? ==> forall j :: 0 <= j < |schemes| ==> schemes[j].name != name
    decreases |schemes|
  {
    if schemes == [] then None
    else if schemes[0].name == name then Some(0)
    else match FirstNamed(schemes[1..], name)
      case None => None
      case Some(k) => Some(k + 1)
  }

  /**
   * Scheme selection: with a name, the first scheme of exactly that name, or
   * the name together with every available name when none matches; without a
   * name, all schemes in the order given.
   */
  function Select(schemes: seq<Scheme>, name: Option<string>): (r: Result<seq<Scheme>, (string, seq<string>)>)
    ensures name.None? ==> r == Success(schemes)
    ensures r.Failure? <==> name.Some? && forall j :: 0 <= j < |schemes| ==> schemes[j].name != name.value
    ensures r.Failure? ==> r.error == (name.value, Names(schemes))
    ensures name.Some? && r.Success? ==>
      exists i :: 0 <= i < |schemes| && r.value == [schemes[i]] && schemes[i].name == name.value &&
        forall j :: 0 <= j < i ==> schemes[j].name != name.value
  {
    match name
    case None => Success(schemes)
    case Some(n) =>
      match FirstNamed(schemes, n)
      case None => Failure((n, Names(schemes)))
      case Some(i) => Success([schemes[i]])
  }

  /**
   * Running one step on its own: its trap, or its call and whether that call
   * threw. A step makes a call exactly when it prepares without trapping.
   */
  function StepRun<E>(step: Step, run: Invocation -> Outcome<ToolError>, cleaned: bool): (r: SweepResult<E>)
    ensures |r.invocations| <= 1
    ensures r.invocations == [] <==> step.prepared.Failure?
    ensures r.outcome.Fail? ==> !r.outcome.error.Rejected?
  {
    match step.prepared
    case Failure(c) => SweepResult([], Fail(Crashed(c)))
    case Success(p) =>
      var call := Invocation(p.workspace, step.scheme, !cleaned, p.arguments);
      match run(call)
      case Fail(e) => SweepResult([call], Fail(Thrown(e)))
      case Pass => SweepResult([call], Pass)
  }

  /**
   * `schemes.forEach(runScheme)` with the clean latch starting at `cleaned`:
   * each step that prepares without trapping is invoked with `clean` set while
   * nothing has completed yet; the latch is set after a successful call; a
   * thrown error or a trap ends the sweep.
   */
  function Sweep<E>(steps: seq<Step>, run: Invocation -> Outcome<ToolError>, cleaned: bool): (r: SweepResult<E>)
    ensures r.outcome.Fail? ==> !r.outcome.error.Rejected?
    decreases |steps|
  {
    if steps == [] then SweepResult([], Pass)
    else
      var one := StepRun<E>(steps[0], run, cleaned);
      if one.outcome.Fail? then one
      else
        var rest := Sweep<E>(steps[1..], run, true);
        SweepResult(one.invocations + rest.invocations, rest.outcome)
  }

  /**
   * The i-th invocation is for the i-th step, with the workspace and the
   * arguments prepared for it, and only the very first one of a session cleans.
   */
  lemma {:induction false} SweepInvocations<E>(steps: seq<Step>, run: Invocation -> Outcome<ToolError>, cleaned: bool)
    ensures var r := Sweep<E>(steps, run, cleaned);
      |r.invocations| <= |steps| &&
      forall i :: 0 <= i < |r.invocations| ==>
        steps[i].prepared.Success? &&
        r.invocations[i] == Invocation(steps[i].prepared.value.workspace, steps[i].scheme, i == 0 && !cleaned,
                                       steps[i].prepared.value.arguments)
    decreases |steps|
  {
    if steps != [] && steps[0].prepared.Success? {
      var call := Invocation(steps[0].prepared.value.workspace, steps[0].scheme, !cleaned, steps[0].prepared.value.arguments);
      if run(call).Pass? {
        SweepInvocations<E>(steps[1..], run, true);
      }
    }
  }

  /**
   * A sweep ends in exactly one of three ways. It passes when every step ran
   * and every call passed. It ends with a thrown error when the last call made
   * threw it. It ends with a trap when the step after the last call trapped.
   * In every case all calls but the last one passed.
   */
  lemma {:induction false} SweepStopsAtFirstFailure<E>(steps: seq<Step>, run: Invocation -> Outcome<ToolError>, cleaned: bool)
    ensures var r := Sweep<E>(steps, run, cleaned);
      var n := |r.invocations|;
      && (forall i :: 0 <= i < n - 1 ==> run(r.invocations[i]).Pass?)
      && (r.outcome.Pass? <==> n == |steps| && (n == 0 || run(r.invocations[n - 1]).Pass?))
      && (r.outcome.Fail? && r.outcome.error.Thrown? ==> n > 0 && run(r.invocations[n - 1]) == Fail(r.outcome.error.thrown))
      && (r.outcome.Fail? && r.outcome.error.Crashed? ==>
            n < |steps| && steps[n].prepared == Failure(r.outcome.error.crash) &&
            (n == 0 || run(r.invocations[n - 1]).Pass?))
    decreases |steps|
  {
    if steps != [] && steps[0].prepared.Success? {
      var call := Invocation(steps[0].prepared.value.workspace, steps[0].scheme, !cleaned, steps[0].prepared.value.arguments);
      if run(call).Pass? {
        SweepStopsAtFirstFailure<E>(steps[1..], run, true);
        var rest := Sweep<E>(steps[1..], run, true);
        var r := Sweep<E>(steps, run, cleaned);
        assert StepRun<E>(steps[0], run, cleaned) == SweepResult([call], Pass);
        assert r.invocations == [call] + rest.invocations && r.outcome == rest.outcome;
        if |rest.invocations| < |steps| - 1 {
          assert steps[1..][|rest.invocations|] == steps[|r.invocations|];
        }
        if |rest.invocations| > 0 {
          assert r.invocations[|r.invocations| - 1] == rest.invocations[|rest.invocations| - 1];
        }
        forall i | 0 <= i < |r.invocations| - 1 ensures run(r.invocations[i]).Pass? {
          if i > 0 {
            assert r.invocations[i] == rest.invocations[i - 1];
          }
        }
      }
    }
  }

  /** Steps that never trap yield no trap, and every step runs unless a call throws. */
  lemma {:induction false} SweepWithoutTraps<E>(steps: seq<Step>, run: Invocation -> Outcome<ToolError>, cleaned: bool)
    requires forall i :: 0 <= i < |steps| ==> steps[i].prepared.Success?
    ensures var r := Sweep<E>(steps, run, cleaned);
      (r.outcome.Fail? ==> r.outcome.error.Thrown?) &&
      (r.outcome.Pass? ==> |r.invocations| == |steps|) &&
      (steps != [] ==> |r.invocations| >= 1)
    decreases |steps|
  {
    if steps != [] {
      var call := Invocation(steps[0].prepared.value.workspace, steps[0].scheme, !cleaned, steps[0].prepared.value.arguments);
      if run(call).Pass? {
        SweepWithoutTraps<E>(steps[1..], run, true);
      }
    }
  }

  /**
   * One step of a loop that runs the steps in turn: given the whole sweep is
   * the calls made so far followed by the sweep from step `i`, a step that
   * fails on its own ends the whole sweep there, and one that passes extends
   * the calls made and leaves the sweep from step `i + 1` with the latch set.
   */
  lemma SweepAdvance<E>(steps: seq<Step>, i: nat, run: Invocation -> Outcome<ToolError>, cleaned: bool,
                        done: seq<Invocation>, full: SweepResult<E>)
    requires i < |steps|
    requires var rest := Sweep<E>(steps[i..], run, cleaned);
      full.invocations == done + rest.invocations && full.outcome == rest.outcome
    ensures var one := StepRun<E>(steps[i], run, cleaned);
      one.outcome.Fail? ==> full == SweepResult(done + one.invocations, one.outcome)
    ensures var one := StepRun<E>(steps[i], run, cleaned);
      var rest := Sweep<E>(steps[i + 1..], run, true);
      one.outcome.Pass? ==> full.invocations == (done + one.invocations) + rest.invocations && full.outcome == rest.outcome
  {
    assert steps[i..][0] == steps[i];
    assert steps[i..][1..] == steps[i + 1..];
    var one := StepRun<E>(steps[i], run, cleaned);
    if one.outcome.Pass? {
      var rest := Sweep<E>(steps[i + 1..], run, true);
      assert done + (one.invocations + rest.invocations) == (done + one.invocations) + rest.invocations;
    }
  }

  /** Appending the calls of one more step to the calls made so far. */
  lemma AppendAssociates(a: seq<Invocation>, b: seq<Invocation>, c: seq<Invocation>)
    ensures (a + b) + c == a + (b + c)
  {
  }
}
