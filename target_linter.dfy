/**
 * `TargetLinter.lint(target:)`: the checks on one target that need no file
 * system, as a function from the target to its linting issues. Each rule is a
 * predicate or a function of the target; the lemmas at the end pin the cases
 * the linter's test suite states.
 */
module TargetLinting {
  import opened Wrappers
  import opened Strings
  import opened TuistCore

  datatype Severity = Warning | Error

  /** Why an issue is raised, with the values its message mentions. */
  datatype Reason =
    | InvalidProductName(productName: string)
    | InvalidBundleId(bundleId: string)
    | MissingSources(targetName: string)
    | SourcesNotSupported(targetName: string, platform: Platform, product: Product)
    | InfoPlistCopied(path: AbsolutePath, targetName: string)
    | EntitlementsCopied(path: AbsolutePath, targetName: string)
    | ResourcesNotSupported(targetName: string, product: Product)
    | InvalidDeploymentTargetVersion
    | InvalidPlatformProduct(targetName: string, platform: Platform, product: Product)
    | DuplicateDependency(targetName: string, dependency: Dependency)

  datatype LintingIssue = LintingIssue(reason: Reason, severity: Severity)

  /** `pathString`: `/` followed by the components separated by `/`. */
  function PathString(p: AbsolutePath): (s: string)
    ensures |s| >= 1 && s[0] == '/'
  {
    "/" + Join(p.components, "/")
  }

  /** The text of an issue; `describe` renders a dependency as Swift's string interpolation does. */
  function Message(reason: Reason, describe: Dependency -> string): string
  {
    match reason
    case InvalidProductName(name) =>
      "Invalid product name '" + name + "'. This string must contain only alphanumeric (A-Z,a-z,0-9) and underscore (_) characters."
    case InvalidBundleId(id) =>
      "Invalid bundle identifier '" + id + "'. This string must be a uniform type identifier (UTI) that contains only alphanumeric (A-Z,a-z,0-9), hyphen (-), and period (.) characters."
    case MissingSources(name) => "The target " + name + " doesn't contain source files."
    case SourcesNotSupported(name, platform, product) =>
      "Target " + name + " cannot contain sources. " + platform.CaseValue() + " " + product.Description() + " targets don't support source files"
    case InfoPlistCopied(path, name) =>
      "Info.plist at path " + PathString(path) + " being copied into the target " + name + " product."
    case EntitlementsCopied(path, name) =>
      "Entitlements file at path " + PathString(path) + " being copied into the target " + name + " product."
    case ResourcesNotSupported(name, product) =>
      "Target " + name + " cannot contain resources. " + product.Description() + " targets do not support resources"
    case InvalidDeploymentTargetVersion => "The version of deployment target is incorrect"
    case InvalidPlatformProduct(name, platform, product) =>
      "'" + name + "' for platform '" + platform.CaseValue() + "' can't have a product type '" + product.Description() + "'"
    case DuplicateDependency(name, dependency) =>
      "Target " + name + " has duplicate '" + describe(dependency) + "' dependency specified"
  }

  // ---------------------------------------------------------------------------
  // Character classes and string shapes

  predicate IsAsciiAlphanumeric(c: char)
  {
    ('A' <= c <= 'Z') || ('a' <= c <= 'z') || ('0' <= c <= '9')
  }

  /** A product name: only A-Z, a-z, 0-9 and `_`. */
  predicate ValidProductName(name: string)
  {
    forall i :: 0 <= i < |name| ==> IsAsciiAlphanumeric(name[i]) || name[i] == '_'
  }

  /** The index of the last occurrence of `c` in `s`. */
  function LastIndexOf(s: string, c: char): (k: Option<nat>)
    ensures k.Some? ==> k.value < |s| && s[k.value] == c && forall j :: k.value < j < |s| ==> s[j] != c
    ensures k.None? ==> forall j :: 0 <= j < |s| ==> s[j] != c
    decreases |s|
  {
    if s == [] then None
    else if s[|s| - 1] == c then Some(|s| - 1)
    else LastIndexOf(s[..|s| - 1], c)
  }

  /** The first index at or after `i` where `${` starts and at least one character is left before `close`. */
  function FirstOpeningFrom(s: string, i: nat, close: nat): (k: Option<nat>)
    ensures k.Some? ==> i <= k.value && k.value + 3 <= close && StartsAt(s, "${", k.value) &&
                        forall j :: i <= j < k.value ==> !StartsAt(s, "${", j)
    ensures k.None? ==> forall j :: i <= j && j + 3 <= close ==> !StartsAt(s, "${", j)
    decreases close - i
  {
    if i + 3 > close then None
    else if StartsAt(s, "${", i) then Some(i)
    else FirstOpeningFrom(s, i + 1, close)
  }

  /**
   * The bundle identifier with its build variable removed, as the regular
   * expression `\$\{.+\}` replaced by nothing does: from the first `${` that is
   * followed, one character or more later, by a `}`, through the last `}`
   * (the match is greedy, so nothing after it can match again).
   */
  function StripBuildVariables(s: string): (r: string)
    ensures LastIndexOf(s, '}').None? ==> r == s
    ensures |r| <= |s|
  {
    match LastIndexOf(s, '}')
    case None => s
    case Some(close) =>
      match FirstOpeningFrom(s, 0, close)
      case None => s
      case Some(open) => s[..open] + s[close + 1..]
  }

  /** A bundle identifier: once build variables are removed, only A-Z, a-z, 0-9, `-` and `.`. */
  predicate ValidBundleId(bundleId: string)
  {
    var stripped := StripBuildVariables(bundleId);
    forall i :: 0 <= i < |stripped| ==> IsAsciiAlphanumeric(stripped[i]) || stripped[i] == '-' || stripped[i] == '.'
  }

  /** The index of the first occurrence of `c` in `s`. */
  function FirstIndexOf(s: string, c: char): (k: Option<nat>)
    ensures k.Some? ==> k.value < |s| && s[k.value] == c && forall j :: 0 <= j < k.value ==> s[j] != c
    ensures k.None? ==> forall j :: 0 <= j < |s| ==> s[j] != c
    decreases |s|
  {
    if s == [] then None
    else if s[0] == c then Some(0)
    else match FirstIndexOf(s[1..], c)
      case None => None
      case Some(k) => Some(k + 1)
  }

  /** `s.split(separator: sep)` keeping empty parts: joining the parts back gives `s`. */
  function Split(s: string, sep: char): (parts: seq<string>)
    ensures |parts| >= 1
    ensures Join(parts, [sep]) == s
    ensures forall p :: p in parts ==> sep !in p
    decreases |s|
  {
    match FirstIndexOf(s, sep)
    case None => [s]
    case Some(k) =>
      var rest := Split(s[k + 1..], sep);
      assert ([s[..k]] + rest)[1..] == rest;
      assert s == s[..k] + [sep] + s[k + 1..];
      [s[..k]] + rest
  }

  predicate IsDigits(s: string)
  {
    |s| > 0 && forall i :: 0 <= i < |s| ==> '0' <= s[i] <= '9'
  }

  /** A deployment target version: ASCII digits `.` ASCII digits, optionally `.` ASCII digits. */
  predicate ValidVersion(version: string)
  {
    var parts := Split(version, '.');
    (|parts| == 2 || |parts| == 3) && forall i :: 0 <= i < |parts| ==> IsDigits(parts[i])
  }

  /** Whether the target can hold source files: an iOS bundle cannot. */
  predicate SupportsSources(t: Target)
  {
    !(t.platform == IOS && t.product == Bundle)
  }

  /** Whether the product takes no resources: static and dynamic libraries. */
  predicate ForbidsResources(product: Product)
  {
    product == StaticLibrary || product == DynamicLibrary
  }

  /** Products a platform cannot have: the watchOS 2 app and extension on iOS. */
  predicate InvalidForPlatform(platform: Platform, product: Product)
  {
    platform == IOS && (product == Watch2App || product == Watch2Extension)
  }

  /** Whether a path names an Info.plist file. */
  predicate IsInfoPlist(p: AbsolutePath)
  {
    p.Basename() == "Info.plist"
  }

  /** Whether a path names an entitlements file. */
  predicate IsEntitlements(p: AbsolutePath)
  {
    var name := p.Basename();
    |name| >= |".entitlements"| && name[|name| - |".entitlements"|..] == ".entitlements"
  }

  /** The dependencies listed more than once, each once, in the order their second listing appears. */
  function Duplicates(deps: seq<Dependency>): (r: seq<Dependency>)
    ensures forall d :: d in r <==> multiset(deps)[d] >= 2
    ensures forall i, j :: 0 <= i < j < |r| ==> r[i] != r[j]
    decreases |deps|
  {
    if deps == [] then []
    else
      var init := deps[..|deps| - 1];
      var last := deps[|deps| - 1];
      assert deps == init + [last];
      var r := Duplicates(init);
      if last in init && last !in r then r + [last] else r
  }

  // ---------------------------------------------------------------------------
  // The rules

  function ProductNameIssues(t: Target): (issues: seq<LintingIssue>)
    ensures |issues| <= 1
    ensures LintingIssue(InvalidProductName(t.productName), Error) in issues <==> !ValidProductName(t.productName)
    ensures forall x :: x in issues ==> x == LintingIssue(InvalidProductName(t.productName), Error)
  {
    if ValidProductName(t.productName) then [] else [LintingIssue(InvalidProductName(t.productName), Error)]
  }

  function PlatformProductIssues(t: Target): (issues: seq<LintingIssue>)
    ensures |issues| <= 1
    ensures LintingIssue(InvalidPlatformProduct(t.name, t.platform, t.product), Error) in issues <==>
            InvalidForPlatform(t.platform, t.product)
    ensures forall x :: x in issues ==> x == LintingIssue(InvalidPlatformProduct(t.name, t.platform, t.product), Error)
  {
    if InvalidForPlatform(t.platform, t.product) then [LintingIssue(InvalidPlatformProduct(t.name, t.platform, t.product), Error)]
    else []
  }

  function BundleIdIssues(t: Target): (issues: seq<LintingIssue>)
    ensures |issues| <= 1
    ensures LintingIssue(InvalidBundleId(t.bundleId), Error) in issues <==> !ValidBundleId(t.bundleId)
    ensures forall x :: x in issues ==> x == LintingIssue(InvalidBundleId(t.bundleId), Error)
  {
    if ValidBundleId(t.bundleId) then [] else [LintingIssue(InvalidBundleId(t.bundleId), Error)]
  }

  /** A target that takes sources but has none gets a warning; one that takes none but has some, an error. */
  function SourceIssues(t: Target): (issues: seq<LintingIssue>)
    ensures |issues| <= 1
    ensures LintingIssue(MissingSources(t.name), Warning) in issues <==> SupportsSources(t) && t.sources == []
    ensures LintingIssue(SourcesNotSupported(t.name, t.platform, t.product), Error) in issues <==>
            !SupportsSources(t) && t.sources != []
    ensures forall x :: x in issues ==> x.reason.MissingSources? || x.reason.SourcesNotSupported?
  {
    if SupportsSources(t) && t.sources == [] then [LintingIssue(MissingSources(t.name), Warning)]
    else if !SupportsSources(t) && t.sources != [] then [LintingIssue(SourcesNotSupported(t.name, t.platform, t.product), Error)]
    else []
  }

  /** The warnings about Info.plist and entitlements files among the resources: a resource is warned about iff it is such a file. */
  function CopiedFileIssues(name: string, files: seq<AbsolutePath>): (issues: seq<LintingIssue>)
    ensures forall p :: LintingIssue(InfoPlistCopied(p, name), Warning) in issues <==> p in files && IsInfoPlist(p)
    ensures forall p :: LintingIssue(EntitlementsCopied(p, name), Warning) in issues <==> p in files && IsEntitlements(p)
    ensures forall x :: x in issues ==> x.severity == Warning && (x.reason.InfoPlistCopied? || x.reason.EntitlementsCopied?) &&
                                        x.reason.targetName == name
    decreases |files|
  {
    if files == [] then []
    else
      var p := files[0];
      var rest := CopiedFileIssues(name, files[1..]);
      assert forall q :: q in files <==> q == p || q in files[1..];
      (if IsInfoPlist(p) then [LintingIssue(InfoPlistCopied(p, name), Warning)] else []) +
      (if IsEntitlements(p) then [LintingIssue(EntitlementsCopied(p, name), Warning)] else []) +
      rest
  }

  function LibraryResourceIssues(t: Target): (issues: seq<LintingIssue>)
    ensures |issues| <= 1
    ensures LintingIssue(ResourcesNotSupported(t.name, t.product), Error) in issues <==>
            ForbidsResources(t.product) && t.resources != []
    ensures forall x :: x in issues ==> x == LintingIssue(ResourcesNotSupported(t.name, t.product), Error)
  {
    if ForbidsResources(t.product) && t.resources != [] then [LintingIssue(ResourcesNotSupported(t.name, t.product), Error)]
    else []
  }

  function DeploymentTargetIssues(t: Target): (issues: seq<LintingIssue>)
    ensures |issues| <= 1
    ensures LintingIssue(InvalidDeploymentTargetVersion, Error) in issues <==>
            t.deploymentTarget.Some? && !ValidVersion(t.deploymentTarget.value.version)
    ensures forall x :: x in issues ==> x == LintingIssue(InvalidDeploymentTargetVersion, Error)
  {
    match t.deploymentTarget
    case None => []
    case Some(d) => if ValidVersion(d.version) then [] else [LintingIssue(InvalidDeploymentTargetVersion, Error)]
  }

  /** One warning per dependency of `ds`, in order. */
  function DuplicateWarnings(name: string, ds: seq<Dependency>): (issues: seq<LintingIssue>)
    ensures forall d :: LintingIssue(DuplicateDependency(name, d), Warning) in issues <==> d in ds
    ensures forall x :: x in issues ==> x.severity == Warning && x.reason.DuplicateDependency? && x.reason.targetName == name
    decreases |ds|
  {
    if ds == [] then []
    else
      assert forall d :: d in ds <==> d == ds[0] || d in ds[1..];
      [LintingIssue(DuplicateDependency(name, ds[0]), Warning)] + DuplicateWarnings(name, ds[1..])
  }

  function DuplicateDependencyIssues(t: Target): (issues: seq<LintingIssue>)
    ensures forall d :: LintingIssue(DuplicateDependency(t.name, d), Warning) in issues <==> multiset(t.dependencies)[d] >= 2
    ensures forall x :: x in issues ==> x.severity == Warning && x.reason.DuplicateDependency? && x.reason.targetName == t.name
  {
    DuplicateWarnings(t.name, Duplicates(t.dependencies))
  }

  /** `lint(target:)`: the issues of every rule, rule after rule. */
  function Lint(t: Target): seq<LintingIssue>
  {
    ProductNameIssues(t) + PlatformProductIssues(t) + BundleIdIssues(t) + SourceIssues(t) +
    CopiedFileIssues(t.name, t.resources) + LibraryResourceIssues(t) + DeploymentTargetIssues(t) +
    DuplicateDependencyIssues(t)
  }

  /** An issue is in `lint(target:)` when one of the rules raised it. */
  lemma InLint(t: Target, x: LintingIssue)
    ensures x in Lint(t) <==>
      x in ProductNameIssues(t) || x in PlatformProductIssues(t) || x in BundleIdIssues(t) || x in SourceIssues(t) ||
      x in CopiedFileIssues(t.name, t.resources) || x in LibraryResourceIssues(t) || x in DeploymentTargetIssues(t) ||
      x in DuplicateDependencyIssues(t)
  {
  }

  /** Each issue of `lint(target:)` is raised exactly when its rule is broken. */
  lemma LintRaisesExactly(t: Target)
    ensures LintingIssue(InvalidProductName(t.productName), Error) in Lint(t) <==> !ValidProductName(t.productName)
    ensures LintingIssue(InvalidPlatformProduct(t.name, t.platform, t.product), Error) in Lint(t) <==>
            InvalidForPlatform(t.platform, t.product)
    ensures LintingIssue(InvalidBundleId(t.bundleId), Error) in Lint(t) <==> !ValidBundleId(t.bundleId)
    ensures LintingIssue(MissingSources(t.name), Warning) in Lint(t) <==> SupportsSources(t) && t.sources == []
    ensures LintingIssue(SourcesNotSupported(t.name, t.platform, t.product), Error) in Lint(t) <==>
            !SupportsSources(t) && t.sources != []
    ensures LintingIssue(ResourcesNotSupported(t.name, t.product), Error) in Lint(t) <==>
            ForbidsResources(t.product) && t.resources != []
    ensures LintingIssue(InvalidDeploymentTargetVersion, Error) in Lint(t) <==>
            t.deploymentTarget.Some? && !ValidVersion(t.deploymentTarget.value.version)
  {
    InLint(t, LintingIssue(InvalidProductName(t.productName), Error));
    InLint(t, LintingIssue(InvalidPlatformProduct(t.name, t.platform, t.product), Error));
    InLint(t, LintingIssue(InvalidBundleId(t.bundleId), Error));
    InLint(t, LintingIssue(MissingSources(t.name), Warning));
    InLint(t, LintingIssue(SourcesNotSupported(t.name, t.platform, t.product), Error));
    InLint(t, LintingIssue(ResourcesNotSupported(t.name, t.product), Error));
    InLint(t, LintingIssue(InvalidDeploymentTargetVersion, Error));
  }

  /** The lint warns about a resource iff it is an Info.plist or entitlements file, and about a dependency iff it is listed twice or more. */
  lemma LintWarnsExactly(t: Target)
    ensures forall p :: LintingIssue(InfoPlistCopied(p, t.name), Warning) in Lint(t) <==> p in t.resources && IsInfoPlist(p)
    ensures forall p :: LintingIssue(EntitlementsCopied(p, t.name), Warning) in Lint(t) <==> p in t.resources && IsEntitlements(p)
    ensures forall d :: LintingIssue(DuplicateDependency(t.name, d), Warning) in Lint(t) <==> multiset(t.dependencies)[d] >= 2
  {
    forall p ensures LintingIssue(InfoPlistCopied(p, t.name), Warning) in Lint(t) <==> p in t.resources && IsInfoPlist(p) {
      InLint(t, LintingIssue(InfoPlistCopied(p, t.name), Warning));
    }
    forall p ensures LintingIssue(EntitlementsCopied(p, t.name), Warning) in Lint(t) <==> p in t.resources && IsEntitlements(p) {
      InLint(t, LintingIssue(EntitlementsCopied(p, t.name), Warning));
    }
    forall d ensures LintingIssue(DuplicateDependency(t.name, d), Warning) in Lint(t) <==> multiset(t.dependencies)[d] >= 2 {
      InLint(t, LintingIssue(DuplicateDependency(t.name, d), Warning));
    }
  }

  /** A target breaking no rule has no issue at all. */
  lemma CleanTargetHasNoIssues(t: Target)
    requires ValidProductName(t.productName) && ValidBundleId(t.bundleId) && !InvalidForPlatform(t.platform, t.product)
    requires SupportsSources(t) <==> t.sources != []
    requires forall p :: p in t.resources ==> !IsInfoPlist(p) && !IsEntitlements(p)
    requires !(ForbidsResources(t.product) && t.resources != [])
    requires t.deploymentTarget.Some? ==> ValidVersion(t.deploymentTarget.value.version)
    requires forall i, j :: 0 <= i < j < |t.dependencies| ==> t.dependencies[i] != t.dependencies[j]
    ensures Lint(t) == []
  {
    NoCopiedFileIssues(t.name, t.resources);
    NoDuplicates(t.dependencies);
  }

  lemma {:induction false} NoCopiedFileIssues(name: string, files: seq<AbsolutePath>)
    requires forall p :: p in files ==> !IsInfoPlist(p) && !IsEntitlements(p)
    ensures CopiedFileIssues(name, files) == []
    decreases |files|
  {
    if files != [] {
      assert files[0] in files;
      NoCopiedFileIssues(name, files[1..]);
    }
  }

  /** A list without repeats has no duplicates. */
  lemma {:induction false} NoDuplicates(deps: seq<Dependency>)
    requires forall i, j :: 0 <= i < j < |deps| ==> deps[i] != deps[j]
    ensures Duplicates(deps) == []
    decreases |deps|
  {
    if deps != [] {
      var init := deps[..|deps| - 1];
      NoDuplicates(init);
      assert deps[|deps| - 1] !in init;
    }
  }


  // ---------------------------------------------------------------------------
  // The cases of the linter's test suite

  /** Hyphens, periods and non-ASCII letters make a product name invalid; underscores do not. */
  lemma ProductNameCases()
    ensures !ValidProductName("MyFramework-iOS")
    ensures !ValidProductName("My.Framework")
    ensures !ValidProductName("\U{216B}Framework")
    ensures !ValidProductName("\U{063C}Framework")
    ensures ValidProductName("MyFramework_iOS")
    ensures ValidProductName("MyFramework")
  {
    assert !ValidProductName("MyFramework-iOS") by { assert "MyFramework-iOS"[11] == '-'; }
    assert !ValidProductName("My.Framework") by { assert "My.Framework"[2] == '.'; }
    assert !ValidProductName("\U{216B}Framework") by { assert "\U{216B}Framework"[0] == '\U{216B}'; }
    assert !ValidProductName("\U{063C}Framework") by { assert "\U{063C}Framework"[0] == '\U{063C}'; }
  }

  /** An underscore, or a combining mark on a placeholder, makes a bundle identifier invalid. */
  lemma BundleIdUnderscoreAndMarkRejected()
    ensures !ValidBundleId("_.company.app")
    ensures !ValidBundleId("com.company.\U{25CC}\U{0301}")
  {
    NoBraceUnchanged("_.company.app");
    assert "_.company.app"[0] == '_';
    NoBraceUnchanged("com.company.\U{25CC}\U{0301}");
    assert "com.company.\U{25CC}\U{0301}"[12] == '\U{25CC}';
  }

  /** Letters outside ASCII (a Roman numeral, an Arabic letter) make a bundle identifier invalid. */
  lemma BundleIdNonAsciiRejected()
    ensures !ValidBundleId("\U{216B}.company.app")
    ensures !ValidBundleId("\U{063C}.company.app")
  {
    NoBraceUnchanged("\U{216B}.company.app");
    assert "\U{216B}.company.app"[0] == '\U{216B}';
    NoBraceUnchanged("\U{063C}.company.app");
    assert "\U{063C}.company.app"[0] == '\U{063C}';
  }

  /** A `${...}` build variable is removed before the characters are checked. */
  lemma BuildVariableAccepted()
    ensures StripBuildVariables("com.company.MyModule" + "${BUNDLE_SUFFIX}") == "com.company.MyModule"
    ensures ValidBundleId("com.company.MyModule" + "${BUNDLE_SUFFIX}")
  {
    TrailingBuildVariableRemoved("com.company.MyModule", "${BUNDLE_SUFFIX}");
  }

  /**
   * A build variable `${...}` holding one character or more, at the end of an
   * identifier with no `$` before it, is removed, and nothing else is.
   */
  lemma TrailingBuildVariableRemoved(prefix: string, variable: string)
    requires |variable| >= 4 && variable[..2] == "${" && variable[|variable| - 1] == '}'
    requires forall i :: 0 <= i < |prefix| ==> prefix[i] != '$'
    ensures StripBuildVariables(prefix + variable) == prefix
  {
    var s := prefix + variable;
    var close := |s| - 1;
    assert LastIndexOf(s, '}') == Some(close);
    assert s[|prefix|..|prefix| + 2] == "${";
    assert StartsAt(s, "${", |prefix|) && |prefix| + 3 <= close;
    assert forall j :: 0 <= j < |prefix| ==> s[j] == prefix[j];
    var open := FirstOpeningFrom(s, 0, close);
    assert open.Some?;
    var k := open.value;
    assert s[k..k + 2][0] == s[k];
    assert open == Some(|prefix|);
    assert s[..|prefix|] == prefix;
  }

  /** A string without `}` has no build variable to remove. */
  lemma NoBraceUnchanged(s: string)
    requires forall i :: 0 <= i < |s| ==> s[i] != '}'
    ensures StripBuildVariables(s) == s
  {
  }

  /** `"10.0"` is a version: two groups of digits. */
  lemma TwoPartVersionAccepted()
    ensures ValidVersion("10.0")
  {
    SplitParts("10.0", ["10", "0"]);
  }

  /** `"9.0.1"` is a version: three groups of digits. */
  lemma ThreePartVersionAccepted()
    ensures ValidVersion("9.0.1")
  {
    SplitParts("9.0.1", ["9", "0", "1"]);
  }

  /** `"tuist"`, `"10_0"` and `"1_1_3"` are not versions: they have no `.` at all. */
  lemma VersionsWithoutDotRejected()
    ensures !ValidVersion("tuist")
    ensures !ValidVersion("10_0")
    ensures !ValidVersion("1_1_3")
  {
    SinglePart("tuist");
    SinglePart("10_0");
    SinglePart("1_1_3");
  }

  /** `"tuist9.0.1"` is not a version: its first group holds letters. */
  lemma LeadingLettersRejected()
    ensures !ValidVersion("tuist9.0.1")
  {
    SplitParts("tuist9.0.1", ["tuist9", "0", "1"]);
    assert "tuist9"[0] == 't';
  }

  /** `"1.0tuist"` is not a version: its last group holds letters. */
  lemma TrailingLettersRejected()
    ensures !ValidVersion("1.0tuist")
  {
    SplitParts("1.0tuist", ["1", "0tuist"]);
    assert "0tuist"[1] == 't';
  }

  /** A string without `.` is a single part, so not a version. */
  lemma SinglePart(s: string)
    requires forall i :: 0 <= i < |s| ==> s[i] != '.'
    ensures Split(s, '.') == [s]
    ensures !ValidVersion(s)
  {
  }

  /** Splitting on `.` gives back the parts a string was joined from, when no part holds a `.`. */
  lemma {:induction false} SplitParts(s: string, parts: seq<string>)
    requires parts != [] && Join(parts, ".") == s
    requires forall p :: p in parts ==> '.' !in p
    ensures Split(s, '.') == parts
    decreases |parts|
  {
    if |parts| == 1 {
      assert s == parts[0] && parts[0] in parts;
      assert forall j :: 0 <= j < |s| ==> s[j] != '.';
      assert FirstIndexOf(s, '.').None?;
    } else {
      var k := |parts[0]|;
      assert s == parts[0] + "." + Join(parts[1..], ".");
      assert s[k] == '.' && s[..k] == parts[0];
      assert parts[0] in parts;
      assert forall j :: 0 <= j < k ==> s[j] == parts[0][j] && s[j] != '.';
      var f := FirstIndexOf(s, '.');
      assert f.Some?;
      assert f.value == k;
      assert s[k + 1..] == Join(parts[1..], ".");
      SplitParts(s[k + 1..], parts[1..]);
      assert parts == [parts[0]] + parts[1..];
    }
  }

  /** A target without sources, whatever else it holds, is warned about. */
  lemma NoSourcesWarned(t: Target)
    requires t.sources == [] && SupportsSources(t)
    ensures LintingIssue(MissingSources(t.name), Warning) in Lint(t)
  {
    LintRaisesExactly(t);
  }

  /** `/Info.plist` among the resources is warned about; `/GoogleService-Info.plist` is not. */
  lemma InfoPlistCopiedCase(t: Target)
    requires t.resources == [AbsolutePath(["Info.plist"]), AbsolutePath(["GoogleService-Info.plist"])]
    ensures LintingIssue(InfoPlistCopied(AbsolutePath(["Info.plist"]), t.name), Warning) in Lint(t)
    ensures LintingIssue(InfoPlistCopied(AbsolutePath(["GoogleService-Info.plist"]), t.name), Warning) !in Lint(t)
  {
    LintWarnsExactly(t);
    assert !IsInfoPlist(AbsolutePath(["GoogleService-Info.plist"])) by {
      assert |"GoogleService-Info.plist"| != |"Info.plist"|;
    }
  }

  /** `/App.entitlements` among the resources is warned about. */
  lemma EntitlementsCopiedCase(t: Target)
    requires t.resources == [AbsolutePath(["App.entitlements"])]
    ensures LintingIssue(EntitlementsCopied(AbsolutePath(["App.entitlements"]), t.name), Warning) in Lint(t)
  {
    LintWarnsExactly(t);
    assert "App.entitlements"[3..] == ".entitlements";
  }

  /** A static or dynamic library with a resource is an error naming the product kind. */
  lemma LibraryResourcesCase(t: Target)
    requires t.product == StaticLibrary || t.product == DynamicLibrary
    requires t.resources != []
    ensures LintingIssue(ResourcesNotSupported(t.name, t.product), Error) in Lint(t)
  {
    LintRaisesExactly(t);
  }

  /** An iOS bundle with a source file is an error. */
  lemma IosBundleWithSourcesCase(t: Target)
    requires t.platform == IOS && t.product == Bundle && t.sources != []
    ensures LintingIssue(SourcesNotSupported(t.name, IOS, Bundle), Error) in Lint(t)
  {
    LintRaisesExactly(t);
  }

  /** An iOS bundle with only an asset as resource, clean otherwise, has no issue. */
  lemma ValidIosBundleCase(t: Target)
    requires t.platform == IOS && t.product == Bundle && t.sources == []
    requires t.resources == [AbsolutePath(["path", "to", "some", "asset.png"])]
    requires ValidProductName(t.productName) && ValidBundleId(t.bundleId)
    requires t.deploymentTarget.None? && t.dependencies == []
    ensures Lint(t) == []
  {
    var asset := AbsolutePath(["path", "to", "some", "asset.png"]);
    assert !IsInfoPlist(asset) && !IsEntitlements(asset) by {
      assert "asset.png" != "Info.plist";
      assert "asset.png"[0] == 'a';
    }
    CleanTargetHasNoIssues(t);
  }

  /** The watchOS 2 app and extension products on iOS are errors. */
  lemma WatchProductsOnIosCase(app: Target, extension: Target)
    requires app.platform == IOS && app.product == Watch2App
    requires extension.platform == IOS && extension.product == Watch2Extension
    ensures LintingIssue(InvalidPlatformProduct(app.name, IOS, Watch2App), Error) in Lint(app)
    ensures LintingIssue(InvalidPlatformProduct(extension.name, IOS, Watch2Extension), Error) in Lint(extension)
  {
    LintRaisesExactly(app);
    LintRaisesExactly(extension);
  }

  /** The same dependency listed twice is warned about. */
  lemma DuplicateDependencyCase(t: Target)
    requires t.dependencies == [SdkDependency("libc++.tbd", Optional), SdkDependency("libc++.tbd", Optional)]
    ensures LintingIssue(DuplicateDependency(t.name, SdkDependency("libc++.tbd", Optional)), Warning) in Lint(t)
  {
    LintWarnsExactly(t);
  }
}
