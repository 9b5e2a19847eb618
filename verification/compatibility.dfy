/** The rule-based part of the compatibility tester: API-level rules and the manifest check
    (`AndroidVersionManager`), native-library parsing and the architecture decisions
    (`ArchitectureManager`), the manufacturer profiles (`DeviceCompatibilityManager`) and
    the overall score, grade and summary (`CompatibilityTestingSystem`). The outputs of
    `aapt` are inputs here. */
module Compatibility {
  import opened Wrappers
  import opened Strings
  import opened Seqs

  // ---------------------------------------------------------------------------------
  // API-level rules

  /** The restrictions checked, in the order they are reported, with the level from
      which each applies. */
  const RestrictionNames: seq<string> := [
    "background_service_limits", "non_sdk_interface_restrictions", "scoped_storage",
    "package_visibility", "pending_intent_mutability"]
  const RestrictionLevels: seq<int> := [26, 28, 29, 30, 31]

  /** How many of the restriction levels `api` reaches; the levels ascend, so these are
      the first ones. */
  function ReachedRestrictions(api: int): (n: nat)
    ensures n <= 5
    ensures forall k :: 0 <= k < 5 ==> (k < n <==> api >= RestrictionLevels[k])
  {
    if api >= 31 then 5 else if api >= 30 then 4 else if api >= 29 then 3
    else if api >= 28 then 2 else if api >= 26 then 1 else 0
  }

  /** The restrictions in force at `api`: the leading part of the fixed list whose levels
      `api` reaches. */
  function RestrictionsFor(api: int): (r: seq<string>)
    ensures forall k :: 0 <= k < 5 ==> (RestrictionNames[k] in r <==> api >= RestrictionLevels[k])
  {
    var r := RestrictionNames[..ReachedRestrictions(api)];
    forall k | 0 <= k < 5 && RestrictionNames[k] in r ensures api >= RestrictionLevels[k] {
      var j :| 0 <= j < |r| && r[j] == RestrictionNames[k];
      assert RestrictionNames[j] == RestrictionNames[k];
    }
    r
  }

  /** `_check_api_restrictions`: one append per threshold reached, in order. */
  method CheckApiRestrictions(api: int) returns (restrictions: seq<string>)
    ensures restrictions == RestrictionsFor(api)
  {
    restrictions := [];
    if api >= 26 {
      restrictions := restrictions + ["background_service_limits"];
    }
    if api >= 28 {
      restrictions := restrictions + ["non_sdk_interface_restrictions"];
    }
    if api >= 29 {
      restrictions := restrictions + ["scoped_storage"];
    }
    if api >= 30 {
      restrictions := restrictions + ["package_visibility"];
    }
    if api >= 31 {
      restrictions := restrictions + ["pending_intent_mutability"];
    }
  }

  /** The restriction list of a higher level extends that of a lower one. */
  lemma RestrictionsNest(api1: int, api2: int)
    requires api1 <= api2
    ensures RestrictionsFor(api1) <= RestrictionsFor(api2)
  {
    assert ReachedRestrictions(api1) <= ReachedRestrictions(api2);
  }

  datatype PermissionModel = PermissionModel(
    runtimePermissions: bool, installPermissions: bool,
    notificationPermissions: bool, mediaPermissions: bool)

  /** `_check_permission_compatibility`: runtime permissions from level 23, install
      permissions from 26, notification and media permissions from 33. */
  function PermissionModelFor(api: int): (r: PermissionModel)
    ensures r.runtimePermissions <==> api >= 23
    ensures r.installPermissions <==> api >= 26
    ensures r.notificationPermissions <==> api >= 33
    ensures r.mediaPermissions <==> api >= 33
  {
    PermissionModel(api >= 23, api >= 26, api >= 33, api >= 33)
  }

  /** A flag, once on at some level, stays on at every higher level. */
  lemma PermissionModelMonotone(api1: int, api2: int)
    requires api1 <= api2
    ensures var m1, m2 := PermissionModelFor(api1), PermissionModelFor(api2);
      && (m1.runtimePermissions ==> m2.runtimePermissions)
      && (m1.installPermissions ==> m2.installPermissions)
      && (m1.notificationPermissions ==> m2.notificationPermissions)
      && (m1.mediaPermissions ==> m2.mediaPermissions)
  {
  }

  const ApiDeprecations: map<int, seq<string>> := map[
    23 := ["apache_http_client"],
    28 := ["apache_http_client_removal"],
    29 := ["external_storage_legacy"],
    30 := ["scoped_storage_enforcement"],
    31 := ["custom_notification_trampolines"],
    33 := ["exact_alarm_permission_required"],
    34 := ["minimum_target_sdk_24"]]

  /** `_check_deprecated_apis`: the entry mapped to `api`, for the seven mapped levels,
      and nothing for any other level. */
  function DeprecatedApis(api: int): (r: seq<string>)
    ensures |r| <= 1
    ensures |r| == 1 <==> api in {23, 28, 29, 30, 31, 33, 34}
  {
    if api in ApiDeprecations then ApiDeprecations[api] else []
  }

  // ---------------------------------------------------------------------------------
  // Manifest analysis

  /** What `aapt dump badging` yielded: the two SDK versions and the permission list, each
      absent when no line of its kind was seen. */
  datatype Manifest = Manifest(minSdk: Option<int>, targetSdk: Option<int>,
                               permissions: Option<seq<string>>)

  /** No entry at all: the manifest could not be extracted. */
  predicate IsEmptyManifest(m: Manifest) {
    m.minSdk.None? && m.targetSdk.None? && m.permissions.None?
  }

  datatype ManifestReport = ManifestReport(
    issues: seq<string>, warnings: seq<string>, recommendations: seq<string>)

  const ManifestMissing := "Could not extract manifest"

  function TargetSdkWarning(target: int, api: int): string {
    "Target SDK (" + IntToString(target) + ") lower than test API (" + IntToString(api) + ")"
  }

  function TargetSdkAdvice(api: int): string {
    "Consider updating targetSdkVersion to " + IntToString(api)
  }

  function MinSdkIssue(min: int, api: int): string {
    "Minimum SDK (" + IntToString(min) + ") higher than test API (" + IntToString(api) + ")"
  }

  /** `_analyze_manifest_for_api`. The per-level feature check calls a test that never
      reports a feature as used, so it adds nothing and is not modelled. */
  function AnalyzeManifest(m: Manifest, api: int): (r: ManifestReport)
    ensures IsEmptyManifest(m) ==> r == ManifestReport([ManifestMissing], [], [])
    ensures !IsEmptyManifest(m) ==>
      && (|r.issues| > 0 <==> m.minSdk.Some? && m.minSdk.value > api)
      && (|r.warnings| > 0 <==> m.targetSdk.Some? && m.targetSdk.value < api)
      && |r.recommendations| == |r.warnings| && |r.issues| <= 1 && |r.warnings| <= 1
    ensures m.minSdk.Some? && m.minSdk.value > api ==> r.issues == [MinSdkIssue(m.minSdk.value, api)]
    ensures m.targetSdk.Some? && m.targetSdk.value < api ==>
      r.warnings == [TargetSdkWarning(m.targetSdk.value, api)]
      && r.recommendations == [TargetSdkAdvice(api)]
  {
    if IsEmptyManifest(m) then ManifestReport([ManifestMissing], [], [])
    else
      var lowTarget := m.targetSdk.Some? && m.targetSdk.value < api;
      var highMin := m.minSdk.Some? && m.minSdk.value > api;
      ManifestReport(
        if highMin then [MinSdkIssue(m.minSdk.value, api)] else [],
        if lowTarget then [TargetSdkWarning(m.targetSdk.value, api)] else [],
        if lowTarget then [TargetSdkAdvice(api)] else [])
  }

  datatype ApiReport = ApiReport(
    apiLevel: int, compatible: bool, issues: seq<string>, warnings: seq<string>,
    recommendations: seq<string>, deprecatedApis: seq<string>, restrictions: seq<string>,
    permissions: PermissionModel)

  /** `test_api_compatibility`: the manifest report merged with the level's deprecations,
      restrictions and permission model; compatible exactly when there is no issue. */
  method TestApiCompatibility(m: Manifest, api: int) returns (r: ApiReport)
    ensures r.apiLevel == api
    ensures r.compatible <==> |r.issues| == 0
    ensures r.compatible <==> !IsEmptyManifest(m) && !(m.minSdk.Some? && m.minSdk.value > api)
    ensures r.issues == AnalyzeManifest(m, api).issues
    ensures r.warnings == AnalyzeManifest(m, api).warnings
    ensures r.recommendations == AnalyzeManifest(m, api).recommendations
    ensures r.deprecatedApis == DeprecatedApis(api)
    ensures r.restrictions == RestrictionsFor(api)
    ensures r.permissions == PermissionModelFor(api)
  {
    var manifest := AnalyzeManifest(m, api);
    var restrictions := CheckApiRestrictions(api);
    r := ApiReport(api, true, manifest.issues, manifest.warnings, manifest.recommendations,
                   DeprecatedApis(api), restrictions, PermissionModelFor(api));
    if |r.issues| > 0 {
      r := r.(compatible := false);
    }
  }

  // ---------------------------------------------------------------------------------
  // Native libraries and architectures

  /** A line of `aapt list` naming a native library: under `lib/`, ending in `.so`, with
      at least three `/`-separated parts. */
  predicate IsNativeLibLine(line: string) {
    StartsWith(line, "lib/") && EndsWith(line, ".so") && |Split(line, '/')| >= 3
  }

  /** The architecture directory of a library line: its second part. */
  function ArchOf(line: string): string
    requires IsNativeLibLine(line)
  {
    Split(line, '/')[1]
  }

  /** The library name of a library line: its third part. */
  function LibNameOf(line: string): string
    requires IsNativeLibLine(line)
  {
    Split(line, '/')[2]
  }

  /** The architecture of every library line, in line order, repeats included. */
  function ArchsOf(lines: seq<string>): seq<string> {
    if |lines| == 0 then []
    else
      var init := ArchsOf(lines[..|lines| - 1]);
      var last := lines[|lines| - 1];
      if IsNativeLibLine(last) then init + [ArchOf(last)] else init
  }

  /** The names of the libraries under `arch`, in line order. */
  function LibsFor(lines: seq<string>, arch: string): seq<string> {
    if |lines| == 0 then []
    else
      var init := LibsFor(lines[..|lines| - 1], arch);
      var last := lines[|lines| - 1];
      if IsNativeLibLine(last) && ArchOf(last) == arch then init + [LibNameOf(last)] else init
  }

  /** An insertion-ordered dictionary from architecture to library names. */
  datatype NativeLibs = NativeLibs(archs: seq<string>, libs: map<string, seq<string>>)

  /** The dictionary holds, in first-seen order, every architecture that has a library
      line, each with its libraries in line order, and no other key. */
  ghost predicate DescribesLines(n: NativeLibs, lines: seq<string>) {
    ArchsDescribe(n, lines) && LibsDescribe(n.libs, lines)
  }

  ghost predicate ArchsDescribe(n: NativeLibs, lines: seq<string>) {
    && n.archs == Dedupe(ArchsOf(lines))
    && (forall a :: a in n.libs <==> a in n.archs)
  }

  ghost predicate LibsDescribe(libs: map<string, seq<string>>, lines: seq<string>) {
    && (forall a :: a in libs ==> libs[a] == LibsFor(lines, a))
    && (forall a :: a !in libs ==> LibsFor(lines, a) == [])
  }

  /** Each line that is not a library line leaves the dictionary as it was. */
  lemma SkipLine(n: NativeLibs, lines: seq<string>, line: string)
    requires DescribesLines(n, lines)
    requires !IsNativeLibLine(line)
    ensures DescribesLines(n, lines + [line])
  {
    assert (lines + [line])[..|lines|] == lines;
  }

  /** A library line adds its library under its architecture, registering the
      architecture first when it is new. */
  lemma RecordLine(n: NativeLibs, lines: seq<string>, line: string)
    requires DescribesLines(n, lines)
    requires IsNativeLibLine(line)
    ensures var arch := ArchOf(line);
      var archs := if arch in n.libs then n.archs else n.archs + [arch];
      var known := if arch in n.libs then n.libs[arch] else [];
      DescribesLines(NativeLibs(archs, n.libs[arch := known + [LibNameOf(line)]]), lines + [line])
  {
    var arch := ArchOf(line);
    var known := if arch in n.libs then n.libs[arch] else [];
    var libs := n.libs[arch := known + [LibNameOf(line)]];
    assert libs.Keys == n.libs.Keys + {arch};
    RecordArch(n, lines, line);
    RecordLib(n.libs, lines, line);
  }

  lemma RecordArch(n: NativeLibs, lines: seq<string>, line: string)
    requires ArchsDescribe(n, lines)
    requires IsNativeLibLine(line)
    ensures var arch := ArchOf(line);
      var archs := if arch in n.libs then n.archs else n.archs + [arch];
      forall libs: map<string, seq<string>> | libs.Keys == n.libs.Keys + {arch} ::
        ArchsDescribe(NativeLibs(archs, libs), lines + [line])
  {
    ArchsOfSnoc(lines, line);
    DedupeSnoc(ArchsOf(lines), ArchOf(line));
  }

  lemma ArchsOfSnoc(lines: seq<string>, line: string)
    requires IsNativeLibLine(line)
    ensures ArchsOf(lines + [line]) == ArchsOf(lines) + [ArchOf(line)]
  {
    assert (lines + [line])[..|lines|] == lines;
  }

  lemma RecordLib(libs: map<string, seq<string>>, lines: seq<string>, line: string)
    requires LibsDescribe(libs, lines)
    requires IsNativeLibLine(line)
    ensures var arch := ArchOf(line);
      var known := if arch in libs then libs[arch] else [];
      LibsDescribe(libs[arch := known + [LibNameOf(line)]], lines + [line])
  {
    assert (lines + [line])[..|lines|] == lines;
  }

  /** Appends `libName` to the libraries of `arch`, adding the key first when it is new. */
  method AddLibrary(n: NativeLibs, arch: string, libName: string) returns (r: NativeLibs)
    ensures r.archs == if arch in n.libs then n.archs else n.archs + [arch]
    ensures r.libs == n.libs[arch := (if arch in n.libs then n.libs[arch] else []) + [libName]]
  {
    r := n;
    if arch !in r.libs {
      r := NativeLibs(r.archs + [arch], r.libs[arch := []]);
    }
    r := r.(libs := r.libs[arch := r.libs[arch] + [libName]]);
  }

  /** `_analyze_native_libraries` over the output of `aapt list` and its exit code. */
  method AnalyzeNativeLibraries(rc: int, stdout: string) returns (n: NativeLibs)
    ensures rc != 0 ==> n == NativeLibs([], map[])
    ensures rc == 0 ==> DescribesLines(n, Split(stdout, '\n'))
  {
    if rc != 0 {
      return NativeLibs([], map[]);
    }
    var lines := Split(stdout, '\n');
    n := NativeLibs([], map[]);
    for i := 0 to |lines|
      invariant DescribesLines(n, lines[..i])
    {
      var line := lines[i];
      assert lines[..i + 1] == lines[..i] + [line];
      if StartsWith(line, "lib/") && EndsWith(line, ".so") && |Split(line, '/')| >= 3 {
        RecordLine(n, lines[..i], line);
        var parts := Split(line, '/');
        n := AddLibrary(n, parts[1], parts[2]);
      } else {
        SkipLine(n, lines[..i], line);
      }
    }
    assert lines[..|lines|] == lines;
  }

  datatype ArchResult = ArchResult(
    compatible: bool, nativeSupport: bool, emulationPossible: bool, performanceImpact: string)

  /** The 32-bit architecture a 64-bit one can run, if any. */
  function EmulatedArch(target: string): Option<string> {
    if target == "arm64-v8a" then Some("armeabi-v7a")
    else if target == "x86_64" then Some("x86")
    else None
  }

  /** `_test_single_architecture`. */
  function TestSingleArchitecture(n: NativeLibs, target: string): (r: ArchResult)
    ensures r.nativeSupport <==> target in n.libs
    ensures target in n.libs ==> r.compatible && r.performanceImpact == "none"
    ensures n.libs == map[] ==> r.compatible && !r.nativeSupport && !r.emulationPossible
    ensures r.emulationPossible <==>
      target !in n.libs && n.libs != map[] && EmulatedArch(target).Some? && EmulatedArch(target).value in n.libs
    ensures r.emulationPossible ==> r.compatible && r.performanceImpact == "moderate"
    ensures !r.emulationPossible ==> r.performanceImpact == "none"
    ensures r.compatible <==> target in n.libs || n.libs == map[] || r.emulationPossible
  {
    if target in n.libs then ArchResult(true, true, false, "none")
    else if n.libs == map[] then ArchResult(true, false, false, "none")
    else match EmulatedArch(target)
      case Some(source) =>
        if source in n.libs then ArchResult(true, false, true, "moderate")
        else ArchResult(false, false, false, "none")
      case None => ArchResult(false, false, false, "none")
  }

  /** The architectures tested, as the configuration lists them. */
  const TargetArchs: seq<string> := ["armeabi-v7a", "arm64-v8a", "x86", "x86_64"]

  const BundleAdvice := "Consider using " + "App Bundle to reduce APK size per architecture"
  const Arm64Advice := "Add " + "ARM64 support for better performance on modern devices"
  const MissingPrefix := "Consider adding support for: "

  function NotSupported(supported: seq<string>): string -> bool {
    t => t !in supported
  }

  /** The targets without support, each once. Python lists a set here, in no fixed order;
      this keeps the order of the targets. */
  function Missing(supported: seq<string>, targets: seq<string>): (r: seq<string>)
    ensures forall t :: t in r <==> t in targets && t !in supported
    ensures NoDuplicates(r)
  {
    var r := Dedupe(Filter(targets, NotSupported(supported)));
    forall t | t in r ensures t in targets && t !in supported {
      var k :| 0 <= k < |r| && r[k] == t;
      var m :| 0 <= m < |Filter(targets, NotSupported(supported))| && Filter(targets, NotSupported(supported))[m] == t;
    }
    forall t | t in targets && t !in supported ensures t in r {
      var k :| 0 <= k < |targets| && targets[k] == t;
      var m :| 0 <= m < |Filter(targets, NotSupported(supported))| && Filter(targets, NotSupported(supported))[m] == t;
    }
    r
  }

  function MissingAdvice(missing: seq<string>): string {
    MissingPrefix + Join(missing, ", ")
  }

  /** How many of the three architecture advices apply to `supported`. */
  function AdviceCount(supported: seq<string>, targets: seq<string>): nat {
    (if |Missing(supported, targets)| > 0 then 1 else 0) + (if |supported| > 2 then 1 else 0)
    + (if "armeabi-v7a" in supported && "arm64-v8a" !in supported then 1 else 0)
  }

  /** `_generate_architecture_recommendations`: missing support, the App Bundle advice
      for more than two architectures, and the ARM64 advice for 32-bit-only ARM. */
  method ArchitectureRecommendations(supported: seq<string>, targets: seq<string>)
    returns (r: seq<string>)
    ensures |r| == AdviceCount(supported, targets) <= 3
    ensures MissingAdvice(Missing(supported, targets)) in r <==> |Missing(supported, targets)| > 0
    ensures BundleAdvice in r <==> |supported| > 2
    ensures Arm64Advice in r <==> "armeabi-v7a" in supported && "arm64-v8a" !in supported
  {
    r := [];
    var missing := Missing(supported, targets);
    var advice := MissingAdvice(missing);
    assert advice[..|MissingPrefix|] == MissingPrefix;
    assert advice != BundleAdvice && advice != Arm64Advice by {
      assert advice[0] == 'C' && advice[9] == 'a';
      assert BundleAdvice[9] == 'u' && Arm64Advice[0] == 'A';
    }
    if |missing| > 0 {
      r := r + [advice];
    }
    if |supported| > 2 {
      r := r + [BundleAdvice];
    }
    if "armeabi-v7a" in supported && "arm64-v8a" !in supported {
      r := r + [Arm64Advice];
    }
  }

  datatype ArchReport = ArchReport(
    supportedArchitectures: seq<string>, nativeLibraries: NativeLibs,
    compatibilityMatrix: seq<(string, ArchResult)>, recommendations: seq<string>)

  /** `test_architecture_compatibility`: the libraries found, the architectures they
      support ("universal" when there are none), a verdict per target and the advice. */
  method TestArchitectureCompatibility(rc: int, stdout: string) returns (r: ArchReport)
    ensures r.nativeLibraries.libs == map[] ==> r.supportedArchitectures == ["universal"]
    ensures r.nativeLibraries.libs != map[] ==> r.supportedArchitectures == r.nativeLibraries.archs
    ensures |r.compatibilityMatrix| == |TargetArchs|
    ensures forall k :: 0 <= k < |TargetArchs| ==>
      r.compatibilityMatrix[k] == (TargetArchs[k], TestSingleArchitecture(r.nativeLibraries, TargetArchs[k]))
    ensures rc == 0 ==> DescribesLines(r.nativeLibraries, Split(stdout, '\n'))
    ensures rc != 0 ==> r.nativeLibraries == NativeLibs([], map[])
    ensures var missing := Missing(r.supportedArchitectures, TargetArchs);
      MissingAdvice(missing) in r.recommendations <==> |missing| > 0
    ensures BundleAdvice in r.recommendations <==> |r.supportedArchitectures| > 2
    ensures Arm64Advice in r.recommendations <==>
      "armeabi-v7a" in r.supportedArchitectures && "arm64-v8a" !in r.supportedArchitectures
    ensures |r.recommendations| == AdviceCount(r.supportedArchitectures, TargetArchs)
  {
    var natives := AnalyzeNativeLibraries(rc, stdout);
    var supported := if natives.libs != map[] then natives.archs else ["universal"];
    var matrix: seq<(string, ArchResult)> := [];
    for k := 0 to |TargetArchs|
      invariant |matrix| == k
      invariant forall j :: 0 <= j < k ==>
        matrix[j] == (TargetArchs[j], TestSingleArchitecture(natives, TargetArchs[j]))
    {
      matrix := matrix + [(TargetArchs[k], TestSingleArchitecture(natives, TargetArchs[k]))];
    }
    var recommendations := ArchitectureRecommendations(supported, TargetArchs);
    r := ArchReport(supported, natives, matrix, recommendations);
  }

  /** An APK without native code runs on every tested architecture, natively on none. */
  lemma NoNativeCodeRunsEverywhere(target: string)
    ensures var r := TestSingleArchitecture(NativeLibs([], map[]), target);
      r.compatible && !r.nativeSupport && r.performanceImpact == "none"
  {
  }

  // ---------------------------------------------------------------------------------
  // Manufacturers

  datatype Manufacturer =
    | Samsung | Huawei | Xiaomi | Oppo | Vivo | OnePlus | Lg | Sony | Motorola | Google
    | Nokia | Honor | Realme | Generic

  function ManufacturerValue(m: Manufacturer): string {
    match m
    case Samsung => "samsung"
    case Huawei => "huawei"
    case Xiaomi => "xiaomi"
    case Oppo => "oppo"
    case Vivo => "vivo"
    case OnePlus => "oneplus"
    case Lg => "lg"
    case Sony => "sony"
    case Motorola => "motorola"
    case Google => "google"
    case Nokia => "nokia"
    case Honor => "honor"
    case Realme => "realme"
    case Generic => "generic"
  }

  datatype Profile = Profile(
    customUi: string, commonIssues: seq<string>, optimizations: seq<string>,
    testingPriority: string)

  /** The five manufacturers with a profile; every other one has none. */
  function ProfileOf(m: Manufacturer): Option<Profile> {
    match m
    case Samsung => Some(Profile("One UI", ["knox_security", "dual_messenger", "edge_panels"],
                                 ["samsung_health", "bixby_integration", "dex_mode"], "high"))
    case Huawei => Some(Profile("EMUI/HarmonyOS", ["hms_services", "app_twin", "power_management"],
                                ["huawei_mobile_services", "gpu_turbo"], "high"))
    case Xiaomi => Some(Profile("MIUI", ["miui_optimizations", "app_vault", "dual_apps"],
                                ["mi_mover", "game_turbo", "second_space"], "high"))
    case Oppo => Some(Profile("ColorOS", ["oppo_clone", "smart_sidebar", "app_encryption"],
                              ["hyper_boost", "vooc_charging"], "medium"))
    case Google => Some(Profile("Stock Android", ["pure_android_expectations"],
                                ["google_services_integration", "pixel_features"], "high"))
    case _ => None
  }

  /** The issue reported for a profile entry, for the three entries that report one. */
  function IssueMessage(issue: string): Option<string> {
    if issue == "knox_security" then Some("May be affected by Samsung Knox security policies")
    else if issue == "hms_services" then Some("May require Huawei Mobile Services instead of GMS")
    else if issue == "miui_optimizations" then Some("May be affected by MIUI battery and permission optimizations")
    else None
  }

  function OptimizationMessage(optimization: string): Option<string> {
    if optimization == "samsung_health" then Some("Can integrate with Samsung Health platform")
    else if optimization == "huawei_mobile_services" then Some("Can leverage Huawei Mobile Services")
    else if optimization == "game_turbo" then Some("Can utilize Xiaomi Game Turbo optimizations")
    else None
  }

  function HasMessage(message: string -> Option<string>): string -> bool {
    e => message(e).Some?
  }

  /** The messages of the entries that have one, in entry order: one per such entry. */
  function Messages(entries: seq<string>, message: string -> Option<string>): (r: seq<string>)
    ensures |r| == Count(entries, HasMessage(message))
  {
    if |entries| == 0 then []
    else
      var rest := Messages(entries[1..], message);
      assert forall k :: 1 <= k < |entries| ==> entries[1..][k - 1] == entries[k];
      Reported(message, entries[0]) + rest
  }

  /** What one entry contributes: its message, if it has one. */
  function Reported(message: string -> Option<string>, entry: string): seq<string> {
    match message(entry) case Some(text) => [text] case None => []
  }

  /** A text is listed iff some entry reports it. */
  lemma {:induction false} MessagesMembers(entries: seq<string>, message: string -> Option<string>, t: string)
    ensures t in Messages(entries, message) <==>
            exists k :: 0 <= k < |entries| && message(entries[k]) == Some(t)
  {
    if |entries| > 0 {
      MessagesMembers(entries[1..], message, t);
      assert forall k :: 1 <= k < |entries| ==> entries[1..][k - 1] == entries[k];
      if exists k :: 0 <= k < |entries| && message(entries[k]) == Some(t) {
        var k :| 0 <= k < |entries| && message(entries[k]) == Some(t);
        if k > 0 {
          assert message(entries[1..][k - 1]) == Some(t);
        }
      }
    }
  }

  /** The messages of two runs of entries, one after the other: entry order is kept. */
  lemma {:induction false} MessagesConcat(a: seq<string>, b: seq<string>, message: string -> Option<string>)
    ensures Messages(a + b, message) == Messages(a, message) + Messages(b, message)
  {
    if |a| > 0 {
      calc {
        Messages(a + b, message);
        Reported(message, (a + b)[0]) + Messages((a + b)[1..], message);
        { assert (a + b)[1..] == a[1..] + b; }
        Reported(message, a[0]) + Messages(a[1..] + b, message);
        { MessagesConcat(a[1..], b, message); }
        Reported(message, a[0]) + (Messages(a[1..], message) + Messages(b, message));
      }
    } else {
      assert a + b == b;
    }
  }

  datatype ManufacturerReport = ManufacturerReport(
    manufacturer: string, compatible: bool, issues: seq<string>,
    optimizations: seq<string>, recommendations: seq<string>)

  const WorkaroundAdvice := "Consider manufacturer-specific workarounds"
  const PriorityAdvice := "High priority for testing due to market share"

  /** Two pieces of advice when there are issues, then one when the profile's testing
      priority is high. */
  function ManufacturerRecommendations(p: Profile, issues: seq<string>): (r: seq<string>)
    ensures |r| == (if |issues| > 0 then 2 else 0) + (if p.testingPriority == "high" then 1 else 0)
    ensures |issues| > 0 ==> r[..2] == ["Test thoroughly on " + p.customUi + " devices", WorkaroundAdvice]
    ensures p.testingPriority == "high" <==> |r| > 0 && r[|r| - 1] == PriorityAdvice
  {
    (if |issues| > 0
     then ["Test thoroughly on " + p.customUi + " devices", WorkaroundAdvice]
     else [])
    + (if p.testingPriority == "high" then [PriorityAdvice] else [])
  }

  /** A report lists the profile's issue messages and optimization messages, and the
      advice those issues and the profile's priority call for. */
  predicate FollowsProfile(report: ManufacturerReport, p: Profile) {
    && report.issues == Messages(p.commonIssues, IssueMessage)
    && report.optimizations == Messages(p.optimizations, OptimizationMessage)
    && report.recommendations == ManufacturerRecommendations(p, report.issues)
  }

  /** `test_manufacturer_compatibility`: an error for a manufacturer without a profile;
      otherwise the profile's issues and optimizations, compatible with at most two
      issues. */
  function TestManufacturer(m: Manufacturer): (r: Result<ManufacturerReport, string>)
    ensures ProfileOf(m).None? <==> r.Err?
    ensures r.Err? ==> r.error == "Unsupported manufacturer: " + ManufacturerValue(m)
    ensures r.Ok? ==> r.value.manufacturer == ManufacturerValue(m)
                      && (r.value.compatible <==> |r.value.issues| <= 2)
    ensures r.Ok? ==> FollowsProfile(r.value, ProfileOf(m).value)
  {
    match ProfileOf(m)
    case None => Err("Unsupported manufacturer: " + ManufacturerValue(m))
    case Some(p) =>
      var issues := Messages(p.commonIssues, IssueMessage);
      var report := ManufacturerReport(
        ManufacturerValue(m), true, issues, Messages(p.optimizations, OptimizationMessage),
        ManufacturerRecommendations(p, issues));
      if |issues| > 0 then Ok(report.(compatible := |issues| <= 2)) else Ok(report)
  }

  /** Entries without a message contribute nothing. */
  lemma {:induction false} SilentEntries(entries: seq<string>, message: string -> Option<string>)
    requires forall k :: 0 <= k < |entries| ==> message(entries[k]).None?
    ensures Messages(entries, message) == []
  {
    if |entries| > 0 {
      SilentEntries(entries[1..], message);
    }
  }

  /** Only the first entry can contribute a message when the rest are silent. */
  lemma SilentTail(entries: seq<string>, message: string -> Option<string>)
    requires |entries| > 0
    requires forall k :: 1 <= k < |entries| ==> message(entries[k]).None?
    ensures |Messages(entries, message)| <= 1
  {
    SilentEntries(entries[1..], message);
  }

  /** No profiled manufacturer reports more than one issue. */
  lemma AtMostOneIssue(m: Manufacturer)
    requires ProfileOf(m).Some?
    ensures |Messages(ProfileOf(m).value.commonIssues, IssueMessage)| <= 1
  {
    OnlyFirstIssueReported(m);
    SilentTail(ProfileOf(m).value.commonIssues, IssueMessage);
  }

  /** In every profile only the first listed issue can have a message. */
  lemma OnlyFirstIssueReported(m: Manufacturer)
    requires ProfileOf(m).Some?
    ensures |ProfileOf(m).value.commonIssues| > 0
    ensures forall k :: 1 <= k < |ProfileOf(m).value.commonIssues| ==>
              IssueMessage(ProfileOf(m).value.commonIssues[k]).None?
  {
    var issues := ProfileOf(m).value.commonIssues;
    match m {
      case Samsung =>
        assert IssueMessage(issues[1]) == None && IssueMessage(issues[2]) == None;
      case Huawei =>
        assert IssueMessage(issues[1]) == None && IssueMessage(issues[2]) == None;
      case Xiaomi =>
        assert IssueMessage(issues[1]) == None && IssueMessage(issues[2]) == None;
      case Oppo =>
        assert "smart_sidebar"[0] != "knox_security"[0];
        assert IssueMessage(issues[1]) == None && IssueMessage(issues[2]) == None;
      case Google =>
    }
  }

  /** Every profiled manufacturer is found compatible. */
  lemma ProfiledManufacturersAreCompatible(m: Manufacturer)
    requires ProfileOf(m).Some?
    ensures TestManufacturer(m).Ok? && TestManufacturer(m).value.compatible
  {
    AtMostOneIssue(m);
  }

  // ---------------------------------------------------------------------------------
  // Overall assessment and summary

  /** `compatible / total * 100`, or 0 when nothing was tested. */
  function Percent(compatible: nat, total: nat): (r: real)
    requires compatible <= total
    ensures 0.0 <= r <= 100.0
    ensures total > 0 && compatible == total ==> r == 100.0
    ensures compatible == 0 ==> r == 0.0
    ensures total > 0 ==> r * total as real == 100.0 * compatible as real
  {
    if total > 0 then
      var share := compatible as real / total as real;
      assert share * total as real == compatible as real;
      assert share <= 1.0;
      share * 100.0
    else 0.0
  }

  function TrueCount(s: seq<bool>): (n: nat)
    ensures n <= |s|
  {
    Count(s, (b: bool) => b)
  }

  /** A manufacturer counts as compatible unless its result says otherwise: an error result
      carries no `compatible` entry and counts. */
  function CountsAsCompatible(result: Option<bool>): bool {
    result.None? || result.value
  }

  function ManufacturerPassCount(results: seq<Option<bool>>): (n: nat)
    ensures n <= |results|
  {
    Count(results, CountsAsCompatible)
  }

  /** The `compatible` entry of a manufacturer result. */
  function CompatibleEntry(r: Result<ManufacturerReport, string>): Option<bool> {
    match r
    case Ok(report) => Some(report.compatible)
    case Err(_) => None
  }

  /** The three outcomes a category score can have. */
  datatype Band = Major | Minor | Strength

  /** Which list a category's message goes to: below `major` a major issue, below `minor`
      a minor one, otherwise a strength. */
  function BandOf(score: real, major: real, minor: real): (b: Band)
    requires major <= minor
    ensures b == Major <==> score < major
    ensures b == Strength <==> score >= minor
  {
    if score < major then Major else if score < minor then Minor else Strength
  }

  /** The screen score: 80, plus 10 for adaptive layouts and 10 for density support. */
  function ScreenScore(adaptiveLayouts: bool, densitySupport: bool): (r: int)
    ensures 80 <= r <= 100
    ensures r == 100 <==> adaptiveLayouts && densitySupport
    ensures r == 90 <==> adaptiveLayouts != densitySupport
    ensures r == 80 <==> !adaptiveLayouts && !densitySupport
  {
    80 + (if adaptiveLayouts then 10 else 0) + (if densitySupport then 10 else 0)
  }

  /** A screen never yields a major issue, and yields a strength with either adaptive
      layouts or density support. */
  lemma ScreenNeverMajor(adaptiveLayouts: bool, densitySupport: bool)
    ensures BandOf(ScreenScore(adaptiveLayouts, densitySupport) as real, 70.0, 90.0) != Major
    ensures BandOf(ScreenScore(adaptiveLayouts, densitySupport) as real, 70.0, 90.0) == Strength
            <==> adaptiveLayouts || densitySupport
  {
  }

  datatype Grade = APlus | A | BPlus | B | CPlus | C | D | F

  function GradeRank(g: Grade): nat {
    match g
    case F => 0
    case D => 1
    case C => 2
    case CPlus => 3
    case B => 4
    case BPlus => 5
    case A => 6
    case APlus => 7
  }

  /** The letter grade: A+ from 95, A from 90, B+ from 85, B from 80, C+ from 75, C from
      70, D from 60, F below. */
  function GradeOf(score: real): (g: Grade)
    ensures g == APlus <==> score >= 95.0
    ensures g == A <==> 90.0 <= score < 95.0
    ensures g == BPlus <==> 85.0 <= score < 90.0
    ensures g == B <==> 80.0 <= score < 85.0
    ensures g == CPlus <==> 75.0 <= score < 80.0
    ensures g == C <==> 70.0 <= score < 75.0
    ensures g == D <==> 60.0 <= score < 70.0
    ensures g == F <==> score < 60.0
  {
    if score >= 95.0 then APlus
    else if score >= 90.0 then A
    else if score >= 85.0 then BPlus
    else if score >= 80.0 then B
    else if score >= 75.0 then CPlus
    else if score >= 70.0 then C
    else if score >= 60.0 then D
    else F
  }

  /** A higher score never gets a lower grade. */
  lemma GradeMonotone(s1: real, s2: real)
    requires s1 <= s2
    ensures GradeRank(GradeOf(s1)) <= GradeRank(GradeOf(s2))
  {
  }

  /** The test outcomes the assessment reads: the `compatible` flag of each API level, of
      each architecture when the architecture test produced a matrix, and of each
      manufacturer; and the two screen findings. */
  datatype Outcomes = Outcomes(
    apiCompatible: seq<bool>,
    archCompatible: Option<seq<bool>>,
    manufacturerCompatible: seq<Option<bool>>,
    adaptiveLayouts: bool,
    densitySupport: bool)

  datatype Assessment = Assessment(
    compatibilityScore: real, grade: Grade, majorIssues: seq<string>,
    minorIssues: seq<string>, strengths: seq<string>, recommendations: seq<string>)

  function Sum(scores: seq<real>): real {
    if |scores| == 0 then 0.0 else scores[0] + Sum(scores[1..])
  }

  /** The category scores in assessment order: API levels, architectures (when tested),
      manufacturers, screens. */
  function CategoryScores(o: Outcomes): (r: seq<real>)
    ensures |r| == (if o.archCompatible.Some? then 4 else 3)
    ensures forall k :: 0 <= k < |r| ==> 0.0 <= r[k] <= 100.0
    ensures r[0] == Percent(TrueCount(o.apiCompatible), |o.apiCompatible|)
    ensures o.archCompatible.Some? ==>
      r[1] == Percent(TrueCount(o.archCompatible.value), |o.archCompatible.value|)
    ensures r[|r| - 2] == Percent(ManufacturerPassCount(o.manufacturerCompatible), |o.manufacturerCompatible|)
    ensures r[|r| - 1] == ScreenScore(o.adaptiveLayouts, o.densitySupport) as real
  {
    [Percent(TrueCount(o.apiCompatible), |o.apiCompatible|)]
    + (match o.archCompatible
       case Some(archs) => [Percent(TrueCount(archs), |archs|)]
       case None => [])
    + [Percent(ManufacturerPassCount(o.manufacturerCompatible), |o.manufacturerCompatible|),
       ScreenScore(o.adaptiveLayouts, o.densitySupport) as real]
  }

  lemma {:induction false} SumBounds(scores: seq<real>)
    requires forall k :: 0 <= k < |scores| ==> 0.0 <= scores[k] <= 100.0
    ensures 0.0 <= Sum(scores) <= 100.0 * |scores| as real
  {
    if |scores| > 0 {
      SumBounds(scores[1..]);
    }
  }

  lemma {:induction false} SumConstant(scores: seq<real>, v: real)
    requires forall k :: 0 <= k < |scores| ==> scores[k] == v
    ensures Sum(scores) == |scores| as real * v
  {
    if |scores| > 0 {
      SumConstant(scores[1..], v);
    }
  }

  /** The average of the category scores. */
  function Mean(scores: seq<real>): (r: real)
    requires |scores| > 0
    requires forall k :: 0 <= k < |scores| ==> 0.0 <= scores[k] <= 100.0
    ensures 0.0 <= r <= 100.0
    ensures r * |scores| as real == Sum(scores)
  {
    SumBounds(scores);
    var n := |scores| as real;
    var r := Sum(scores) / n;
    assert r * n == Sum(scores);
    r
  }

  /** A scored category: the bounds of its bands and the message each band files. */
  datatype Category = Category(
    major: real, minor: real, majorMessage: string, minorMessage: string, strengthMessage: string)

  const ApiCategory := Category(70.0, 90.0, "Poor Android version compatibility",
    "Some Android version issues", "Excellent Android version compatibility")
  const ArchCategory := Category(50.0, 75.0, "Limited architecture support",
    "Could improve architecture coverage", "Good architecture support")
  const MakerCategory := Category(60.0, 80.0, "Manufacturer compatibility concerns",
    "Some manufacturer-specific issues", "Good manufacturer compatibility")
  const ScreenCategory := Category(70.0, 90.0, "Poor screen compatibility",
    "Screen compatibility improvements needed", "Excellent screen compatibility")

  /** The categories in assessment order, matching `CategoryScores`. */
  function Categories(o: Outcomes): (r: seq<Category>)
    ensures |r| == |CategoryScores(o)|
  {
    [ApiCategory] + (if o.archCompatible.Some? then [ArchCategory] else []) + [MakerCategory, ScreenCategory]
  }

  /** The band of a category's score and the message it files. */
  function Entry(c: Category, score: real): (Band, string)
    requires c.major <= c.minor
  {
    var b := BandOf(score, c.major, c.minor);
    (b, match b
        case Major => c.majorMessage
        case Minor => c.minorMessage
        case Strength => c.strengthMessage)
  }

  /** No two categories file the same message in the same band. */
  predicate DistinctMessages(cats: seq<Category>) {
    forall j, k :: 0 <= j < k < |cats| ==>
      && cats[j].majorMessage != cats[k].majorMessage
      && cats[j].minorMessage != cats[k].minorMessage
      && cats[j].strengthMessage != cats[k].strengthMessage
  }

  lemma CategoriesWellFormed(o: Outcomes)
    ensures forall k :: 0 <= k < |Categories(o)| ==> Categories(o)[k].major <= Categories(o)[k].minor
    ensures DistinctMessages(Categories(o))
  {
    assert |ApiCategory.majorMessage| == 34 && |ArchCategory.majorMessage| == 28;
    assert |MakerCategory.majorMessage| == 35 && |ScreenCategory.majorMessage| == 25;
    assert |ApiCategory.minorMessage| == 27 && |ArchCategory.minorMessage| == 35;
    assert |MakerCategory.minorMessage| == 33 && |ScreenCategory.minorMessage| == 40;
    assert |ApiCategory.strengthMessage| == 39 && |ArchCategory.strengthMessage| == 25;
    assert |MakerCategory.strengthMessage| == 31 && |ScreenCategory.strengthMessage| == 30;
  }

  /** The messages of each band, in category order. */
  function InBand(entries: seq<(Band, string)>, b: Band): (r: seq<string>)
    ensures |r| <= |entries|
  {
    if |entries| == 0 then []
    else (if entries[0].0 == b then [entries[0].1] else []) + InBand(entries[1..], b)
  }

  /** A message is in a band's list iff some entry files it in that band. */
  lemma {:induction false} InBandMember(entries: seq<(Band, string)>, b: Band, m: string)
    ensures m in InBand(entries, b) <==> exists k :: 0 <= k < |entries| && entries[k] == (b, m)
  {
    if |entries| > 0 {
      InBandMember(entries[1..], b, m);
      if m in InBand(entries[1..], b) {
        var k :| 0 <= k < |entries| - 1 && entries[1..][k] == (b, m);
        assert entries[k + 1] == (b, m);
      }
      if exists k :: 0 <= k < |entries| && entries[k] == (b, m) {
        var k :| 0 <= k < |entries| && entries[k] == (b, m);
        if k > 0 {
          assert entries[1..][k - 1] == (b, m);
        }
      }
    }
  }

  /** Each category's entry, in category order. */
  function CategoryBands(cats: seq<Category>, scores: seq<real>): (r: seq<(Band, string)>)
    requires |scores| == |cats|
    requires forall k :: 0 <= k < |cats| ==> cats[k].major <= cats[k].minor
    ensures |r| == |scores|
    ensures forall k :: 0 <= k < |r| ==> r[k] == Entry(cats[k], scores[k])
  {
    seq(|scores|, k requires 0 <= k < |scores| => Entry(cats[k], scores[k]))
  }

  /** The three lists record, for each category, the band its score falls in. */
  predicate Files(r: Assessment, c: Category, score: real) {
    && (c.majorMessage in r.majorIssues <==> score < c.major)
    && (c.minorMessage in r.minorIssues <==> c.major <= score < c.minor)
    && (c.strengthMessage in r.strengths <==> score >= c.minor)
  }

  /** With distinct messages, category `j`'s message is in a list iff its own score falls
      in that list's band. */
  lemma FilesCategory(cats: seq<Category>, scores: seq<real>, r: Assessment, j: int)
    requires |scores| == |cats| && DistinctMessages(cats)
    requires forall k :: 0 <= k < |cats| ==> cats[k].major <= cats[k].minor
    requires var bands := CategoryBands(cats, scores);
      && r.majorIssues == InBand(bands, Major) && r.minorIssues == InBand(bands, Minor)
      && r.strengths == InBand(bands, Strength)
    requires 0 <= j < |cats|
    ensures Files(r, cats[j], scores[j])
  {
    var bands := CategoryBands(cats, scores);
    var c := cats[j];
    InBandMember(bands, Major, c.majorMessage);
    InBandMember(bands, Minor, c.minorMessage);
    InBandMember(bands, Strength, c.strengthMessage);
    assert bands[j] == Entry(c, scores[j]);
    forall k | 0 <= k < |bands| && k != j
      ensures bands[k] != (Major, c.majorMessage) && bands[k] != (Minor, c.minorMessage)
      ensures bands[k] != (Strength, c.strengthMessage)
    {
      assert bands[k] == Entry(cats[k], scores[k]);
      if k < j {
        assert cats[k].majorMessage != c.majorMessage;
      } else {
        assert cats[j].majorMessage != cats[k].majorMessage;
      }
    }
  }

  const ImproveAdvice := "Focus on improving compatibility across all tested categories"
  const MajorAdvice := "Address major compatibility issues before release"
  const MinorAdvice := "Consider addressing minor issues for better user experience"

  /** How many of the three closing advices apply. */
  function AdviceTotal(score: real, major: seq<string>, minor: seq<string>): nat {
    (if score < 80.0 then 1 else 0) + (if |major| > 0 then 1 else 0) + (if |minor| > 2 then 1 else 0)
  }

  /** `_generate_overall_assessment`: the mean of the category scores, its grade, each
      category's message filed as a major issue, a minor issue or a strength, and the
      closing advice. */
  function OverallAssessment(o: Outcomes): (r: Assessment)
    ensures 0.0 <= r.compatibilityScore <= 100.0
    ensures r.compatibilityScore == Mean(CategoryScores(o))
    ensures r.grade == GradeOf(r.compatibilityScore)
    ensures forall k :: 0 <= k < |Categories(o)| ==> Files(r, Categories(o)[k], CategoryScores(o)[k])
    ensures |r.majorIssues| + |r.minorIssues| + |r.strengths| == |CategoryScores(o)|
    ensures ImproveAdvice in r.recommendations <==> r.compatibilityScore < 80.0
    ensures MajorAdvice in r.recommendations <==> |r.majorIssues| > 0
    ensures MinorAdvice in r.recommendations <==> |r.minorIssues| > 2
    ensures |r.recommendations| == AdviceTotal(r.compatibilityScore, r.majorIssues, r.minorIssues)
  {
    var scores := CategoryScores(o);
    var cats := Categories(o);
    CategoriesWellFormed(o);
    var r := AssessmentOf(Mean(scores), CategoryBands(cats, scores));
    forall k | 0 <= k < |cats| ensures Files(r, cats[k], scores[k]) {
      FilesCategory(cats, scores, r, k);
    }
    r
  }

  /** The assessment for a mean score and the category entries: each list holds the
      messages of its band. */
  function AssessmentOf(score: real, bands: seq<(Band, string)>): (r: Assessment)
    requires 0.0 <= score <= 100.0
    ensures r.compatibilityScore == score && r.grade == GradeOf(score)
    ensures r.majorIssues == InBand(bands, Major) && r.minorIssues == InBand(bands, Minor)
    ensures r.strengths == InBand(bands, Strength)
    ensures ImproveAdvice in r.recommendations <==> score < 80.0
    ensures MajorAdvice in r.recommendations <==> |r.majorIssues| > 0
    ensures MinorAdvice in r.recommendations <==> |r.minorIssues| > 2
    ensures |r.recommendations| == AdviceTotal(score, r.majorIssues, r.minorIssues)
    ensures |r.majorIssues| + |r.minorIssues| + |r.strengths| == |bands|
  {
    var major := InBand(bands, Major);
    var minor := InBand(bands, Minor);
    var strengths := InBand(bands, Strength);
    BandsPartition(bands);
    var recommendations :=
      (if score < 80.0 then [ImproveAdvice] else [])
      + (if |major| > 0 then [MajorAdvice] else [])
      + (if |minor| > 2 then [MinorAdvice] else []);
    AdviceDistinct();
    OptionalThree(ImproveAdvice, MajorAdvice, MinorAdvice, score < 80.0, |major| > 0, |minor| > 2);
    Assessment(score, GradeOf(score), major, minor, strengths, recommendations)
  }

  /** Every category was tested and passed throughout, and the screens have adaptive
      layouts and density support. */
  predicate AllPassing(o: Outcomes) {
    && |o.apiCompatible| > 0 && (forall k :: 0 <= k < |o.apiCompatible| ==> o.apiCompatible[k])
    && o.archCompatible.Some? && |o.archCompatible.value| > 0
    && (forall k :: 0 <= k < |o.archCompatible.value| ==> o.archCompatible.value[k])
    && |o.manufacturerCompatible| > 0
    && (forall k :: 0 <= k < |o.manufacturerCompatible| ==> CountsAsCompatible(o.manufacturerCompatible[k]))
    && o.adaptiveLayouts && o.densitySupport
  }

  /** When everything passes, the score is 100 and the grade A+, every category is a
      strength, and there is no advice. */
  lemma AllPassingIsAPlus(o: Outcomes)
    requires AllPassing(o)
    ensures var r := OverallAssessment(o);
      && r.compatibilityScore == 100.0 && r.grade == APlus
      && r.majorIssues == [] && r.minorIssues == [] && |r.strengths| == 4
      && r.recommendations == []
  {
    var scores := CategoryScores(o);
    var cats := Categories(o);
    AllPassingScores(o);
    CategoriesWellFormed(o);
    OnlyStrengths(cats, scores);
    var bands := CategoryBands(cats, scores);
    assert OverallAssessment(o) == AssessmentOf(Mean(scores), bands);
    PerfectMean(scores);
    PerfectAssessment(bands);
  }

  lemma PerfectMean(scores: seq<real>)
    requires scores == [100.0, 100.0, 100.0, 100.0]
    ensures Mean(scores) == 100.0
  {
    SumConstant(scores, 100.0);
  }

  /** A perfect score with four categories, none of them an issue. */
  lemma PerfectAssessment(bands: seq<(Band, string)>)
    requires |bands| == 4 && InBand(bands, Major) == [] && InBand(bands, Minor) == []
    ensures var r := AssessmentOf(100.0, bands);
      && r.grade == APlus && r.majorIssues == [] && r.minorIssues == []
      && |r.strengths| == 4 && r.recommendations == []
  {
  }

  lemma AllPassingScores(o: Outcomes)
    requires AllPassing(o)
    ensures CategoryScores(o) == [100.0, 100.0, 100.0, 100.0]
  {
  }

  /** Scores at or above every category's upper bound file nothing but strengths. */
  lemma OnlyStrengths(cats: seq<Category>, scores: seq<real>)
    requires |scores| == |cats|
    requires forall k :: 0 <= k < |cats| ==> cats[k].major <= cats[k].minor <= scores[k]
    ensures InBand(CategoryBands(cats, scores), Major) == []
    ensures InBand(CategoryBands(cats, scores), Minor) == []
  {
    var bands := CategoryBands(cats, scores);
    forall k | 0 <= k < |bands| ensures bands[k].0 == Strength {
      assert bands[k] == Entry(cats[k], scores[k]);
    }
    InBandNone(bands, Major);
    InBandNone(bands, Minor);
  }

  /** A band no entry falls in has an empty list. */
  lemma {:induction false} InBandNone(entries: seq<(Band, string)>, b: Band)
    requires forall k :: 0 <= k < |entries| ==> entries[k].0 != b
    ensures InBand(entries, b) == []
  {
    if |entries| > 0 {
      InBandNone(entries[1..], b);
    }
  }

  lemma AdviceDistinct()
    ensures ImproveAdvice != MajorAdvice && ImproveAdvice != MinorAdvice && MajorAdvice != MinorAdvice
  {
    assert |ImproveAdvice| == 61 && |MajorAdvice| == 49 && |MinorAdvice| == 59;
  }

  /** Which of three distinct values a list of the optional ones holds. */
  lemma OptionalThree<T>(a: T, b: T, c: T, pa: bool, pb: bool, pc: bool)
    requires a != b && a != c && b != c
    ensures var s := (if pa then [a] else []) + (if pb then [b] else []) + (if pc then [c] else []);
      && (a in s <==> pa) && (b in s <==> pb) && (c in s <==> pc)
  {
  }

  /** Every category message goes to exactly one of the three lists. */
  lemma {:induction false} BandsPartition(entries: seq<(Band, string)>)
    ensures |InBand(entries, Major)| + |InBand(entries, Minor)| + |InBand(entries, Strength)| == |entries|
  {
    if |entries| > 0 {
      BandsPartition(entries[1..]);
    }
  }

  datatype Summary = Summary(
    totalTestsRun: nat, passedTests: nat, failedTests: int,
    testingCategories: seq<string>, keyFindings: seq<string>, nextSteps: seq<string>)

  /** `_generate_compatibility_summary`: API levels and manufacturers are the counted tests
      (a manufacturer result without a verdict counts as passed); the key findings are the
      strengths followed by the major issues. */
  function CompatibilitySummary(o: Outcomes, overall: Assessment): (r: Summary)
    ensures r.totalTestsRun == |o.apiCompatible| + |o.manufacturerCompatible|
    ensures r.passedTests == TrueCount(o.apiCompatible) + ManufacturerPassCount(o.manufacturerCompatible)
    ensures 0 <= r.failedTests == r.totalTestsRun - r.passedTests
    ensures r.keyFindings == overall.strengths + overall.majorIssues
    ensures r.nextSteps == overall.recommendations
  {
    var total := |o.apiCompatible| + |o.manufacturerCompatible|;
    var passed := TrueCount(o.apiCompatible) + ManufacturerPassCount(o.manufacturerCompatible);
    Summary(total, passed, total - passed,
            ["android_versions", "architectures", "manufacturers", "screen_compatibility"],
            overall.strengths + overall.majorIssues, overall.recommendations)
  }

  /** The default manufacturer list tests OnePlus, which has no profile: its error result
      carries no verdict and is counted as a passed test. */
  lemma UnprofiledManufacturerCountsAsPassed()
    ensures TestManufacturer(OnePlus).Err?
    ensures CountsAsCompatible(CompatibleEntry(TestManufacturer(OnePlus)))
  {
    var r := TestManufacturer(OnePlus);
    assert ProfileOf(OnePlus).None?;
    assert r.Err?;
  }
}
