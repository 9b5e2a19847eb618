/** The scoring half of the APK analysis engine: permission risk (`PermissionAnalyzer`),
    the obfuscation score (`CodeStructureScanner`), the protection score
    (`AntiAnalysisDetector`), the overall risk assessment (`APKAnalysisEngine`) and the
    permission list taken from `aapt dump` output. Everything that reads the APK itself
    (ZIP, DEX and ELF bytes) is an input here: the counts of indicators it found. */
module ApkAnalysis {
  import opened Wrappers
  import opened Strings
  import opened Seqs

  // ---------------------------------------------------------------------------------
  // Permission sets

  const DangerousPermissions: set<string> := {
    "android.permission.READ_CALENDAR", "android.permission.WRITE_CALENDAR",
    "android.permission.CAMERA", "android.permission.READ_CONTACTS",
    "android.permission.WRITE_CONTACTS", "android.permission.GET_ACCOUNTS",
    "android.permission.ACCESS_FINE_LOCATION", "android.permission.ACCESS_COARSE_LOCATION",
    "android.permission.RECORD_AUDIO", "android.permission.READ_PHONE_STATE",
    "android.permission.READ_PHONE_NUMBERS", "android.permission.CALL_PHONE",
    "android.permission.ANSWER_PHONE_CALLS", "android.permission.READ_CALL_LOG",
    "android.permission.WRITE_CALL_LOG", "android.permission.ADD_VOICEMAIL",
    "android.permission.USE_SIP", "android.permission.PROCESS_OUTGOING_CALLS",
    "android.permission.BODY_SENSORS", "android.permission.SEND_SMS",
    "android.permission.RECEIVE_SMS", "android.permission.READ_SMS",
    "android.permission.RECEIVE_WAP_PUSH", "android.permission.RECEIVE_MMS",
    "android.permission.READ_EXTERNAL_STORAGE", "android.permission.WRITE_EXTERNAL_STORAGE"
  }

  const MaliciousPermissions: set<string> := {
    "android.permission.SYSTEM_ALERT_WINDOW", "android.permission.DEVICE_ADMIN",
    "android.permission.BIND_DEVICE_ADMIN", "android.permission.ACCESSIBILITY_SERVICE",
    "android.permission.BIND_ACCESSIBILITY_SERVICE", "android.permission.WRITE_SECURE_SETTINGS",
    "android.permission.INSTALL_PACKAGES", "android.permission.DELETE_PACKAGES",
    "android.permission.MODIFY_PHONE_STATE", "android.permission.MOUNT_UNMOUNT_FILESYSTEMS",
    "android.permission.WRITE_SETTINGS"
  }

  predicate IsDangerous(perm: string) {
    perm in DangerousPermissions
  }

  predicate IsMalicious(perm: string) {
    perm in MaliciousPermissions
  }

  /** No permission is both dangerous and malicious, so one permission adds 3 or 5 points
      to the permission score, never 8. */
  lemma DangerousAndMaliciousDisjoint()
    ensures DangerousPermissions * MaliciousPermissions == {}
  {
  }

  lemma NotBoth(perm: string)
    ensures !(IsDangerous(perm) && IsMalicious(perm))
  {
    DangerousAndMaliciousDisjoint();
    assert perm !in DangerousPermissions * MaliciousPermissions;
  }

  // ---------------------------------------------------------------------------------
  // Categories and risk levels

  datatype Category =
    | Network | Storage | Location | Camera | Microphone | Contacts | Sms | Phone
    | DeviceAdmin | Accessibility | System

  /** The categories in the order of the analyzer's dictionary. */
  const AllCategories: seq<Category> :=
    [Network, Storage, Location, Camera, Microphone, Contacts, Sms, Phone,
     DeviceAdmin, Accessibility, System]

  function CategoryName(c: Category): string {
    match c
    case Network => "network"
    case Storage => "storage"
    case Location => "location"
    case Camera => "camera"
    case Microphone => "microphone"
    case Contacts => "contacts"
    case Sms => "sms"
    case Phone => "phone"
    case DeviceAdmin => "device_admin"
    case Accessibility => "accessibility"
    case System => "system"
  }

  /** The category a permission is filed under: the first test of the chain that its name
      passes, by substring. A permission passing none is in no category. */
  function CategoryOf(perm: string): Option<Category> {
    if Contains(perm, "INTERNET") || Contains(perm, "NETWORK") then Some(Network)
    else if Contains(perm, "STORAGE") || Contains(perm, "EXTERNAL") then Some(Storage)
    else if Contains(perm, "LOCATION") then Some(Location)
    else if Contains(perm, "CAMERA") then Some(Camera)
    else if Contains(perm, "RECORD_AUDIO") || Contains(perm, "MICROPHONE") then Some(Microphone)
    else if Contains(perm, "CONTACTS") then Some(Contacts)
    else if Contains(perm, "SMS") || Contains(perm, "MMS") then Some(Sms)
    else if Contains(perm, "PHONE") || Contains(perm, "CALL") then Some(Phone)
    else if Contains(perm, "DEVICE_ADMIN") || Contains(perm, "ADMIN") then Some(DeviceAdmin)
    else if Contains(perm, "ACCESSIBILITY") then Some(Accessibility)
    else if Contains(perm, "SYSTEM") || Contains(perm, "WRITE_SECURE_SETTINGS") then Some(System)
    else None
  }

  /** The test "filed under `c`" for a given way of filing permissions. */
  function FiledUnder(categoryOf: string -> Option<Category>, c: Category): string -> bool {
    perm => categoryOf(perm) == Some(c)
  }

  /** The permissions filed under `c`, in input order. The filing rule is a parameter so
      that the proofs about the lists do not unfold the substring tests of `CategoryOf`. */
  function Members(perms: seq<string>, filing: string -> Option<Category>, c: Category): seq<string> {
    Filter(perms, FiledUnder(filing, c))
  }

  /** A permission is filed under at most one category, so no two categories share one. */
  lemma CategoriesAreDisjoint(perms: seq<string>, filing: string -> Option<Category>,
                              c1: Category, c2: Category, perm: string)
    requires c1 != c2
    ensures perm in Members(perms, filing, c1) ==> perm !in Members(perms, filing, c2)
  {
    if perm in Members(perms, filing, c1) {
      FilterMember(perms, FiledUnder(filing, c1), perm);
      if perm in Members(perms, filing, c2) {
        FilterMember(perms, FiledUnder(filing, c2), perm);
      }
    }
  }

  /** The listing of `cs` reduced to the categories that received a permission, each with
      its permissions: the dictionary comprehension that drops empty categories. */
  function NonEmptyCategories(cs: seq<Category>, perms: seq<string>, filing: string -> Option<Category>)
    : (r: seq<(Category, seq<string>)>)
    ensures |r| <= |cs|
    ensures forall k :: 0 <= k < |r| ==> r[k].0 in cs
    ensures forall k :: 0 <= k < |r| ==> |r[k].1| > 0 && r[k].1 == Members(perms, filing, r[k].0)
  {
    if |cs| == 0 then []
    else
      var init := cs[..|cs| - 1];
      var last := cs[|cs| - 1];
      NonEmptyCategories(init, perms, filing)
      + if |Members(perms, filing, last)| > 0 then [(last, Members(perms, filing, last))] else []
  }

  /** The categories of a listing, in order. */
  function Keys(r: seq<(Category, seq<string>)>): (ks: seq<Category>)
    ensures |ks| == |r| && forall k :: 0 <= k < |r| ==> ks[k] == r[k].0
  {
    seq(|r|, k requires 0 <= k < |r| => r[k].0)
  }

  function ReceivedPermission(perms: seq<string>, filing: string -> Option<Category>): Category -> bool {
    c => |Members(perms, filing, c)| > 0
  }

  /** The listing names exactly the categories of `cs` that received a permission, in the
      order of `cs`, each with all of its permissions. */
  lemma {:induction false} NonEmptyCategoriesListsEachCategory(cs: seq<Category>, perms: seq<string>,
                                                               filing: string -> Option<Category>)
    ensures var r := NonEmptyCategories(cs, perms, filing);
      && Keys(r) == Filter(cs, ReceivedPermission(perms, filing))
      && forall k :: 0 <= k < |r| ==> |r[k].1| > 0 && r[k].1 == Members(perms, filing, r[k].0)
  {
    if |cs| > 0 {
      var init := cs[..|cs| - 1];
      var last := cs[|cs| - 1];
      assert cs == init + [last];
      NonEmptyCategoriesListsEachCategory(init, perms, filing);
      FilterSnoc(init, last, ReceivedPermission(perms, filing));
      var r0 := NonEmptyCategories(init, perms, filing);
      var r := NonEmptyCategories(cs, perms, filing);
      assert forall k :: 0 <= k < |r0| ==> r[k] == r0[k];
      assert Keys(r) == Keys(r0) + if |r| > |r0| then [last] else [];
    }
  }

  datatype RiskLevel = Minimal | Low | Medium | High | Critical

  function LevelRank(l: RiskLevel): nat {
    match l
    case Minimal => 0
    case Low => 1
    case Medium => 2
    case High => 3
    case Critical => 4
  }

  /** A score mapped to a level by four descending thresholds. */
  function LevelOf(score: int, critical: int, high: int, medium: int, low: int): (l: RiskLevel)
    requires critical >= high >= medium >= low
    ensures l == Critical <==> score >= critical
    ensures l == High <==> high <= score < critical
    ensures l == Medium <==> medium <= score < high
    ensures l == Low <==> low <= score < medium
    ensures l == Minimal <==> score < low
  {
    if score >= critical then Critical
    else if score >= high then High
    else if score >= medium then Medium
    else if score >= low then Low
    else Minimal
  }

  /** A higher score never gets a lower level. */
  lemma LevelMonotone(s1: int, s2: int, critical: int, high: int, medium: int, low: int)
    requires critical >= high >= medium >= low
    requires s1 <= s2
    ensures LevelRank(LevelOf(s1, critical, high, medium, low)) <= LevelRank(LevelOf(s2, critical, high, medium, low))
  {
  }

  /** The permission risk level: CRITICAL from 20, HIGH from 15, MEDIUM from 10, LOW from 5. */
  function PermissionRiskLevel(score: int): (l: RiskLevel)
    ensures l == Critical <==> score >= 20
    ensures l == Minimal <==> score < 5
  {
    LevelOf(score, 20, 15, 10, 5)
  }

  // ---------------------------------------------------------------------------------
  // Permission analysis

  /** The three category pairs the analyzer flags, in the order it tests them. */
  datatype Combination = DeviceAdminAndNetwork | AccessibilityAndSystem | SmsAndNetwork

  function CombinationLabel(c: Combination): string {
    match c
    case DeviceAdminAndNetwork => "Device Admin + Network Access"
    case AccessibilityAndSystem => "Accessibility + System Permissions"
    case SmsAndNetwork => "SMS Access + Network"
  }

  function CombinationPoints(c: Combination): nat {
    match c
    case DeviceAdminAndNetwork => 10
    case AccessibilityAndSystem => 8
    case SmsAndNetwork => 6
  }

  function TotalPoints(cs: seq<Combination>): nat {
    if |cs| == 0 then 0 else CombinationPoints(cs[0]) + TotalPoints(cs[1..])
  }

  function Labels(cs: seq<Combination>): (r: seq<string>)
    ensures |r| == |cs| && forall k :: 0 <= k < |cs| ==> r[k] == CombinationLabel(cs[k])
  {
    if |cs| == 0 then [] else [CombinationLabel(cs[0])] + Labels(cs[1..])
  }

  predicate Present(perms: seq<string>, filing: string -> Option<Category>, c: Category) {
    |Members(perms, filing, c)| > 0
  }

  /** The combinations flagged for the given categories being present: a pair is flagged
      iff both of its categories are. */
  function CombinationsOf(admin: bool, network: bool, accessibility: bool, system: bool, sms: bool)
    : (r: seq<Combination>)
    ensures DeviceAdminAndNetwork in r <==> admin && network
    ensures AccessibilityAndSystem in r <==> accessibility && system
    ensures SmsAndNetwork in r <==> sms && network
    ensures TotalPoints(r) <= 24
  {
    var r1 := if admin && network then [DeviceAdminAndNetwork] else [];
    var r2 := r1 + if accessibility && system then [AccessibilityAndSystem] else [];
    var r3 := r2 + if sms && network then [SmsAndNetwork] else [];
    assert TotalPoints(r1) <= 10;
    assert TotalPoints(r2) <= 18 by { TotalPointsAppend(r1, if accessibility && system then [AccessibilityAndSystem] else []); }
    TotalPointsAppend(r2, if sms && network then [SmsAndNetwork] else []);
    r3
  }

  lemma {:induction false} TotalPointsAppend(a: seq<Combination>, b: seq<Combination>)
    ensures TotalPoints(a + b) == TotalPoints(a) + TotalPoints(b)
  {
    if |a| > 0 {
      assert (a + b)[1..] == a[1..] + b;
      TotalPointsAppend(a[1..], b);
    } else {
      assert a + b == b;
    }
  }

  /** The combinations present among the categories of `perms`. */
  function Combinations(perms: seq<string>, filing: string -> Option<Category>): seq<Combination> {
    CombinationsOf(
      Present(perms, filing, DeviceAdmin), Present(perms, filing, Network),
      Present(perms, filing, Accessibility), Present(perms, filing, System),
      Present(perms, filing, Sms))
  }

  datatype PermissionAnalysis = PermissionAnalysis(
    totalPermissions: nat,
    dangerousPermissions: seq<string>,
    maliciousPermissions: seq<string>,
    riskScore: int,
    riskLevel: RiskLevel,
    permissionCategories: seq<(Category, seq<string>)>,
    unusualCombinations: seq<string>,
    privilegeEscalationRisk: bool)

  /** `PermissionAnalyzer.analyze_permissions`: one pass over the permissions that files
      each into the dangerous and malicious lists (3 and 5 points) and into its category,
      then 10/8/6 points per flagged combination and a level from the total. */
  method AnalyzePermissions(perms: seq<string>) returns (a: PermissionAnalysis)
    ensures a.totalPermissions == |perms|
    ensures a.dangerousPermissions == Filter(perms, IsDangerous)
    ensures a.maliciousPermissions == Filter(perms, IsMalicious)
    ensures forall p :: p in a.dangerousPermissions ==> p !in a.maliciousPermissions
    ensures a.permissionCategories == NonEmptyCategories(AllCategories, perms, CategoryOf)
    ensures a.unusualCombinations == Labels(Combinations(perms, CategoryOf))
    ensures a.riskScore == 3 * |a.dangerousPermissions| + 5 * |a.maliciousPermissions|
                           + TotalPoints(Combinations(perms, CategoryOf))
    ensures a.riskLevel == PermissionRiskLevel(a.riskScore)
    ensures a.privilegeEscalationRisk <==> exists k :: 0 <= k < |perms| && IsMalicious(perms[k])
  {
    var dangerous, malicious, score, categories :=
      FilePermissions(perms, IsDangerous, IsMalicious, CategoryOf);
    var listing := ListCategories(categories, perms, CategoryOf);
    var combinations, bonus := FlagCombinations(categories, perms, CategoryOf);
    score := score + bonus;
    forall p | p in dangerous ensures p !in malicious {
      FilterMember(perms, IsDangerous, p);
      NotBoth(p);
    }
    if |malicious| > 0 {
      var k :| 0 <= k < |perms| && perms[k] == malicious[0];
    }
    a := PermissionAnalysis(
      |perms|, dangerous, malicious, score, PermissionRiskLevel(score), listing,
      Labels(combinations), |malicious| > 0);
  }

  /** The loop of the analyzer: each permission goes to the dangerous and malicious lists
      it belongs to, adding 3 and 5 points, and to the list of its category. The two
      membership tests and the filing rule are passed in as `IsDangerous`, `IsMalicious`
      and `CategoryOf`. */
  method FilePermissions(perms: seq<string>, isDangerous: string -> bool,
                         isMalicious: string -> bool, categoryOf: string -> Option<Category>)
    returns (dangerous: seq<string>, malicious: seq<string>, score: int,
             categories: map<Category, seq<string>>)
    ensures dangerous == Filter(perms, isDangerous)
    ensures malicious == Filter(perms, isMalicious)
    ensures score == 3 * |dangerous| + 5 * |malicious|
    ensures forall c :: c in categories && categories[c] == Filter(perms, FiledUnder(categoryOf, c))
  {
    dangerous, malicious, score := [], [], 0;
    categories := EmptyCategories();
    assert perms[..0] == [];
    for i := 0 to |perms|
      invariant dangerous == Filter(perms[..i], isDangerous)
      invariant malicious == Filter(perms[..i], isMalicious)
      invariant score == 3 * |dangerous| + 5 * |malicious|
      invariant forall c :: c in categories && categories[c] == Filter(perms[..i], FiledUnder(categoryOf, c))
    {
      var perm := perms[i];
      assert perms[..i + 1] == perms[..i] + [perm];
      FilterSnoc(perms[..i], perm, isDangerous);
      FilterSnoc(perms[..i], perm, isMalicious);
      if isDangerous(perm) {
        dangerous := dangerous + [perm];
        score := score + 3;
      }
      if isMalicious(perm) {
        malicious := malicious + [perm];
        score := score + 5;
      }
      var filed := FileUnder(categories, perm, categoryOf(perm));
      FileUnderStep(categories, perms[..i], perm, categoryOf);
      categories := filed;
    }
    assert perms[..|perms|] == perms;
  }

  /** The analyzer's dictionary before the loop: every category with an empty list. */
  function EmptyCategories(): (r: map<Category, seq<string>>)
    ensures forall c :: c in r && r[c] == []
  {
    var r := map[
      Network := [], Storage := [], Location := [], Camera := [], Microphone := [], Contacts := [],
      Sms := [], Phone := [], DeviceAdmin := [], Accessibility := [], System := []];
    forall c: Category ensures c in r && r[c] == [] {
      assert c.Network? || c.Storage? || c.Location? || c.Camera? || c.Microphone? || c.Contacts?
        || c.Sms? || c.Phone? || c.DeviceAdmin? || c.Accessibility? || c.System?;
    }
    r
  }

  /** `categories[c].append(perm)` for the category `perm` is filed under, if any. */
  function FileUnder(categories: map<Category, seq<string>>, perm: string, c: Option<Category>)
    : map<Category, seq<string>>
  {
    match c
    case Some(c) => if c in categories then categories[c := categories[c] + [perm]] else categories
    case None => categories
  }

  lemma FileUnderStep(categories: map<Category, seq<string>>, prefix: seq<string>, perm: string,
                      categoryOf: string -> Option<Category>)
    requires forall c :: c in categories && categories[c] == Filter(prefix, FiledUnder(categoryOf, c))
    ensures var next := FileUnder(categories, perm, categoryOf(perm));
      forall c :: c in next && next[c] == Filter(prefix + [perm], FiledUnder(categoryOf, c))
  {
    var next := FileUnder(categories, perm, categoryOf(perm));
    forall c ensures c in next && next[c] == Filter(prefix + [perm], FiledUnder(categoryOf, c)) {
      FilterSnoc(prefix, perm, FiledUnder(categoryOf, c));
    }
  }

  /** The categories that received a permission, in dictionary order. */
  method ListCategories(categories: map<Category, seq<string>>, perms: seq<string>,
                        filing: string -> Option<Category>)
    returns (listing: seq<(Category, seq<string>)>)
    requires forall c :: c in categories && categories[c] == Members(perms, filing, c)
    ensures listing == NonEmptyCategories(AllCategories, perms, filing)
  {
    listing := [];
    for j := 0 to |AllCategories|
      invariant listing == NonEmptyCategories(AllCategories[..j], perms, filing)
    {
      var c := AllCategories[j];
      assert AllCategories[..j + 1][..j] == AllCategories[..j];
      if |categories[c]| > 0 {
        listing := listing + [(c, categories[c])];
      }
    }
    assert AllCategories[..|AllCategories|] == AllCategories;
  }

  /** The three combination checks, with the points they add. */
  method FlagCombinations(categories: map<Category, seq<string>>, perms: seq<string>,
                          filing: string -> Option<Category>)
    returns (combinations: seq<Combination>, bonus: int)
    requires forall c :: c in categories && categories[c] == Members(perms, filing, c)
    ensures combinations == Combinations(perms, filing)
    ensures bonus == TotalPoints(combinations)
  {
    var admin, network := |categories[DeviceAdmin]| > 0, |categories[Network]| > 0;
    var accessibility, system := |categories[Accessibility]| > 0, |categories[System]| > 0;
    var sms := |categories[Sms]| > 0;
    combinations, bonus := Flag(admin, network, accessibility, system, sms);
  }

  method Flag(admin: bool, network: bool, accessibility: bool, system: bool, sms: bool)
    returns (combinations: seq<Combination>, bonus: int)
    ensures combinations == CombinationsOf(admin, network, accessibility, system, sms)
    ensures bonus == TotalPoints(combinations)
  {
    combinations, bonus := [], 0;
    if admin && network {
      TotalPointsAppend(combinations, [DeviceAdminAndNetwork]);
      combinations := combinations + [DeviceAdminAndNetwork];
      bonus := bonus + 10;
    }
    if accessibility && system {
      TotalPointsAppend(combinations, [AccessibilityAndSystem]);
      combinations := combinations + [AccessibilityAndSystem];
      bonus := bonus + 8;
    }
    if sms && network {
      TotalPointsAppend(combinations, [SmsAndNetwork]);
      combinations := combinations + [SmsAndNetwork];
      bonus := bonus + 6;
    }
  }

  /** A permission contributes at most 5 points, so the per-permission part of the score is
      at most five times the number of permissions. */
  lemma {:induction false} PermissionPointsBound(perms: seq<string>)
    ensures 3 * |Filter(perms, IsDangerous)| + 5 * |Filter(perms, IsMalicious)| <= 5 * |perms|
  {
    if |perms| > 0 {
      PermissionPointsBound(perms[1..]);
      NotBoth(perms[0]);
    }
  }

  // ---------------------------------------------------------------------------------
  // Obfuscation and protection scores

  function Min(a: int, b: int): int {
    if a <= b then a else b
  }

  /** Points for the average number of methods per class: 20 below 2, 10 below 5, none
      without classes. The quotient is compared by cross-multiplying, which is exact for
      whole numbers. */
  function RatioPoints(totalClasses: nat, totalMethods: nat): (r: nat)
    ensures totalClasses == 0 ==> r == 0
    ensures totalClasses > 0 && totalMethods < 2 * totalClasses ==> r == 20
    ensures totalClasses > 0 && 2 * totalClasses <= totalMethods < 5 * totalClasses ==> r == 10
    ensures 5 * totalClasses <= totalMethods ==> r == 0
  {
    if totalClasses > 0 then
      if totalMethods < 2 * totalClasses then 20
      else if totalMethods < 5 * totalClasses then 10
      else 0
    else 0
  }

  /** Points for the number of classes: 15 above 1000, 10 above 500. */
  function SizePoints(totalClasses: nat): (r: nat)
    ensures r <= 15
  {
    if totalClasses > 1000 then 15 else if totalClasses > 500 then 10 else 0
  }

  /** `CodeStructureScanner._calculate_obfuscation_score`: ratio and size points plus 5 per
      reflection use, 10 per dynamic-loading use and 3 per native method, capped at 100. */
  function ObfuscationScore(totalClasses: nat, totalMethods: nat,
                            reflection: nat, dynamicLoading: nat, nativeMethods: nat): (r: nat)
    ensures r <= 100
    ensures r < 100 ==> r == RatioPoints(totalClasses, totalMethods) + SizePoints(totalClasses)
                             + 5 * reflection + 10 * dynamicLoading + 3 * nativeMethods
    ensures r == 100 <==> RatioPoints(totalClasses, totalMethods) + SizePoints(totalClasses)
                          + 5 * reflection + 10 * dynamicLoading + 3 * nativeMethods >= 100
    ensures reflection >= 20 || dynamicLoading >= 10 || nativeMethods >= 34 ==> r == 100
  {
    Min(RatioPoints(totalClasses, totalMethods) + SizePoints(totalClasses)
        + 5 * reflection + 10 * dynamicLoading + 3 * nativeMethods, 100)
  }

  /** More reflection, dynamic-loading or native indicators never lower the score. */
  lemma ObfuscationMonotone(totalClasses: nat, totalMethods: nat,
                            r1: nat, d1: nat, n1: nat, r2: nat, d2: nat, n2: nat)
    requires r1 <= r2 && d1 <= d2 && n1 <= n2
    ensures ObfuscationScore(totalClasses, totalMethods, r1, d1, n1)
            <= ObfuscationScore(totalClasses, totalMethods, r2, d2, n2)
  {
  }

  /** The indicator lists an `AntiAnalysisDetector` run fills, by length. */
  datatype Detections = Detections(
    antiDebug: nat, antiEmulator: nat, rootDetection: nat,
    integrityChecks: nat, obfuscationTechniques: nat, packingIndicators: nat)

  /** The weighted sum of the detections before the cap. */
  function ProtectionPoints(d: Detections): nat {
    15 * d.antiDebug + 10 * d.antiEmulator + 20 * d.rootDetection
    + 10 * d.integrityChecks + 5 * d.obfuscationTechniques + 25 * d.packingIndicators
  }

  /** `AntiAnalysisDetector._calculate_protection_score`: the weighted sum capped at 100. */
  function ProtectionScore(d: Detections): (r: nat)
    ensures r <= 100
    ensures r == 100 <==> ProtectionPoints(d) >= 100
    ensures r < 100 ==> r == ProtectionPoints(d)
  {
    Min(ProtectionPoints(d), 100)
  }

  predicate DetectionsAtMost(d1: Detections, d2: Detections) {
    && d1.antiDebug <= d2.antiDebug && d1.antiEmulator <= d2.antiEmulator
    && d1.rootDetection <= d2.rootDetection && d1.integrityChecks <= d2.integrityChecks
    && d1.obfuscationTechniques <= d2.obfuscationTechniques
    && d1.packingIndicators <= d2.packingIndicators
  }

  /** More detections never lower the protection score; four packing indicators alone
      reach the cap. */
  lemma ProtectionMonotone(d1: Detections, d2: Detections)
    requires DetectionsAtMost(d1, d2)
    ensures ProtectionScore(d1) <= ProtectionScore(d2)
    ensures d2.packingIndicators >= 4 ==> ProtectionScore(d2) == 100
  {
  }

  // ---------------------------------------------------------------------------------
  // Overall risk assessment

  /** The injection difficulty, reported as "LOW", "MEDIUM" or "HIGH". */
  datatype Difficulty = LowDifficulty | MediumDifficulty | HighDifficulty

  const MaliciousFactor := "Malicious permissions detected"
  const ObfuscationFactor := "High code obfuscation"
  const ProtectionFactor := "Advanced protection mechanisms"

  /** The position of a factor in the order the assessment lists them. */
  function FactorRank(factor: string): nat {
    if factor == MaliciousFactor then 0 else if factor == ObfuscationFactor then 1 else 2
  }

  datatype RiskAssessment = RiskAssessment(
    overallRiskScore: int,
    riskLevel: RiskLevel,
    riskFactors: seq<string>,
    securityConcerns: seq<string>,
    injectionDifficulty: Difficulty)

  /** The uncapped assessment score: the permission score plus a fifth of the obfuscation
      score and a quarter of the protection score, each rounded down. */
  function AssessmentPoints(permissionScore: int, obfuscation: int, protection: int): int {
    permissionScore + obfuscation / 5 + protection / 4
  }

  /** `APKAnalysisEngine._generate_risk_assessment`, given the three sub-scores (0 where
      the analysis is missing) and whether any malicious permission was found. */
  function AssessRisk(permissionScore: int, hasMalicious: bool, obfuscation: int, protection: int)
    : (r: RiskAssessment)
    ensures var score := AssessmentPoints(permissionScore, obfuscation, protection);
      && r.overallRiskScore <= 100
      && (score <= 100 ==> r.overallRiskScore == score)
      && r.riskLevel == LevelOf(score, 70, 50, 30, 10)
    ensures AssessmentPoints(permissionScore, obfuscation, protection) > 100 ==> r.overallRiskScore == 100
    ensures MaliciousFactor in r.riskFactors <==> hasMalicious
    ensures ObfuscationFactor in r.riskFactors <==> obfuscation > 50
    ensures ProtectionFactor in r.riskFactors <==> protection > 30
    ensures r.injectionDifficulty == HighDifficulty <==> protection > 30
    ensures r.injectionDifficulty == MediumDifficulty <==> 10 < protection <= 30
    ensures r.injectionDifficulty == LowDifficulty <==> protection <= 10
    ensures |r.riskFactors| == (if hasMalicious then 1 else 0) + (if obfuscation > 50 then 1 else 0)
                               + (if protection > 30 then 1 else 0)
    ensures r.securityConcerns == []
    ensures forall i, j :: 0 <= i < j < |r.riskFactors| ==>
              FactorRank(r.riskFactors[i]) < FactorRank(r.riskFactors[j])
  {
    var score := AssessmentPoints(permissionScore, obfuscation, protection);
    var factors :=
      (if hasMalicious then [MaliciousFactor] else [])
      + (if obfuscation > 50 then [ObfuscationFactor] else [])
      + (if protection > 30 then [ProtectionFactor] else []);
    var difficulty :=
      if protection > 30 then HighDifficulty else if protection > 10 then MediumDifficulty else LowDifficulty;
    RiskAssessment(Min(score, 100), LevelOf(score, 70, 50, 30, 10), factors, [], difficulty)
  }

  /** Raising any sub-score never lowers the overall score or the level. */
  lemma AssessRiskMonotone(p1: int, o1: int, t1: int, p2: int, o2: int, t2: int, malicious: bool)
    requires p1 <= p2 && o1 <= o2 && t1 <= t2
    ensures AssessRisk(p1, malicious, o1, t1).overallRiskScore
            <= AssessRisk(p2, malicious, o2, t2).overallRiskScore
    ensures LevelRank(AssessRisk(p1, malicious, o1, t1).riskLevel)
            <= LevelRank(AssessRisk(p2, malicious, o2, t2).riskLevel)
  {
    LevelMonotone(AssessmentPoints(p1, o1, t1), AssessmentPoints(p2, o2, t2), 70, 50, 30, 10);
  }


  // ---------------------------------------------------------------------------------
  // Permissions in `aapt dump` output

  /** The text before the first double quote, when a closing quote follows it. */
  function QuotedValue(s: string): (r: Option<string>)
    ensures r.Some? ==> && |r.value| < |s| && s[|r.value|] == '"'
                        && r.value == s[..|r.value|]
                        && forall k :: 0 <= k < |r.value| ==> r.value[k] != '"'
    ensures r.None? ==> forall k :: 0 <= k < |s| ==> s[k] != '"'
  {
    if |s| == 0 then None
    else if s[0] == '"' then Some("")
    else match QuotedValue(s[1..])
      case None => None
      case Some(v) => Some([s[0]] + v)
  }

  const NameOpen := "name=\""
  const UsesPermission := "uses-permission"

  /** The value of `name="value"` starting at position `p`, when that text is there and
      the value is not empty. */
  function NameValueAt(line: string, p: nat): (r: Option<string>)
    requires p <= |line|
    ensures r.Some? ==> && StartsWith(line[p..], NameOpen + r.value + "\"")
                        && |r.value| > 0 && '"' !in r.value
  {
    if StartsWith(line[p..], NameOpen) then
      match QuotedValue(line[p + |NameOpen|..])
      case Some(v) =>
        if |v| > 0 then
          assert line[p..][..|NameOpen| + |v| + 1] == NameOpen + v + "\"";
          Some(v)
        else None
      case None => None
    else None
  }

  /** No `name="value"` starts anywhere in `line[lo..hi]`. */
  predicate NoNameValueIn(line: string, lo: nat, hi: nat)
    requires lo <= hi <= |line|
  {
    forall q :: lo <= q < hi ==> NameValueAt(line, q).None?
  }

  /** The `name="value"` that starts furthest right in `line[lo..hi]`: the greedy `.*` of
      the pattern backs off from the end of the line to the last place it matches. */
  function LastNameValue(line: string, lo: nat, hi: nat): (r: Option<string>)
    requires lo <= hi <= |line|
    ensures r.Some? ==> exists q :: lo <= q < hi && NameValueAt(line, q) == r
                                    && NoNameValueIn(line, q + 1, hi)
    ensures r.None? ==> NoNameValueIn(line, lo, hi)
    decreases hi - lo
  {
    if hi == lo then None
    else
      match NameValueAt(line, hi - 1)
      case Some(v) => Some(v)
      case None =>
        var r := LastNameValue(line, lo, hi - 1);
        assert r.Some? ==> exists q :: lo <= q < hi && NameValueAt(line, q) == r
                                       && NoNameValueIn(line, q + 1, hi) by {
          if r.Some? {
            var q :| lo <= q < hi - 1 && NameValueAt(line, q) == r && NoNameValueIn(line, q + 1, hi - 1);
            NoNameValueExtend(line, q + 1, hi);
          }
        }
        assert r.None? ==> NoNameValueIn(line, lo, hi) by {
          if r.None? { NoNameValueExtend(line, lo, hi); }
        }
        r
  }

  lemma NoNameValueExtend(line: string, lo: nat, hi: nat)
    requires lo < hi <= |line|
    requires NoNameValueIn(line, lo, hi - 1)
    requires NameValueAt(line, hi - 1).None?
    ensures NoNameValueIn(line, lo, hi)
  {
  }

  /** The first position at or after `from` where `sub` starts. */
  function FirstIndexOf(line: string, sub: string, from: nat): (r: Option<nat>)
    requires from <= |line|
    ensures r.Some? ==> from <= r.value <= |line| && StartsWith(line[r.value..], sub)
                        && forall q :: from <= q < r.value ==> !StartsWith(line[q..], sub)
    ensures r.None? ==> forall q :: from <= q <= |line| ==> !StartsWith(line[q..], sub)
    decreases |line| - from
  {
    if StartsWith(line[from..], sub) then Some(from)
    else if from == |line| then None
    else FirstIndexOf(line, sub, from + 1)
  }

  /** The permission the pattern `uses-permission.*name="([^"]+)"` finds on one line: the
      last non-empty `name` value after the first `uses-permission`, if any. */
  function PermissionOfLine(line: string): (r: Option<string>)
    ensures r.Some? ==> |r.value| > 0 && '"' !in r.value
  {
    match FirstIndexOf(line, UsesPermission, 0)
    case None => None
    case Some(i) => LastNameValue(line, i + |UsesPermission|, |line|)
  }

  /** The matches of the lines, in line order. */
  function PermissionsOfLines(lines: seq<string>): (r: seq<string>)
    ensures forall k :: 0 <= k < |r| ==> |r[k]| > 0 && '"' !in r[k]
  {
    if |lines| == 0 then []
    else (match PermissionOfLine(lines[0]) case Some(p) => [p] case None => [])
         + PermissionsOfLines(lines[1..])
  }

  /** A value is collected iff the pattern finds it on some line. */
  lemma {:induction false} PermissionsOfLinesMembers(lines: seq<string>)
    ensures forall p :: p in PermissionsOfLines(lines) <==>
      exists line :: line in lines && PermissionOfLine(line) == Some(p)
  {
    if |lines| > 0 {
      PermissionsOfLinesMembers(lines[1..]);
      forall line ensures line in lines <==> line == lines[0] || line in lines[1..] {
        if line in lines && line != lines[0] {
          var j :| 0 <= j < |lines| && lines[j] == line;
          assert lines[1..][j - 1] == line;
        }
      }
    }
  }

  /** The matches of the lines, each once, in order of first occurrence. */
  function DistinctPermissions(lines: seq<string>): (r: seq<string>)
    ensures NoDuplicates(r)
    ensures forall p :: p in r <==> exists line :: line in lines && PermissionOfLine(line) == Some(p)
  {
    var found := PermissionsOfLines(lines);
    PermissionsOfLinesMembers(lines);
    var r := Dedupe(found);
    assert forall p :: p in r <==> p in found by {
      forall p ensures p in r <==> p in found {
        if p in found {
          var k :| 0 <= k < |found| && found[k] == p;
        }
        if p in r {
          var k :| 0 <= k < |r| && r[k] == p;
        }
      }
    }
    r
  }

  /** The permission list of `_parse_aapt_output`: the matches of the output's lines,
      each once. */
  function ExtractPermissions(output: string): (r: seq<string>)
    ensures NoDuplicates(r)
    ensures forall k :: 0 <= k < |r| ==> |r[k]| > 0 && '"' !in r[k]
    ensures forall p :: p in r <==>
      exists line :: line in Split(output, '\n') && PermissionOfLine(line) == Some(p)
  {
    DistinctPermissions(Split(output, '\n'))
  }
}
