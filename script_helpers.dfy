/**
 * The computational helpers of the page script (script.js): the `uploadedFiles` list that
 * `addFile` and `removeFile` update in place, the platform-key mapping, the compliance
 * level, the first-match description and risk lookups, the fix suggestion, the scenario
 * table, the rules of `generateEnhancedRecommendations` and the preset application list.
 */
module ScriptHelpers {
  import opened Wrappers
  import opened Text
  import opened Manifest
  import ConfigParsing
  import Extractors
  import InfoCollection
  import EnhancedParsing
  import opened PermissionAnalysis

  // ---------------------------------------------------------------------------
  // The upload list
  // ---------------------------------------------------------------------------

  /** A selected `File`: only its name and size are read before the upload. */
  datatype UploadedFile = UploadedFile(name: string, size: nat)

  const AllowedTypes: seq<string> := [".plist", ".xml", ".json"]

  /** `'.' + name.split('.').pop().toLowerCase()`. */
  function DottedExtension(name: string): string {
    "." + ConfigParsing.FileExtension(name)
  }

  predicate AllowedFile(name: string) {
    DottedExtension(name) in AllowedTypes
  }

  /** The accepted files are exactly those the parser's own extension dispatch handles. */
  lemma AllowedFileExtensions(name: string)
    ensures AllowedFile(name) <==> ConfigParsing.FileExtension(name) in {"plist", "xml", "json"}
  {
    var e := ConfigParsing.FileExtension(name);
    var p, x, j := "." + e == ".plist", "." + e == ".xml", "." + e == ".json";
    assert AllowedFile(name) == (p || x || j);
    assert p == (e == "plist") by {
      DottedLiteral(e, ".plist");
      assert ".plist"[1..] == "plist";
    }
    assert x == (e == "xml") by {
      DottedLiteral(e, ".xml");
      assert ".xml"[1..] == "xml";
    }
    assert j == (e == "json") by {
      DottedLiteral(e, ".json");
      assert ".json"[1..] == "json";
    }
  }

  lemma DottedLiteral(e: string, t: string)
    requires |t| > 0 && t[0] == '.'
    ensures ("." + e == t) == (e == t[1..])
  {
    if "." + e == t {
      assert e == ("." + e)[1..];
    }
    if e == t[1..] {
      assert t == [t[0]] + t[1..];
    }
  }

  /** A name without any dot is its own extension, so a file called `plist` is accepted. */
  lemma DotlessExtension(name: string)
    requires '.' !in name
    ensures ConfigParsing.FileExtension(name) == ToLower(name)
  {
    assert AfterLastDot(name) == name;
  }

  /** No two files in the list share a name. */
  predicate UniqueNames(files: seq<UploadedFile>) {
    forall i, j :: 0 <= i < j < |files| ==> files[i].name != files[j].name
  }

  /** `files.findIndex(f => f.name === name)`. */
  function FindByName(files: seq<UploadedFile>, name: string): (r: int)
    ensures -1 <= r < |files|
    ensures r >= 0 ==> files[r].name == name && forall j :: 0 <= j < r ==> files[j].name != name
    ensures r == -1 <==> forall j :: 0 <= j < |files| ==> files[j].name != name
  {
    if |files| == 0 then -1
    else if files[0].name == name then 0
    else
      var r := FindByName(files[1..], name);
      if r == -1 then -1 else r + 1
  }

  /** Which of its three notifications `addFile` shows. */
  datatype AddOutcome = Rejected | Updated | Added

  function AddOutcomeOf(files: seq<UploadedFile>, f: UploadedFile): AddOutcome {
    if !AllowedFile(f.name) then Rejected
    else if FindByName(files, f.name) != -1 then Updated
    else Added
  }

  /**
   * The list `addFile` leaves behind. A refused extension leaves it as it was; a file
   * with a name already in the list takes the place of the first file of that name;
   * any other file goes at the end. The list grows by at most one and keeps its names
   * unique.
   */
  function AddedFiles(files: seq<UploadedFile>, f: UploadedFile): (r: seq<UploadedFile>)
    ensures !AllowedFile(f.name) ==> r == files
    ensures AllowedFile(f.name) ==> f in r
    ensures |files| <= |r| <= |files| + 1
    ensures AllowedFile(f.name) && (exists k :: 0 <= k < |files| && files[k].name == f.name) ==>
              |r| == |files|
              && exists k :: 0 <= k < |files| && files[k].name == f.name && r[k] == f
                             && (forall j :: 0 <= j < k ==> files[j].name != f.name)
                             && (forall j :: 0 <= j < |files| && j != k ==> r[j] == files[j])
    ensures AllowedFile(f.name) && (forall k :: 0 <= k < |files| ==> files[k].name != f.name) ==>
              |r| == |files| + 1 && r[..|files|] == files && r[|files|] == f
    ensures UniqueNames(files) ==> UniqueNames(r)
  {
    if !AllowedFile(f.name) then files
    else
      var k := FindByName(files, f.name);
      if k != -1 then
        var r := files[k := f];
        assert forall j :: 0 <= j < |r| ==> r[j].name == files[j].name;
        assert files[k].name == f.name && r[k] == f;
        r
      else
        assert (files + [f])[..|files|] == files;
        files + [f]
  }

  /** `splice`'s reading of a start position: a negative one counts from the end, and both ends clamp. */
  function SpliceStart(len: nat, start: int): (k: nat)
    ensures k <= len
    ensures 0 <= start <= len ==> k == start
    ensures -(len as int) <= start < 0 ==> k == len + start
    ensures start < -(len as int) ==> k == 0
    ensures start > len ==> k == len
  {
    if start < 0 then (if len + start < 0 then 0 else len + start)
    else if start > len then len
    else start
  }

  /** The list without its element at `k`; all the others keep their order. */
  function RemoveAt(files: seq<UploadedFile>, k: nat): (r: seq<UploadedFile>)
    requires k < |files|
    ensures |r| == |files| - 1
    ensures forall j :: 0 <= j < k ==> r[j] == files[j]
    ensures forall j :: k <= j < |r| ==> r[j] == files[j + 1]
    ensures multiset(r) + multiset{files[k]} == multiset(files)
    ensures UniqueNames(files) ==> UniqueNames(r)
  {
    assert files == files[..k] + [files[k]] + files[k + 1..];
    files[..k] + files[k + 1..]
  }

  /** The list `uploadedFiles.splice(index, 1)` leaves behind. */
  function Removed(files: seq<UploadedFile>, index: int): (r: seq<UploadedFile>)
    ensures 0 <= index < |files| ==> r == RemoveAt(files, index)
    ensures -|files| <= index < 0 ==> r == RemoveAt(files, |files| + index)
    ensures index < -|files| && |files| > 0 ==> r == RemoveAt(files, 0)
    ensures index >= |files| ==> r == files
    ensures UniqueNames(files) ==> UniqueNames(r)
  {
    var k := SpliceStart(|files|, index);
    if k < |files| then RemoveAt(files, k) else files
  }

  /** The global `uploadedFiles` array. */
  class UploadList {
    var files: seq<UploadedFile>

    /** Every name appears in the list at most once. */
    ghost predicate Valid()
      reads this
    {
      UniqueNames(files)
    }

    constructor()
      ensures Valid() && files == []
    {
      files := [];
    }

    /** `addFile`: the outcome is the notification shown. */
    method AddFile(f: UploadedFile) returns (outcome: AddOutcome)
      modifies this
      ensures files == AddedFiles(old(files), f)
      ensures outcome == AddOutcomeOf(old(files), f)
      ensures old(Valid()) ==> Valid()
    {
      if !AllowedFile(f.name) {
        outcome := Rejected;
        return;
      }
      var existing := FindByName(files, f.name);
      if existing != -1 {
        files := files[existing := f];
        outcome := Updated;
      } else {
        files := files + [f];
        outcome := Added;
      }
    }

    /** `removeFile`. */
    method RemoveFile(index: int)
      modifies this
      ensures files == Removed(old(files), index)
      ensures old(Valid()) ==> Valid()
    {
      var k := SpliceStart(|files|, index);
      if k < |files| {
        files := files[..k] + files[k + 1..];
      }
    }
  }

  // ---------------------------------------------------------------------------
  // Platform key and compliance level
  // ---------------------------------------------------------------------------

  /** `getPlatformKey`, as written: any name outside its table falls back to `android`. */
  function PlatformKey(platformName: string): (key: string)
    ensures key in {"ios", "android", "windows", "harmonyos"}
    ensures key == "ios" <==> platformName in {"iOS", "macOS"}
    ensures key == "windows" <==> platformName == "Windows"
    ensures key == "harmonyos" <==> platformName == "鸿蒙OS"
    ensures key == "android" <==> platformName !in {"iOS", "macOS", "Windows", "鸿蒙OS"}
  {
    match platformName
    case "iOS" => "ios"
    case "macOS" => "ios"
    case "Android" => "android"
    case "Windows" => "windows"
    case "鸿蒙OS" => "harmonyos"
    case _ => "android"
  }

  /**
   * As written, an Info.plist whose text and name mark no Apple platform is
   * parsed with the platform `iOS/macOS`, which `getPlatformKey` sends to `android`; the
   * information-collection analysis then looks its iOS keys up among the Android
   * permissions and finds none, where the iOS patterns would have found the camera key.
   */
  lemma UnmarkedPlistKeyedAsAndroid(content: string, filename: string, perms: seq<Permission>)
    requires var c := ToLower(content);
             !Contains(c, "iphoneos") && !Contains(c, "iphone") && !Contains(c, "macosx")
             && !Contains(c, "macos") && !Contains(c, "appletvos") && !Contains(c, "watchos")
    requires !Contains(ToLower(filename), "ios") && !Contains(ToLower(filename), "macos")
    requires |perms| == 1 && perms[0].key == "NSCameraUsageDescription"
    ensures Extractors.PlistParse(content, filename).platform == "iOS/macOS"
    ensures PlatformKey(Extractors.PlistParse(content, filename).platform) == "android"
    ensures InfoCollection.ConfigCollections(Some(perms), "android") == []
    ensures |InfoCollection.ConfigCollections(Some(perms), "ios")| == 1
  {
    assert perms[..0] == [];
    var android := InfoCollection.ConfigPatterns("android");
    assert forall i :: 0 <= i < |android| ==> android[i].permission != perms[0].key;
    assert InfoCollection.FindPattern(android, perms[0].key) == None;
    assert InfoCollection.ConfigCollectionsOf(perms, android) == [];
    var ios := InfoCollection.ConfigPatterns("ios");
    assert ios[0].permission == perms[0].key;
    assert InfoCollection.FindPattern(ios, perms[0].key).Some?;
    assert |InfoCollection.ConfigCollectionsOf(perms, ios)| == 1;
  }

  /** Every platform name the Info.plist parser can report. */
  predicate ApplePlatform(platformName: string) {
    platformName in {"iOS", "macOS", "tvOS", "watchOS", "iOS/macOS"}
  }

  /** `getPlatformKey` with every Apple platform of the Info.plist parser keyed as `ios`. */
  function PlatformKeyCorrected(platformName: string): (key: string)
    ensures key in {"ios", "android", "windows", "harmonyos"}
    ensures key == "ios" <==> ApplePlatform(platformName)
    ensures !ApplePlatform(platformName) ==> key == PlatformKey(platformName)
  {
    if ApplePlatform(platformName) then "ios" else PlatformKey(platformName)
  }

  /** With the correction every parsed Info.plist is analysed with the iOS patterns. */
  lemma PlistKeyedAsIos(content: string, filename: string)
    ensures PlatformKeyCorrected(Extractors.PlistParse(content, filename).platform) == "ios"
  {
  }

  /** `getComplianceLevel`. */
  function ComplianceLevel(rate: int): (level: string)
    ensures level == "优秀" <==> rate >= 90
    ensures level == "良好" <==> 80 <= rate < 90
    ensures level == "一般" <==> 70 <= rate < 80
    ensures level == "较差" <==> 60 <= rate < 70
    ensures level == "不合规" <==> rate < 60
  {
    if rate >= 90 then "优秀"
    else if rate >= 80 then "良好"
    else if rate >= 70 then "一般"
    else if rate >= 60 then "较差"
    else "不合规"
  }

  /** The place of a level on the scale, from 不合规 (0) to 优秀 (4). */
  function LevelRank(level: string): nat {
    match level
    case "优秀" => 4
    case "良好" => 3
    case "一般" => 2
    case "较差" => 1
    case _ => 0
  }

  /** A higher rate never earns a lower level. */
  lemma ComplianceLevelMonotone(a: int, b: int)
    requires a <= b
    ensures LevelRank(ComplianceLevel(a)) <= LevelRank(ComplianceLevel(b))
  {
  }

  // ---------------------------------------------------------------------------
  // First-match lookups
  // ---------------------------------------------------------------------------

  /**
   * The first entry, in `Object.entries` order, whose key occurs in `text`; `None`
   * when no key does.
   */
  function FirstKeyIn<V>(table: seq<(string, V)>, text: string): (r: Option<nat>)
    ensures r.Some? ==> r.value < |table| && Contains(text, table[r.value].0)
                        && forall j :: 0 <= j < r.value ==> !Contains(text, table[j].0)
    ensures r.None? <==> forall j :: 0 <= j < |table| ==> !Contains(text, table[j].0)
  {
    if |table| == 0 then None
    else if Contains(text, table[0].0) then Some(0)
    else
      match FirstKeyIn(table[1..], text)
      case None => None
      case Some(i) => Some(i + 1)
  }

  /** The `for (const [key, v] of Object.entries(table))` scan with its early return. */
  method ScanTable<V>(table: seq<(string, V)>, text: string) returns (r: Option<nat>)
    ensures r == FirstKeyIn(table, text)
  {
    var i := 0;
    while i < |table|
      invariant 0 <= i <= |table|
      invariant forall j :: 0 <= j < i ==> !Contains(text, table[j].0)
    {
      if Contains(text, table[i].0) {
        r := Some(i);
        return;
      }
      i := i + 1;
    }
    r := None;
  }

  const DescriptionTable: seq<(string, string)> := [
    ("CAMERA", "访问设备摄像头，用于拍照、录像或扫描功能"),
    ("MICROPHONE", "访问设备麦克风，用于录音、语音通话或语音识别"),
    ("LOCATION", "获取设备位置信息，用于地图导航、位置服务或基于位置的功能"),
    ("CONTACTS", "访问通讯录信息，用于联系人管理或社交功能"),
    ("PHOTOS", "访问相册和图片，用于图片选择、编辑或分享功能"),
    ("STORAGE", "访问设备存储空间，用于文件读写或数据缓存"),
    ("PHONE", "访问电话功能，用于拨打电话或获取设备信息"),
    ("SMS", "访问短信功能，用于发送短信或验证码"),
    ("CALENDAR", "访问日历信息，用于日程管理或事件提醒"),
    ("BLUETOOTH", "访问蓝牙功能，用于设备连接或数据传输"),
    ("WIFI", "访问WiFi信息，用于网络连接或位置辅助定位"),
    ("BIOMETRIC", "访问生物识别功能，用于指纹或面部识别验证")
  ]

  const DefaultDescription: string := "该权限用于应用的特定功能，请查看应用说明了解详细用途"

  /** What `getPermissionDescription` returns for a permission name. */
  function DescriptionOf(permissionName: string): string {
    match FirstKeyIn(DescriptionTable, ToUpper(permissionName))
    case Some(i) => DescriptionTable[i].1
    case None => DefaultDescription
  }

  /**
   * The description of the first table key occurring in the upper-cased name, and the
   * default text exactly when no key occurs in it.
   */
  lemma DescriptionFacts(permissionName: string)
    ensures var u := ToUpper(permissionName);
            DescriptionOf(permissionName) == DefaultDescription <==>
              forall j :: 0 <= j < |DescriptionTable| ==> !Contains(u, DescriptionTable[j].0)
    ensures var u := ToUpper(permissionName);
            forall i :: 0 <= i < |DescriptionTable| && Contains(u, DescriptionTable[i].0)
                        && (forall j :: 0 <= j < i ==> !Contains(u, DescriptionTable[j].0)) ==>
                     DescriptionOf(permissionName) == DescriptionTable[i].1
  {
    var u := ToUpper(permissionName);
    assert forall j :: 0 <= j < |DescriptionTable| ==> DescriptionTable[j].1 != DefaultDescription;
    match FirstKeyIn(DescriptionTable, u)
    case None =>
    case Some(k) =>
      forall i | 0 <= i < |DescriptionTable| && Contains(u, DescriptionTable[i].0)
                 && (forall j :: 0 <= j < i ==> !Contains(u, DescriptionTable[j].0))
        ensures i == k
      {
        if i < k {
        } else if k < i {
        }
      }
  }

  /** `getPermissionDescription`. */
  method GetPermissionDescription(permissionName: string) returns (desc: string)
    ensures desc == DescriptionOf(permissionName)
  {
    var hit := ScanTable(DescriptionTable, ToUpper(permissionName));
    desc := if hit.Some? then DescriptionTable[hit.value].1 else DefaultDescription;
  }

  /** The two texts `riskLevels` holds for one key. */
  datatype RiskTexts = RiskTexts(configOnly: string, privacyOnly: string)

  const RiskTable: seq<(string, RiskTexts)> := [
    ("CAMERA", RiskTexts("未告知用户摄像头使用情况，可能涉及隐私泄露风险，属于严重合规违规",
                         "隐私条款提及摄像头权限但未实际申请，可能导致相关功能无法使用")),
    ("MICROPHONE", RiskTexts("未告知用户麦克风使用情况，存在录音隐私风险，属于严重合规违规",
                             "隐私条款提及麦克风权限但未实际申请，语音功能可能受限")),
    ("LOCATION", RiskTexts("未告知用户位置信息收集，存在位置隐私泄露风险，属于高风险违规",
                           "隐私条款提及位置权限但未实际申请，定位功能可能无法正常工作")),
    ("CONTACTS", RiskTexts("未告知用户通讯录访问，存在联系人信息泄露风险，属于严重违规",
                           "隐私条款提及通讯录权限但未实际申请，联系人相关功能受限"))
  ]

  const UnratedRisk: string := "需要进一步评估该权限的风险等级"
  const ConfigOnlyRisk: string := "该权限未在隐私条款中说明，存在合规风险，建议及时补充说明"
  const PrivacyOnlyRisk: string := "该权限在隐私条款中提及但未实际使用，建议确认是否需要该权限"

  /** `risks[status] || '需要进一步评估该权限的风险等级'` (the table has no `compliant` texts). */
  function RiskText(t: RiskTexts, status: Status): string {
    match status
    case ConfigOnly => t.configOnly
    case PrivacyOnly => t.privacyOnly
    case Compliant => UnratedRisk
  }

  /** What `getRiskAssessment` returns. */
  function RiskOf(permissionName: string, status: Status): string {
    match FirstKeyIn(RiskTable, ToUpper(permissionName))
    case Some(i) => RiskText(RiskTable[i].1, status)
    case None => if status == ConfigOnly then ConfigOnlyRisk else PrivacyOnlyRisk
  }

  /**
   * A name holding one of the four keys gets that key's text for its status (the first
   * key wins); any other name gets the fallback for `config_only`, and the `privacy_only`
   * fallback for every other status.
   */
  lemma RiskFacts(permissionName: string, status: Status)
    ensures var u := ToUpper(permissionName);
            (forall j :: 0 <= j < |RiskTable| ==> !Contains(u, RiskTable[j].0)) ==>
              RiskOf(permissionName, status) == (if status == ConfigOnly then ConfigOnlyRisk else PrivacyOnlyRisk)
    ensures var u := ToUpper(permissionName);
            forall i :: 0 <= i < |RiskTable| && Contains(u, RiskTable[i].0)
                        && (forall j :: 0 <= j < i ==> !Contains(u, RiskTable[j].0)) ==>
                     RiskOf(permissionName, status) == RiskText(RiskTable[i].1, status)
    ensures (status == Compliant && exists j :: 0 <= j < |RiskTable| && Contains(ToUpper(permissionName), RiskTable[j].0)) ==>
              RiskOf(permissionName, status) == UnratedRisk
  {
    var u := ToUpper(permissionName);
    match FirstKeyIn(RiskTable, u)
    case None =>
    case Some(k) =>
      forall i | 0 <= i < |RiskTable| && Contains(u, RiskTable[i].0)
                 && (forall j :: 0 <= j < i ==> !Contains(u, RiskTable[j].0))
        ensures i == k
      {
        if i < k {
        } else if k < i {
        }
      }
  }

  /** `getRiskAssessment`. */
  method GetRiskAssessment(permissionName: string, status: Status) returns (risk: string)
    ensures risk == RiskOf(permissionName, status)
  {
    var hit := ScanTable(RiskTable, ToUpper(permissionName));
    if hit.Some? {
      risk := RiskText(RiskTable[hit.value].1, status);
    } else if status == ConfigOnly {
      risk := ConfigOnlyRisk;
    } else {
      risk := PrivacyOnlyRisk;
    }
  }

  const AddNoticePrefix: string := "在隐私条款中添加关于\""
  const ConfirmPrefix: string := "确认是否需要\""

  /**
   * `getFixSuggestion`: a `config_only` permission is told to add a notice to the policy,
   * any other to confirm the need; either way the suggestion quotes the permission name.
   */
  function FixSuggestion(permissionName: string, status: Status): (s: string)
    ensures Contains(s, "\"" + permissionName + "\"")
    ensures status == ConfigOnly ==> StartsWith(s, AddNoticePrefix)
    ensures status != ConfigOnly ==> StartsWith(s, ConfirmPrefix)
  {
    var q := "\"" + permissionName + "\"";
    if status == ConfigOnly then
      var s := "在隐私条款中添加关于" + q + "权限的使用说明，包括使用目的、使用场景和数据处理方式";
      assert s[..|AddNoticePrefix|] == AddNoticePrefix;
      assert s[|AddNoticePrefix| - 1..|AddNoticePrefix| - 1 + |q|] == q;
      assert MatchesAt(s, q, |AddNoticePrefix| - 1);
      s
    else
      var s := "确认是否需要" + q + "权限，如需要请在配置文件中声明，如不需要请从隐私条款中移除相关描述";
      assert s[..|ConfirmPrefix|] == ConfirmPrefix;
      assert s[|ConfirmPrefix| - 1..|ConfirmPrefix| - 1 + |q|] == q;
      assert MatchesAt(s, q, |ConfirmPrefix| - 1);
      s
  }

  /** The two suggestions never coincide. */
  lemma FixSuggestionByStatus(permissionName: string)
    ensures FixSuggestion(permissionName, ConfigOnly) != FixSuggestion(permissionName, PrivacyOnly)
  {
    var a := FixSuggestion(permissionName, ConfigOnly);
    var b := FixSuggestion(permissionName, PrivacyOnly);
    assert a[0] != b[0];
  }

  // ---------------------------------------------------------------------------
  // Scenarios
  // ---------------------------------------------------------------------------

  /** The script's own `inferScenarios` table, a superset of the enhanced parser's. */
  function InferScenarios(kind: string): (r: seq<string>)
    ensures |r| > 0
    ensures (kind !in {"camera", "microphone", "location", "contacts", "photos", "storage", "phone", "sms",
                       "calendar", "network", "bluetooth", "health", "biometric", "tracking",
                       "media", "motion", "reminders", "speech"}) ==> r == ["功能使用"]
  {
    match kind
    case "camera" => ["拍照录像", "扫码", "视频通话"]
    case "microphone" => ["语音消息", "语音通话", "语音识别"]
    case "location" => ["位置分享", "地图导航", "附近推荐"]
    case "contacts" => ["添加好友", "通讯录同步"]
    case "photos" => ["图片分享", "头像设置", "相册访问"]
    case "storage" => ["文件保存", "数据备份", "离线缓存"]
    case "phone" => ["拨打电话", "获取设备信息"]
    case "sms" => ["短信验证", "消息发送"]
    case "calendar" => ["日程提醒", "活动创建"]
    case "network" => ["数据同步", "内容加载", "在线服务"]
    case "bluetooth" => ["设备连接", "数据传输"]
    case "health" => ["健康监测", "运动记录"]
    case "biometric" => ["指纹登录", "面容识别", "安全验证"]
    case "tracking" => ["广告追踪", "数据分析"]
    case "media" => ["音乐播放", "媒体访问"]
    case "motion" => ["运动记录", "健身追踪"]
    case "reminders" => ["提醒管理", "待办事项"]
    case "speech" => ["语音识别", "听写输入"]
    case _ => ["功能使用"]
  }

  /**
   * The script and the enhanced parser agree on every type except the four only the
   * script knows, where the parser falls back to `['功能使用']`.
   */
  lemma ScenarioTablesAgree(kind: string)
    ensures kind !in {"media", "motion", "reminders", "speech"} ==>
              InferScenarios(kind) == EnhancedParsing.InferScenarios(kind)
    ensures kind in {"media", "motion", "reminders", "speech"} ==>
              EnhancedParsing.InferScenarios(kind) == ["功能使用"] && InferScenarios(kind) != ["功能使用"]
  {
  }

  // ---------------------------------------------------------------------------
  // Enhanced recommendations
  // ---------------------------------------------------------------------------

  /** One recommendation object of `generateEnhancedRecommendations`, before it becomes HTML. */
  datatype EnhancedAdvice = EnhancedAdvice(
    kind: string, priority: string, title: string, content: string, items: seq<string>,
    actionRequired: bool, estimatedTime: string, impact: string)

  const ImprovementSteps: seq<string> := ["建立权限审核流程", "定期进行合规检查", "完善隐私条款模板", "加强开发团队培训"]

  function Min(a: int, b: int): int {
    if a < b then a else b
  }

  function ErrorPart(ps: seq<ComplianceResult>): seq<EnhancedAdvice> {
    var c := WithStatus(ps, ConfigOnly);
    if |c| > 0 then
      [EnhancedAdvice("error", "high", "🚨 紧急：严重合规违规需立即修复",
         "发现 " + NatToString(|c|) + " 个权限存在严重合规违规问题。这些权限已在配置文件中声明但未在隐私条款中告知用户，违反了数据保护法规要求。",
         Names(c), true, "1-2个工作日", "高风险 - 可能面临监管处罚")]
    else []
  }

  function WarningPart(ps: seq<ComplianceResult>): seq<EnhancedAdvice> {
    var c := WithStatus(ps, PrivacyOnly);
    if |c| > 0 then
      [EnhancedAdvice("warning", "medium", "⚠️ 功能性问题需要关注",
         "发现 " + NatToString(|c|) + " 个权限在隐私条款中提及但未在配置文件中声明，可能导致相关功能无法正常使用。",
         Names(c), false, "0.5-1个工作日", "中风险 - 影响用户体验")]
    else []
  }

  function SuccessPart(ps: seq<ComplianceResult>): seq<EnhancedAdvice> {
    var c := WithStatus(ps, Compliant);
    if |c| > 0 then
      [EnhancedAdvice("success", "low", "✅ 合规表现良好",
         NatToString(|c|) + " 个权限完全合规，配置文件与隐私条款保持一致，符合数据保护要求。",
         Names(c)[..Min(5, |c|)], false, "无需处理", "无风险 - 继续保持")]
    else []
  }

  /**
   * The improvement entry. With no permissions the rate is `Math.round(NaN)`, which is
   * not below 80, so the entry is left out.
   */
  function ImprovementPart(ps: seq<ComplianceResult>): seq<EnhancedAdvice> {
    if |ps| > 0 && RoundPercent(|WithStatus(ps, Compliant)|, |ps|) < 80 then
      [ImprovementAdvice(RoundPercent(|WithStatus(ps, Compliant)|, |ps|))]
    else []
  }

  /** The `info` entry that reports the rounded compliance rate. */
  function ImprovementAdvice(rate: nat): (a: EnhancedAdvice)
    ensures a.kind == "info" && a.items == ImprovementSteps
  {
    EnhancedAdvice("info", "medium", "📋 整体改进建议",
      "当前合规率为 " + NatToString(rate) + "%，建议建立权限管理流程，确保配置文件与隐私条款的同步更新。",
      ImprovementSteps, true, "1-2周", "长期收益 - 提升合规管理")
  }

  /** The recommendation objects of `generateEnhancedRecommendations`, in the order it pushes them. */
  function EnhancedRecommendations(ps: seq<ComplianceResult>): seq<EnhancedAdvice> {
    ErrorPart(ps) + WarningPart(ps) + SuccessPart(ps) + ImprovementPart(ps)
  }

  predicate HasStatus(ps: seq<ComplianceResult>, s: Status) {
    exists j :: 0 <= j < |ps| && ps[j].status == s
  }

  /** The results with a status are exactly those of `ps` with that status. */
  lemma {:induction false} WithStatusMembers(ps: seq<ComplianceResult>, s: Status)
    ensures forall x :: x in WithStatus(ps, s) <==> x in ps && x.status == s
  {
    if |ps| > 0 {
      WithStatusMembers(ps[..|ps| - 1], s);
      assert ps == ps[..|ps| - 1] + [ps[|ps| - 1]];
    }
  }

  lemma NonEmptyWithStatus(ps: seq<ComplianceResult>, s: Status)
    ensures |WithStatus(ps, s)| > 0 <==> HasStatus(ps, s)
  {
    WithStatusMembers(ps, s);
    var w := WithStatus(ps, s);
    if |w| > 0 {
      assert w[0] in ps;
      var j :| 0 <= j < |ps| && ps[j] == w[0];
    }
    if HasStatus(ps, s) {
      var j :| 0 <= j < |ps| && ps[j].status == s;
      assert ps[j] in w;
    }
  }

  function Kinds(recs: seq<EnhancedAdvice>): seq<string> {
    seq(|recs|, i requires 0 <= i < |recs| => recs[i].kind)
  }

  lemma {:induction false} KindsAppend(a: seq<EnhancedAdvice>, b: seq<EnhancedAdvice>)
    ensures Kinds(a + b) == Kinds(a) + Kinds(b)
  {
    assert forall i :: 0 <= i < |a| ==> (a + b)[i] == a[i];
    assert forall i :: 0 <= i < |b| ==> (a + b)[|a| + i] == b[i];
  }

  lemma ErrorPartFacts(ps: seq<ComplianceResult>)
    ensures Kinds(ErrorPart(ps)) == if HasStatus(ps, ConfigOnly) then ["error"] else []
    ensures forall r :: r in ErrorPart(ps) ==>
              r.kind == "error" && r.priority == "high" && r.items == Names(WithStatus(ps, ConfigOnly))
  {
    NonEmptyWithStatus(ps, ConfigOnly);
  }

  lemma WarningPartFacts(ps: seq<ComplianceResult>)
    ensures Kinds(WarningPart(ps)) == if HasStatus(ps, PrivacyOnly) then ["warning"] else []
    ensures forall r :: r in WarningPart(ps) ==>
              r.kind == "warning" && r.priority == "medium" && r.items == Names(WithStatus(ps, PrivacyOnly))
  {
    NonEmptyWithStatus(ps, PrivacyOnly);
  }

  lemma SuccessPartFacts(ps: seq<ComplianceResult>)
    ensures Kinds(SuccessPart(ps)) == if HasStatus(ps, Compliant) then ["success"] else []
    ensures forall r :: r in SuccessPart(ps) ==>
              r.kind == "success" && r.priority == "low" && |r.items| <= 5
              && r.items == Names(WithStatus(ps, Compliant))[..Min(5, |WithStatus(ps, Compliant)|)]
  {
    NonEmptyWithStatus(ps, Compliant);
    CountStatusPartition(ps);
  }

  lemma ImprovementPartFacts(ps: seq<ComplianceResult>)
    ensures Kinds(ImprovementPart(ps)) ==
              if |ps| > 0 && RoundPercent(CountStatus(ps, Compliant), |ps|) < 80 then ["info"] else []
  {
    CountStatusPartition(ps);
  }

  /** The improvement entry, when present, is of kind `info` and lists the fixed steps. */
  lemma ImprovementPartEntries(ps: seq<ComplianceResult>)
    ensures forall r :: r in ImprovementPart(ps) ==> r.kind == "info" && r.items == ImprovementSteps
  {
  }

  /**
   * The rules: an `error` entry exactly when some permission is `config_only`, a
   * `warning` entry exactly when some is `privacy_only`, a `success` entry exactly when
   * some is `compliant`, and an `info` entry exactly when there are permissions and the
   * rounded rate is below 80 — in that order.
   */
  lemma EnhancedRecommendationsFacts(ps: seq<ComplianceResult>)
    ensures Kinds(EnhancedRecommendations(ps)) ==
              (if HasStatus(ps, ConfigOnly) then ["error"] else [])
              + (if HasStatus(ps, PrivacyOnly) then ["warning"] else [])
              + (if HasStatus(ps, Compliant) then ["success"] else [])
              + (if |ps| > 0 && RoundPercent(CountStatus(ps, Compliant), |ps|) < 80 then ["info"] else [])
  {
    var e, w, s, m := ErrorPart(ps), WarningPart(ps), SuccessPart(ps), ImprovementPart(ps);
    ErrorPartFacts(ps);
    WarningPartFacts(ps);
    SuccessPartFacts(ps);
    ImprovementPartFacts(ps);
    KindsAppend(e, w);
    KindsAppend(e + w, s);
    KindsAppend(e + w + s, m);
  }

  /** Four lists of entries, each of one kind, keep their kinds apart once concatenated. */
  lemma PartsInOrder(e: seq<EnhancedAdvice>, w: seq<EnhancedAdvice>, s: seq<EnhancedAdvice>, m: seq<EnhancedAdvice>,
                     errorItems: seq<string>, warningItems: seq<string>, successItems: seq<string>)
    requires forall r :: r in e ==> r.kind == "error" && r.priority == "high" && r.items == errorItems
    requires forall r :: r in w ==> r.kind == "warning" && r.priority == "medium" && r.items == warningItems
    requires forall r :: r in s ==> r.kind == "success" && r.priority == "low" && |r.items| <= 5 && r.items == successItems
    requires forall r :: r in m ==> r.kind == "info"
    ensures forall r :: r in e + w + s + m && r.kind == "error" ==> r.priority == "high" && r.items == errorItems
    ensures forall r :: r in e + w + s + m && r.kind == "warning" ==> r.priority == "medium" && r.items == warningItems
    ensures forall r :: r in e + w + s + m && r.kind == "success" ==>
              r.priority == "low" && |r.items| <= 5 && r.items == successItems
  {
  }

  /**
   * What each entry lists: the `error` (high) entry all `config_only` permissions, the
   * `warning` (medium) entry all `privacy_only` ones, and the `success` (low) entry the
   * first five `compliant` ones at most.
   */
  lemma EnhancedRecommendationItems(ps: seq<ComplianceResult>)
    ensures forall r :: r in EnhancedRecommendations(ps) && r.kind == "error" ==>
              r.priority == "high" && r.items == Names(WithStatus(ps, ConfigOnly))
    ensures forall r :: r in EnhancedRecommendations(ps) && r.kind == "warning" ==>
              r.priority == "medium" && r.items == Names(WithStatus(ps, PrivacyOnly))
    ensures forall r :: r in EnhancedRecommendations(ps) && r.kind == "success" ==>
              r.priority == "low" && |r.items| <= 5
              && r.items == Names(WithStatus(ps, Compliant))[..Min(5, |WithStatus(ps, Compliant)|)]
  {
    var e, w, s, m := ErrorPart(ps), WarningPart(ps), SuccessPart(ps), ImprovementPart(ps);
    ErrorPartFacts(ps);
    WarningPartFacts(ps);
    SuccessPartFacts(ps);
    ImprovementPartEntries(ps);
    PartsInOrder(e, w, s, m, Names(WithStatus(ps, ConfigOnly)), Names(WithStatus(ps, PrivacyOnly)),
                 Names(WithStatus(ps, Compliant))[..Min(5, |WithStatus(ps, Compliant)|)]);
  }

  /** No permissions give no recommendations; all-compliant ones give the single success entry. */
  lemma EnhancedRecommendationsEdges(ps: seq<ComplianceResult>)
    ensures |ps| == 0 ==> EnhancedRecommendations(ps) == []
    ensures |ps| > 0 && (forall j :: 0 <= j < |ps| ==> ps[j].status == Compliant) ==>
              Kinds(EnhancedRecommendations(ps)) == ["success"]
  {
    EnhancedRecommendationsFacts(ps);
    CountStatusPartition(ps);
    if |ps| > 0 && (forall j :: 0 <= j < |ps| ==> ps[j].status == Compliant) {
      NonEmptyWithStatus(ps, ConfigOnly);
      NonEmptyWithStatus(ps, PrivacyOnly);
      NonEmptyWithStatus(ps, Compliant);
      assert CountStatus(ps, Compliant) == |ps|;
      RoundPercentBounds(|ps|, |ps|);
    }
  }

  // ---------------------------------------------------------------------------
  // Preset application list
  // ---------------------------------------------------------------------------

  /** `appDatabase`: the list shown for every platform and the extra lists per platform key. */
  datatype AppDatabase = AppDatabase(all: seq<string>, byPlatform: map<string, seq<string>>)

  const PresetDatabase: AppDatabase := AppDatabase(
    ["微信", "抖音", "QQ", "支付宝", "淘宝", "京东", "美团", "饿了么", "滴滴出行", "高德地图",
     "百度地图", "网易云音乐", "QQ音乐", "酷狗音乐", "爱奇艺", "腾讯视频", "优酷", "哔哩哔哩",
     "知乎", "微博", "小红书", "今日头条", "快手", "拼多多", "唯品会", "苏宁易购", "携程",
     "去哪儿", "马蜂窝", "12306", "中国银行", "工商银行", "建设银行", "农业银行", "招商银行",
     "交通银行", "浦发银行", "民生银行", "光大银行", "中信银行", "平安银行", "华夏银行",
     "广发银行", "兴业银行", "邮储银行", "钉钉", "企业微信", "腾讯会议", "ZOOM", "WPS Office",
     "Microsoft Office", "Adobe Photoshop", "Adobe Illustrator", "Sketch", "Figma", "Chrome",
     "Safari", "Firefox", "Edge", "Opera", "QQ浏览器", "UC浏览器", "360浏览器", "搜狗浏览器",
     "Steam", "Epic Games", "腾讯游戏", "网易游戏", "王者荣耀", "和平精英", "原神", "英雄联盟",
     "DOTA2", "CS:GO", "Valorant", "Overwatch", "Apex Legends", "Fortnite", "PUBG", "Minecraft",
     "Roblox", "Among Us", "Fall Guys", "Rocket League", "FIFA", "NBA 2K", "Call of Duty",
     "Battlefield", "Grand Theft Auto", "Red Dead Redemption", "The Witcher", "Cyberpunk 2077",
     "Assassin's Creed", "Far Cry", "Watch Dogs", "Tom Clancy's", "Ubisoft Connect", "Origin",
     "Battle.net", "GOG Galaxy", "Discord", "Telegram", "WhatsApp", "Line", "Skype", "Slack"],
    map[
      "ios" := ["Safari", "App Store", "iTunes", "iMessage", "FaceTime", "Photos", "Camera", "Maps", "Weather", "Clock"],
      "macos" := ["Safari", "Finder", "Mail", "Calendar", "Photos", "iTunes", "QuickTime", "TextEdit", "Preview", "Terminal"],
      "android" := ["Chrome", "Gmail", "Google Maps", "YouTube", "Google Play", "Google Photos", "Google Drive",
                    "Google Docs", "Google Sheets", "Google Slides"],
      "windows" := ["Microsoft Edge", "Windows Media Player", "Paint", "Notepad", "Calculator", "Windows Store",
                    "Xbox", "Skype", "OneDrive", "Outlook"],
      "harmonyos" := ["华为浏览器", "华为应用市场", "华为音乐", "华为视频", "华为钱包", "华为健康", "华为天气",
                      "华为日历", "华为相机", "华为图库"]])

  /** The applications offered for a platform before de-duplication: `all`, then the platform's own. */
  function PlatformApps(db: AppDatabase, platform: string): seq<string> {
    if platform == "all" then db.all
    else db.all + (if platform in db.byPlatform then db.byPlatform[platform] else [])
  }

  /** The default order of `Array.prototype.sort` on strings: code unit by code unit, a prefix first. */
  predicate LexLess(a: string, b: string)
    decreases |a|
  {
    if |a| == 0 then |b| > 0
    else if |b| == 0 then false
    else if a[0] == b[0] then LexLess(a[1..], b[1..])
    else a[0] < b[0]
  }

  lemma {:induction false} LexLessIrreflexive(a: string)
    ensures !LexLess(a, a)
    decreases |a|
  {
    if |a| > 0 {
      LexLessIrreflexive(a[1..]);
    }
  }

  lemma {:induction false} LexLessTotal(a: string, b: string)
    requires a != b
    ensures LexLess(a, b) || LexLess(b, a)
    decreases |a|
  {
    if |a| > 0 && |b| > 0 && a[0] == b[0] {
      assert a == [a[0]] + a[1..] && b == [b[0]] + b[1..];
      LexLessTotal(a[1..], b[1..]);
    }
  }

  lemma {:induction false} LexLessTransitive(a: string, b: string, c: string)
    requires LexLess(a, b) && LexLess(b, c)
    ensures LexLess(a, c)
    decreases |a|
  {
    if |a| > 0 && |b| > 0 && |c| > 0 && a[0] == b[0] && b[0] == c[0] {
      LexLessTransitive(a[1..], b[1..], c[1..]);
    }
  }

  predicate StrictlySorted(xs: seq<string>) {
    forall i, j :: 0 <= i < j < |xs| ==> LexLess(xs[i], xs[j])
  }

  lemma BelowAll(x: string, xs: seq<string>)
    requires StrictlySorted(xs) && |xs| > 0 && LexLess(x, xs[0])
    ensures StrictlySorted([x] + xs)
  {
    forall j | 0 < j < |xs| ensures LexLess(x, xs[j]) {
      LexLessTransitive(x, xs[0], xs[j]);
    }
  }

  lemma AboveRest(x: string, xs: seq<string>, rest: seq<string>)
    requires StrictlySorted(xs) && |xs| > 0 && x != xs[0] && !LexLess(x, xs[0])
    requires StrictlySorted(rest) && forall y :: y in rest <==> y == x || y in xs[1..]
    ensures StrictlySorted([xs[0]] + rest)
  {
    LexLessTotal(x, xs[0]);
    forall y | y in rest ensures LexLess(xs[0], y) {
      if y != x {
        var j :| 0 <= j < |xs[1..]| && xs[1..][j] == y;
        assert xs[j + 1] == y;
      }
    }
    forall i, j | 0 <= i < j < |[xs[0]] + rest| ensures LexLess(([xs[0]] + rest)[i], ([xs[0]] + rest)[j]) {
      if i == 0 {
        assert ([xs[0]] + rest)[j] == rest[j - 1];
        assert rest[j - 1] in rest;
      }
    }
  }

  /** `x` in its place among the strictly sorted `xs`. */
  function InsertSorted(x: string, xs: seq<string>): (r: seq<string>)
    requires StrictlySorted(xs) && x !in xs
    ensures |r| == |xs| + 1
    ensures forall y :: y in r <==> y == x || y in xs
    ensures StrictlySorted(r)
  {
    if |xs| == 0 then [x]
    else if LexLess(x, xs[0]) then
      BelowAll(x, xs);
      [x] + xs
    else
      var rest := InsertSorted(x, xs[1..]);
      AboveRest(x, xs, rest);
      assert xs == [xs[0]] + xs[1..];
      [xs[0]] + rest
  }

  /** The strictly sorted arrangement of a list with no repeats. */
  function SortStrings(xs: seq<string>): (r: seq<string>)
    requires Distinct(xs)
    ensures |r| == |xs|
    ensures forall y :: y in r <==> y in xs
    ensures StrictlySorted(r)
  {
    if |xs| == 0 then []
    else
      var p := xs[..|xs| - 1];
      assert Distinct(p);
      assert xs == p + [xs[|xs| - 1]];
      InsertSorted(xs[|xs| - 1], SortStrings(p))
  }

  /**
   * `[...new Set(apps)].sort()` in `loadPresetAppList`: each offered application once,
   * in sort order; its length is the count the page shows.
   */
  function PresetAppList(db: AppDatabase, platform: string): (r: seq<string>)
    ensures StrictlySorted(r)
    ensures forall a :: a in r <==> a in PlatformApps(db, platform)
    ensures |r| == |Dedup(PlatformApps(db, platform))|
  {
    SortStrings(Dedup(PlatformApps(db, platform)))
  }

  /** A strictly sorted list is fixed by its elements, so the contract above determines the list. */
  lemma {:induction false} SortedByElements(a: seq<string>, b: seq<string>)
    requires StrictlySorted(a) && StrictlySorted(b)
    requires |a| == |b| && forall x :: x in a <==> x in b
    ensures a == b
    decreases |a|
  {
    if |a| > 0 {
      assert a[0] in b && |b| > 0;
      assert b[0] in a;
      if a[0] != b[0] {
        var k :| 0 <= k < |b| && b[k] == a[0];
        var m :| 0 <= m < |a| && a[m] == b[0];
        assert k > 0 && m > 0;
        assert LexLess(b[0], a[0]) && LexLess(a[0], b[0]);
        LexLessTransitive(a[0], b[0], a[0]);
        LexLessIrreflexive(a[0]);
      } else {
        forall x ensures x in a[1..] <==> x in b[1..] {
          if x in a[1..] {
            var i :| 0 <= i < |a[1..]| && a[1..][i] == x;
            assert LexLess(a[0], a[i + 1]);
            LexLessIrreflexive(x);
            assert x in b;
          }
          if x in b[1..] {
            var i :| 0 <= i < |b[1..]| && b[1..][i] == x;
            assert LexLess(b[0], b[i + 1]);
            LexLessIrreflexive(x);
            assert x in a;
          }
        }
        SortedByElements(a[1..], b[1..]);
        assert a == [a[0]] + a[1..] && b == [b[0]] + b[1..];
      }
    }
  }

  /**
   * A platform without its own list (and `all` itself) shows exactly the `all` list,
   * and every platform shows at least the applications of `all`.
   */
  lemma PresetPlatforms(db: AppDatabase, platform: string)
    ensures platform !in db.byPlatform ==> PresetAppList(db, platform) == PresetAppList(db, "all")
    ensures forall a :: a in PresetAppList(db, "all") ==> a in PresetAppList(db, platform)
  {
    if platform !in db.byPlatform && platform != "all" {
      assert db.all + [] == db.all;
    }
  }
}
