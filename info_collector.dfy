/**
 * `InfoCollectionAnalyzer` of info-collector.js: the personal-information kinds a privacy
 * text mentions (keyword search with context windows and a confidence score), the kinds
 * a configuration file's permissions imply, the reconciliation of the two lists and the
 * report built from it.
 */
module InfoCollection {
  import opened Wrappers
  import opened Text
  import opened Manifest
  import opened Keywords

  /** One `personalInfo` pattern: an information type, its keywords and its canonical scenario and purpose labels. */
  datatype InfoPattern = InfoPattern(infoType: string, keywords: seq<string>, scenarios: seq<string>, purposes: seq<string>)

  const PersonalInfo: seq<InfoPattern> := [
    InfoPattern("identity", ["姓名", "身份证", "护照", "驾驶证", "真实姓名", "实名", "name", "identity", "id card"],
                ["实名认证", "账户注册", "身份验证"], ["用户身份验证", "法律合规要求", "账户安全保障"]),
    InfoPattern("contact", ["手机号", "电话", "邮箱", "地址", "联系方式", "phone", "email", "address", "contact"],
                ["账户注册", "找回密码", "消息通知", "物流配送"], ["账户验证", "服务通知", "客户服务", "商品配送"]),
    InfoPattern("biometric", ["指纹", "面部", "声纹", "虹膜", "生物识别", "fingerprint", "face", "biometric"],
                ["身份认证", "设备解锁", "支付验证"], ["身份验证", "账户安全", "便捷登录"]),
    InfoPattern("location", ["位置", "地理", "定位", "GPS", "经纬度", "location", "coordinate"],
                ["地图导航", "附近服务", "位置分享", "广告推送"], ["提供位置服务", "个性化推荐", "安全防护"]),
    InfoPattern("device", ["设备信息", "硬件", "IMEI", "MAC", "设备ID", "device", "hardware"],
                ["设备识别", "安全验证", "统计分析"], ["设备管理", "安全防护", "服务优化"]),
    InfoPattern("network", ["IP地址", "网络", "浏览器", "操作系统", "IP", "browser", "OS"],
                ["网络连接", "服务访问", "安全检测"], ["服务提供", "安全防护", "用户体验优化"]),
    InfoPattern("usage", ["使用记录", "操作日志", "浏览历史", "搜索记录", "usage", "log", "history"],
                ["功能使用", "内容浏览", "搜索查询"], ["服务改进", "个性化推荐", "用户体验优化"]),
    InfoPattern("content", ["照片", "视频", "音频", "文件", "聊天记录", "photo", "video", "audio", "file", "message"],
                ["内容分享", "云端存储", "社交互动"], ["内容服务", "数据备份", "社交功能"])
  ]

  /** One `collectionMethods` category (`category` holds the category key) and its keywords. */
  datatype MethodRow = MethodRow(category: string, keywords: seq<string>)

  const CollectionMethods: seq<MethodRow> := [
    MethodRow("automatic", ["自动收集", "系统获取", "设备读取", "automatically", "system"]),
    MethodRow("manual", ["用户输入", "手动填写", "主动提供", "manually", "input"]),
    MethodRow("thirdParty", ["第三方", "合作伙伴", "外部服务", "third party", "partner"]),
    MethodRow("sensor", ["传感器", "摄像头", "麦克风", "sensor", "camera", "microphone"]),
    MethodRow("cookie", ["Cookie", "本地存储", "缓存", "cache", "storage"])
  ]

  /** One `configPatterns` entry: the permission key it matches and what it implies (`category` holds `method`). */
  datatype ConfigPattern = ConfigPattern(permission: string, infoType: string, scenario: string, category: string)

  /** `configPatterns[platform] || {}`, in declaration order. */
  function ConfigPatterns(platform: string): seq<ConfigPattern> {
    match platform
    case "ios" => [
      ConfigPattern("NSCameraUsageDescription", "biometric", "拍照录像", "sensor"),
      ConfigPattern("NSMicrophoneUsageDescription", "content", "录音通话", "sensor"),
      ConfigPattern("NSLocationWhenInUseUsageDescription", "location", "位置服务", "sensor"),
      ConfigPattern("NSContactsUsageDescription", "contact", "通讯录访问", "automatic"),
      ConfigPattern("NSPhotoLibraryUsageDescription", "content", "相册访问", "manual")]
    case "android" => [
      ConfigPattern("android.permission.CAMERA", "biometric", "拍照录像", "sensor"),
      ConfigPattern("android.permission.RECORD_AUDIO", "content", "录音通话", "sensor"),
      ConfigPattern("android.permission.ACCESS_FINE_LOCATION", "location", "精确定位", "sensor"),
      ConfigPattern("android.permission.READ_CONTACTS", "contact", "通讯录读取", "automatic"),
      ConfigPattern("android.permission.READ_EXTERNAL_STORAGE", "content", "存储访问", "automatic")]
    case "harmonyos" => [
      ConfigPattern("ohos.permission.CAMERA", "biometric", "拍照录像", "sensor"),
      ConfigPattern("ohos.permission.MICROPHONE", "content", "录音通话", "sensor"),
      ConfigPattern("ohos.permission.LOCATION", "location", "位置服务", "sensor"),
      ConfigPattern("ohos.permission.READ_MEDIA", "content", "媒体访问", "automatic")]
    case _ => []
  }

  /** `getInfoTypeName`: the display name of a type, or the type itself. */
  function InfoTypeName(infoType: string): string {
    match infoType
    case "identity" => "身份信息"
    case "contact" => "联系方式"
    case "biometric" => "生物识别信息"
    case "location" => "位置信息"
    case "device" => "设备信息"
    case "network" => "网络信息"
    case "usage" => "使用记录"
    case "content" => "内容信息"
    case _ => infoType
  }

  /** `getMethodName`: the display name of a collection-method category, or the key itself. */
  function MethodName(category: string): string {
    match category
    case "automatic" => "自动收集"
    case "manual" => "用户主动提供"
    case "thirdParty" => "第三方获取"
    case "sensor" => "传感器获取"
    case "cookie" => "Cookie/本地存储"
    case _ => category
  }

  function Min(a: int, b: int): int {
    if a < b then a else b
  }

  function Max(a: int, b: int): int {
    if a < b then b else a
  }

  function RealMin(a: real, b: real): real {
    if a < b then a else b
  }

  // ---------------------------------------------------------------- privacy text

  /**
   * The context window of a (lower-cased) keyword found in `text`: from 50 characters
   * before its first occurrence to 50 characters after it, clipped to the text.
   */
  function Snippet(text: string, kw: string): (s: string)
    requires Contains(text, kw)
    ensures var i := IndexOf(text, kw);
            0 <= i && s == text[Max(0, i - 50)..Min(|text|, i + |kw| + 50)]
            && MatchesAt(s, kw, i - Max(0, i - 50))
    ensures Contains(s, kw)
    ensures |s| <= |kw| + 100
  {
    var i := IndexOf(text, kw);
    var start := Max(0, i - 50);
    var end := Min(|text|, i + |kw| + 50);
    SliceKeepsMatch(text, kw, i, start, end);
    text[start..end]
  }

  lemma SliceKeepsMatch(text: string, kw: string, i: nat, start: nat, end: nat)
    requires MatchesAt(text, kw, i) && start <= i && i + |kw| <= end <= |text|
    ensures MatchesAt(text[start..end], kw, i - start)
  {
    var w := text[start..end];
    forall k | 0 <= k < |kw| ensures w[i - start + k] == kw[k] {
      assert text[i..i + |kw|][k] == kw[k];
    }
    assert w[i - start..i - start + |kw|] == kw;
  }

  /** The number of keywords that occur in `text` (each adds 0.1 to the confidence). */
  function Hits(text: string, keywords: seq<string>): (n: nat)
    ensures n <= |keywords|
  {
    if |keywords| == 0 then 0
    else Hits(text, keywords[..|keywords| - 1]) + (if Contains(text, ToLower(keywords[|keywords| - 1])) then 1 else 0)
  }

  /** The accumulated context: one window and a space per keyword found, in keyword order. */
  function ContextOf(text: string, keywords: seq<string>): string {
    if |keywords| == 0 then ""
    else
      var k := keywords[|keywords| - 1];
      ContextOf(text, keywords[..|keywords| - 1]) + (if Contains(text, ToLower(k)) then Snippet(text, ToLower(k)) + " " else "")
  }

  lemma {:induction false} HitsMentions(text: string, keywords: seq<string>)
    ensures Hits(text, keywords) > 0 <==> MentionsAny(text, keywords)
  {
    if |keywords| > 0 {
      var k' := keywords[..|keywords| - 1];
      HitsMentions(text, k');
      if MentionsAny(text, k') {
        var k :| 0 <= k < |k'| && Contains(text, ToLower(k'[k]));
        assert keywords[k] == k'[k];
      }
      if MentionsAny(text, keywords) && !Contains(text, ToLower(keywords[|keywords| - 1])) {
        var k :| 0 <= k < |keywords| && Contains(text, ToLower(keywords[k]));
        assert k'[k] == keywords[k];
      }
    }
  }

  /** A label is kept when the text contains it or the context contains it lower-cased. */
  predicate LabelMatches(name: string, text: string, context: string) {
    Contains(text, name) || Contains(context, ToLower(name))
  }

  /** `labels.filter(...)`: the matching labels in canonical order. */
  function MatchingLabels(labels: seq<string>, text: string, context: string): seq<string> {
    if |labels| == 0 then []
    else
      var l := labels[|labels| - 1];
      MatchingLabels(labels[..|labels| - 1], text, context) + (if LabelMatches(l, text, context) then [l] else [])
  }

  lemma {:induction false} MatchingLabelsExact(labels: seq<string>, text: string, context: string)
    ensures |MatchingLabels(labels, text, context)| <= |labels|
    ensures forall l :: l in MatchingLabels(labels, text, context) <==> l in labels && LabelMatches(l, text, context)
  {
    if |labels| > 0 {
      MatchingLabelsExact(labels[..|labels| - 1], text, context);
      assert labels == labels[..|labels| - 1] + [labels[|labels| - 1]];
    }
  }

  /** The filtered labels, or the first two canonical labels when none matches. */
  function LabelsOrDefault(labels: seq<string>, text: string, context: string): seq<string> {
    var m := MatchingLabels(labels, text, context);
    if |m| == 0 then labels[..Min(2, |labels|)] else m
  }

  /** What `findInfoTypeInText` returns: `{found, confidence, scenarios, purposes, context}`. */
  datatype InfoMatch = InfoMatch(found: bool, confidence: real, scenarios: seq<string>, purposes: seq<string>, context: string)

  function InfoMatchOf(text: string, p: InfoPattern): InfoMatch {
    var hits := Hits(text, p.keywords);
    var context := ContextOf(text, p.keywords);
    if hits > 0 then
      InfoMatch(true, RealMin(1.0, hits as real / 10.0),
                LabelsOrDefault(p.scenarios, text, context), LabelsOrDefault(p.purposes, text, context), context)
    else InfoMatch(false, 0.0, [], [], context)
  }

  method FindInfoTypeInText(text: string, p: InfoPattern) returns (m: InfoMatch)
    ensures m == InfoMatchOf(text, p)
  {
    var found := false;
    var confidence := 0.0;
    var context := "";
    var i := 0;
    while i < |p.keywords|
      invariant 0 <= i <= |p.keywords|
      invariant found <==> Hits(text, p.keywords[..i]) > 0
      invariant confidence == Hits(text, p.keywords[..i]) as real / 10.0
      invariant context == ContextOf(text, p.keywords[..i])
    {
      var keyword := p.keywords[i];
      if Contains(text, ToLower(keyword)) {
        found := true;
        confidence := confidence + 0.1;
        context := context + Snippet(text, ToLower(keyword)) + " ";
      }
      assert p.keywords[..i + 1][..i] == p.keywords[..i];
      i := i + 1;
    }
    assert p.keywords[..i] == p.keywords;
    var scenarios := [];
    var purposes := [];
    if found {
      scenarios := MatchingLabels(p.scenarios, text, context);
      purposes := MatchingLabels(p.purposes, text, context);
      if |scenarios| == 0 { scenarios := p.scenarios[..Min(2, |p.scenarios|)]; }
      if |purposes| == 0 { purposes := p.purposes[..Min(2, |p.purposes|)]; }
      confidence := RealMin(1.0, confidence);
    }
    m := InfoMatch(found, confidence, scenarios, purposes, context);
  }

  /**
   * A type is found exactly when one of its keywords occurs; its confidence is then
   * a tenth per keyword found, capped at 1, and so lies in (0, 1]; its scenarios and
   * purposes are the matching canonical labels, or the first two when none matches.
   */
  lemma InfoMatchFacts(text: string, p: InfoPattern)
    ensures var m := InfoMatchOf(text, p);
            (m.found <==> MentionsAny(text, p.keywords))
            && (m.found ==> 0.0 < m.confidence <= 1.0
                            && m.confidence == RealMin(1.0, Hits(text, p.keywords) as real / 10.0))
            && (m.found && |MatchingLabels(p.scenarios, text, m.context)| == 0 ==> m.scenarios == p.scenarios[..Min(2, |p.scenarios|)])
            && (m.found && |MatchingLabels(p.purposes, text, m.context)| == 0 ==> m.purposes == p.purposes[..Min(2, |p.purposes|)])
            && (m.found ==> forall l :: l in m.scenarios ==> l in p.scenarios)
            && (m.found ==> forall l :: l in m.purposes ==> l in p.purposes)
            && (m.found && |MatchingLabels(p.scenarios, text, m.context)| > 0 ==>
                  forall l :: l in m.scenarios <==> l in p.scenarios && LabelMatches(l, text, m.context))
            && (m.found && |MatchingLabels(p.purposes, text, m.context)| > 0 ==>
                  forall l :: l in m.purposes <==> l in p.purposes && LabelMatches(l, text, m.context))
  {
    HitsMentions(text, p.keywords);
    var context := ContextOf(text, p.keywords);
    MatchingLabelsExact(p.scenarios, text, context);
    MatchingLabelsExact(p.purposes, text, context);
  }

  /** The display names of the categories with a keyword in `combined`, in category order. */
  function MethodsOf(combined: string, rows: seq<MethodRow>): seq<string> {
    if |rows| == 0 then []
    else
      var r := rows[|rows| - 1];
      MethodsOf(combined, rows[..|rows| - 1]) + (if MentionsAny(combined, r.keywords) then [MethodName(r.category)] else [])
  }

  /** `extractCollectionMethods`: the categories found in the lower-cased text and context, else `系统获取`. */
  function CollectionMethodsOf(text: string, context: string): seq<string> {
    var m := MethodsOf(ToLower(text + " " + context), CollectionMethods);
    if |m| > 0 then m else ["系统获取"]
  }

  method MethodsIn(combined: string, rows: seq<MethodRow>) returns (methods: seq<string>)
    ensures methods == MethodsOf(combined, rows)
  {
    methods := [];
    var i := 0;
    while i < |rows|
      invariant 0 <= i <= |rows|
      invariant methods == MethodsOf(combined, rows[..i])
    {
      var hit := ScanKeywords(combined, rows[i].keywords);
      if hit {
        methods := methods + [MethodName(rows[i].category)];
      }
      assert rows[..i + 1][..i] == rows[..i];
      i := i + 1;
    }
    assert rows[..i] == rows;
  }

  method ExtractCollectionMethods(text: string, context: string) returns (methods: seq<string>)
    ensures methods == CollectionMethodsOf(text, context)
  {
    methods := MethodsIn(ToLower(text + " " + context), CollectionMethods);
    if |methods| == 0 {
      methods := ["系统获取"];
    }
  }

  lemma {:induction false} MethodsOfExact(combined: string, rows: seq<MethodRow>)
    ensures |MethodsOf(combined, rows)| <= |rows|
    ensures |MethodsOf(combined, rows)| == 0 <==> forall i :: 0 <= i < |rows| ==> !MentionsAny(combined, rows[i].keywords)
    ensures forall i :: 0 <= i < |rows| && MentionsAny(combined, rows[i].keywords) ==> MethodName(rows[i].category) in MethodsOf(combined, rows)
    ensures forall n :: n in MethodsOf(combined, rows) ==>
              exists i :: 0 <= i < |rows| && MentionsAny(combined, rows[i].keywords) && n == MethodName(rows[i].category)
  {
    if |rows| > 0 {
      var r' := rows[..|rows| - 1];
      MethodsOfExact(combined, r');
      assert forall i :: 0 <= i < |r'| ==> r'[i] == rows[i];
    }
  }

  /** The categories with a keyword in `combined`, in category order. */
  function MatchingCategories(combined: string, rows: seq<MethodRow>): (found: seq<MethodRow>)
    ensures |found| <= |rows|
  {
    if |rows| == 0 then []
    else
      var r := rows[|rows| - 1];
      MatchingCategories(combined, rows[..|rows| - 1]) + (if MentionsAny(combined, r.keywords) then [r] else [])
  }

  /** A category matches exactly when it is listed and one of its keywords occurs. */
  lemma {:induction false} MatchingCategoriesExact(combined: string, rows: seq<MethodRow>)
    ensures forall r :: r in MatchingCategories(combined, rows) <==> r in rows && MentionsAny(combined, r.keywords)
  {
    if |rows| > 0 {
      MatchingCategoriesExact(combined, rows[..|rows| - 1]);
      assert rows == rows[..|rows| - 1] + [rows[|rows| - 1]];
    }
  }

  /** The loop pushes the name of each matching category, one each and in category order. */
  lemma {:induction false} MethodsInOrder(combined: string, rows: seq<MethodRow>)
    ensures |MethodsOf(combined, rows)| == |MatchingCategories(combined, rows)|
    ensures forall i :: 0 <= i < |MatchingCategories(combined, rows)| ==>
              MethodsOf(combined, rows)[i] == MethodName(MatchingCategories(combined, rows)[i].category)
  {
    if |rows| > 0 {
      MethodsInOrder(combined, rows[..|rows| - 1]);
    }
  }

  /**
   * The methods list is never empty: it is `["系统获取"]` exactly when no category has a
   * keyword in the lower-cased text and context, and otherwise the names of the
   * matching categories, one each and in category order, and no other name.
   */
  lemma CollectionMethodsFacts(text: string, context: string)
    ensures var combined := ToLower(text + " " + context);
            var m := CollectionMethodsOf(text, context);
            var found := MatchingCategories(combined, CollectionMethods);
            1 <= |m| <= |CollectionMethods|
            && (m == ["系统获取"] <==> forall i :: 0 <= i < |CollectionMethods| ==> !MentionsAny(combined, CollectionMethods[i].keywords))
            && (|found| > 0 ==> |m| == |found| && forall i :: 0 <= i < |found| ==> m[i] == MethodName(found[i].category))
            && (forall i :: 0 <= i < |CollectionMethods| && MentionsAny(combined, CollectionMethods[i].keywords) ==>
                  MethodName(CollectionMethods[i].category) in m)
            && (m != ["系统获取"] ==> forall n :: n in m ==>
                  exists i :: 0 <= i < |CollectionMethods| && MentionsAny(combined, CollectionMethods[i].keywords)
                              && n == MethodName(CollectionMethods[i].category))
  {
    var combined := ToLower(text + " " + context);
    MethodsOfExact(combined, CollectionMethods);
    MethodsInOrder(combined, CollectionMethods);
    var m := MethodsOf(combined, CollectionMethods);
    if |m| > 0 {
      assert m[0] in m;
      assert m[0] != "系统获取";
    }
  }

  // ---------------------------------------------------------------- collection records

  /**
   * One item of an information-collection list. Privacy records carry no permission or
   * description (`None`); config records carry both.
   */
  datatype Collection = Collection(
    infoType: string, infoTypeName: string, scenarios: seq<string>, purposes: seq<string>,
    methods: seq<string>, source: string, permission: Option<string>, description: Option<string>,
    confidence: real)

  function PrivacyRecord(textLower: string, p: InfoPattern): Collection {
    var m := InfoMatchOf(textLower, p);
    Collection(p.infoType, InfoTypeName(p.infoType), m.scenarios, m.purposes,
               CollectionMethodsOf(textLower, m.context), "privacy_policy", None, None, m.confidence)
  }

  /** The records `analyzePrivacyPolicy` emits for the patterns `rows`, in pattern order. */
  function PrivacyCollectionsOf(textLower: string, rows: seq<InfoPattern>): seq<Collection> {
    if |rows| == 0 then []
    else
      var p := rows[|rows| - 1];
      PrivacyCollectionsOf(textLower, rows[..|rows| - 1])
      + (if InfoMatchOf(textLower, p).found then [PrivacyRecord(textLower, p)] else [])
  }

  method PrivacyCollectionsIn(textLower: string, rows: seq<InfoPattern>) returns (collections: seq<Collection>)
    ensures collections == PrivacyCollectionsOf(textLower, rows)
  {
    collections := [];
    var i := 0;
    while i < |rows|
      invariant 0 <= i <= |rows|
      invariant collections == PrivacyCollectionsOf(textLower, rows[..i])
    {
      var p := rows[i];
      var matches := FindInfoTypeInText(textLower, p);
      if matches.found {
        var methods := ExtractCollectionMethods(textLower, matches.context);
        collections := collections + [Collection(p.infoType, InfoTypeName(p.infoType), matches.scenarios, matches.purposes,
                                                 methods, "privacy_policy", None, None, matches.confidence)];
      }
      assert rows[..i + 1][..i] == rows[..i];
      i := i + 1;
    }
    assert rows[..i] == rows;
  }

  method AnalyzePrivacyPolicy(privacyText: string) returns (collections: seq<Collection>)
    ensures collections == PrivacyCollectionsOf(ToLower(privacyText), PersonalInfo)
  {
    collections := PrivacyCollectionsIn(ToLower(privacyText), PersonalInfo);
  }

  predicate DistinctTypes(rows: seq<InfoPattern>) {
    forall i, j :: 0 <= i < j < |rows| ==> rows[i].infoType != rows[j].infoType
  }

  lemma PersonalInfoDistinct()
    ensures DistinctTypes(PersonalInfo)
  {
  }

  /** Every privacy record comes from a pattern with a keyword in the text, with that pattern's type and a confidence in (0, 1]. */
  lemma {:induction false} PrivacyCollectionsSound(textLower: string, rows: seq<InfoPattern>)
    ensures |PrivacyCollectionsOf(textLower, rows)| <= |rows|
    ensures forall c :: c in PrivacyCollectionsOf(textLower, rows) ==>
              c.source == "privacy_policy" && c.permission.None? && 0.0 < c.confidence <= 1.0
              && exists i :: 0 <= i < |rows| && MentionsAny(textLower, rows[i].keywords) && c == PrivacyRecord(textLower, rows[i])
  {
    if |rows| > 0 {
      var n := |rows| - 1;
      var r' := rows[..n];
      PrivacyCollectionsSound(textLower, r');
      InfoMatchFacts(textLower, rows[n]);
      forall c | c in PrivacyCollectionsOf(textLower, rows)
        ensures c.source == "privacy_policy" && c.permission.None? && 0.0 < c.confidence <= 1.0
                && exists i :: 0 <= i < |rows| && MentionsAny(textLower, rows[i].keywords) && c == PrivacyRecord(textLower, rows[i])
      {
        if c in PrivacyCollectionsOf(textLower, r') {
          var i :| 0 <= i < |r'| && MentionsAny(textLower, r'[i].keywords) && c == PrivacyRecord(textLower, r'[i]);
          assert rows[i] == r'[i];
        } else {
          assert c == PrivacyRecord(textLower, rows[n]);
        }
      }
    }
  }

  /** Every pattern with a keyword in the text yields its record. */
  lemma {:induction false} PrivacyCollectionsComplete(textLower: string, rows: seq<InfoPattern>)
    ensures forall i :: 0 <= i < |rows| && MentionsAny(textLower, rows[i].keywords) ==>
              PrivacyRecord(textLower, rows[i]) in PrivacyCollectionsOf(textLower, rows)
  {
    if |rows| > 0 {
      var n := |rows| - 1;
      var r' := rows[..n];
      PrivacyCollectionsComplete(textLower, r');
      InfoMatchFacts(textLower, rows[n]);
      var before := PrivacyCollectionsOf(textLower, r');
      assert PrivacyCollectionsOf(textLower, rows)
             == before + (if InfoMatchOf(textLower, rows[n]).found then [PrivacyRecord(textLower, rows[n])] else []);
      forall i | 0 <= i < |rows| && MentionsAny(textLower, rows[i].keywords)
        ensures PrivacyRecord(textLower, rows[i]) in PrivacyCollectionsOf(textLower, rows)
      {
        if i < n {
          assert r'[i] == rows[i];
          assert PrivacyRecord(textLower, rows[i]) in before;
        }
      }
    }
  }

  /** With distinct pattern types, no type is recorded twice. */
  lemma {:induction false} PrivacyCollectionsOnce(textLower: string, rows: seq<InfoPattern>)
    requires DistinctTypes(rows)
    ensures forall i, j :: 0 <= i < j < |PrivacyCollectionsOf(textLower, rows)| ==>
              PrivacyCollectionsOf(textLower, rows)[i].infoType != PrivacyCollectionsOf(textLower, rows)[j].infoType
  {
    if |rows| > 0 {
      var n := |rows| - 1;
      var r' := rows[..n];
      assert DistinctTypes(r');
      PrivacyCollectionsOnce(textLower, r');
      PrivacyCollectionsSound(textLower, r');
      forall c | c in PrivacyCollectionsOf(textLower, r') ensures c.infoType != rows[n].infoType {
        var i :| 0 <= i < |r'| && MentionsAny(textLower, r'[i].keywords) && c == PrivacyRecord(textLower, r'[i]);
        assert rows[i] == r'[i];
      }
    }
  }

  /** The patterns with a keyword in `textLower`, in pattern order. */
  function FoundPatterns(textLower: string, rows: seq<InfoPattern>): (found: seq<InfoPattern>)
    ensures |found| <= |rows|
  {
    if |rows| == 0 then []
    else
      var p := rows[|rows| - 1];
      FoundPatterns(textLower, rows[..|rows| - 1]) + (if MentionsAny(textLower, p.keywords) then [p] else [])
  }

  /** A pattern is found exactly when it is listed and one of its keywords occurs. */
  lemma {:induction false} FoundPatternsExact(textLower: string, rows: seq<InfoPattern>)
    ensures forall p :: p in FoundPatterns(textLower, rows) <==> p in rows && MentionsAny(textLower, p.keywords)
  {
    if |rows| > 0 {
      FoundPatternsExact(textLower, rows[..|rows| - 1]);
      assert rows == rows[..|rows| - 1] + [rows[|rows| - 1]];
    }
  }

  /** The loop pushes the record of each found pattern, one each and in pattern order. */
  lemma {:induction false} PrivacyCollectionsInOrder(textLower: string, rows: seq<InfoPattern>)
    ensures |PrivacyCollectionsOf(textLower, rows)| == |FoundPatterns(textLower, rows)|
    ensures forall i :: 0 <= i < |FoundPatterns(textLower, rows)| ==>
              PrivacyCollectionsOf(textLower, rows)[i] == PrivacyRecord(textLower, FoundPatterns(textLower, rows)[i])
  {
    if |rows| > 0 {
      PrivacyCollectionsInOrder(textLower, rows[..|rows| - 1]);
      HitsMentions(textLower, rows[|rows| - 1].keywords);
    }
  }

  /**
   * `analyzePrivacyPolicy`: the records of the patterns with a keyword in the
   * lower-cased text, one each and in pattern order, so at most one per information
   * type; each is marked `privacy_policy`, with a confidence in (0, 1].
   */
  lemma AnalyzePrivacyPolicyFacts(privacyText: string)
    ensures var t := ToLower(privacyText);
            var r := PrivacyCollectionsOf(t, PersonalInfo);
            var found := FoundPatterns(t, PersonalInfo);
            |r| == |found| <= |PersonalInfo|
            && (forall i :: 0 <= i < |found| ==> r[i] == PrivacyRecord(t, found[i]))
            && (forall i, j :: 0 <= i < j < |r| ==> r[i].infoType != r[j].infoType)
            && (forall i :: 0 <= i < |PersonalInfo| && MentionsAny(t, PersonalInfo[i].keywords) ==>
                  PrivacyRecord(t, PersonalInfo[i]) in r)
            && (forall c :: c in r ==>
                  c.source == "privacy_policy" && c.permission.None? && 0.0 < c.confidence <= 1.0
                  && exists i :: 0 <= i < |PersonalInfo| && MentionsAny(t, PersonalInfo[i].keywords)
                                 && c == PrivacyRecord(t, PersonalInfo[i]))
  {
    var t := ToLower(privacyText);
    PersonalInfoDistinct();
    PrivacyCollectionsSound(t, PersonalInfo);
    PrivacyCollectionsComplete(t, PersonalInfo);
    PrivacyCollectionsOnce(t, PersonalInfo);
    PrivacyCollectionsInOrder(t, PersonalInfo);
  }

  // ---------------------------------------------------------------- configuration file

  /** `findPatternByPermission`: the first pattern whose `permission` equals the key. */
  function FindPattern(patterns: seq<ConfigPattern>, key: string): (r: Option<ConfigPattern>)
    ensures r.None? <==> forall i :: 0 <= i < |patterns| ==> patterns[i].permission != key
    ensures r.Some? ==> exists i :: 0 <= i < |patterns| && patterns[i] == r.value && patterns[i].permission == key
                                    && forall j :: 0 <= j < i ==> patterns[j].permission != key
  {
    if |patterns| == 0 then None
    else if patterns[0].permission == key then Some(patterns[0])
    else
      var r := FindPattern(patterns[1..], key);
      assert r.Some? ==> exists i :: 1 <= i < |patterns| && patterns[i] == r.value && patterns[i].permission == key
                                     && forall j :: 0 <= j < i ==> patterns[j].permission != key by {
        if r.Some? {
          var i :| 0 <= i < |patterns[1..]| && patterns[1..][i] == r.value && patterns[1..][i].permission == key
                   && forall j :: 0 <= j < i ==> patterns[1..][j].permission != key;
          assert patterns[i + 1] == r.value;
          forall j | 0 <= j < i + 1 ensures patterns[j].permission != key {
            if j > 0 { assert patterns[j] == patterns[1..][j - 1]; }
          }
        }
      }
      r
  }

  /** `inferPurposeFromPermission`: the purpose of the permission's type, else its description, else a default. */
  function PurposeOf(p: Permission): (purpose: string)
    ensures purpose != ""
    ensures p.kind !in {"camera", "microphone", "location", "contacts", "storage", "phone", "sms"} ==>
              purpose == (if p.description != "" then p.description else "应用功能需要")
  {
    var fromType :=
      match p.kind
      case "camera" => "拍照录像功能"
      case "microphone" => "录音通话功能"
      case "location" => "位置相关服务"
      case "contacts" => "联系人相关功能"
      case "storage" => "文件存储功能"
      case "phone" => "电话相关功能"
      case "sms" => "短信相关功能"
      case _ => "";
    if fromType != "" then fromType else if p.description != "" then p.description else "应用功能需要"
  }

  function ConfigRecord(p: Permission, pattern: ConfigPattern): Collection {
    Collection(pattern.infoType, InfoTypeName(pattern.infoType), [pattern.scenario], [PurposeOf(p)],
               [pattern.category], "config_file", Some(p.key), Some(p.description), 9.0 / 10.0)
  }

  /** The records for `perms`: one per permission some pattern matches, in permission order. */
  function ConfigCollectionsOf(perms: seq<Permission>, patterns: seq<ConfigPattern>): seq<Collection> {
    if |perms| == 0 then []
    else
      var p := perms[|perms| - 1];
      var m := FindPattern(patterns, p.key);
      ConfigCollectionsOf(perms[..|perms| - 1], patterns) + (if m.Some? then [ConfigRecord(p, m.value)] else [])
  }

  /** `analyzeConfigFile`: absent permissions give no records. */
  function ConfigCollections(perms: Option<seq<Permission>>, platform: string): seq<Collection> {
    match perms
    case None => []
    case Some(ps) => ConfigCollectionsOf(ps, ConfigPatterns(platform))
  }

  method ConfigCollectionsIn(perms: seq<Permission>, patterns: seq<ConfigPattern>) returns (collections: seq<Collection>)
    ensures collections == ConfigCollectionsOf(perms, patterns)
  {
    collections := [];
    var i := 0;
    while i < |perms|
      invariant 0 <= i <= |perms|
      invariant collections == ConfigCollectionsOf(perms[..i], patterns)
    {
      var pattern := FindPattern(patterns, perms[i].key);
      if pattern.Some? {
        collections := collections + [ConfigRecord(perms[i], pattern.value)];
      }
      assert perms[..i + 1][..i] == perms[..i];
      i := i + 1;
    }
    assert perms[..i] == perms;
  }

  method AnalyzeConfigFile(perms: Option<seq<Permission>>, platform: string) returns (collections: seq<Collection>)
    ensures collections == ConfigCollections(perms, platform)
  {
    collections := [];
    if perms.Some? {
      collections := ConfigCollectionsIn(perms.value, ConfigPatterns(platform));
    }
  }

  /** The permissions whose key some pattern lists, in permission order. */
  function MatchedPermissions(perms: seq<Permission>, patterns: seq<ConfigPattern>): (matched: seq<Permission>)
    ensures |matched| <= |perms|
  {
    if |perms| == 0 then []
    else
      var p := perms[|perms| - 1];
      MatchedPermissions(perms[..|perms| - 1], patterns) + (if FindPattern(patterns, p.key).Some? then [p] else [])
  }

  /** A permission is matched exactly when it is declared and some pattern lists its key. */
  lemma {:induction false} MatchedPermissionsExact(perms: seq<Permission>, patterns: seq<ConfigPattern>)
    ensures forall p :: p in MatchedPermissions(perms, patterns) <==> p in perms && FindPattern(patterns, p.key).Some?
  {
    if |perms| > 0 {
      MatchedPermissionsExact(perms[..|perms| - 1], patterns);
      assert perms == perms[..|perms| - 1] + [perms[|perms| - 1]];
    }
  }

  /** The loop pushes one record per matched permission, in permission order, built from its first pattern. */
  lemma {:induction false} ConfigCollectionsInOrder(perms: seq<Permission>, patterns: seq<ConfigPattern>)
    ensures |ConfigCollectionsOf(perms, patterns)| == |MatchedPermissions(perms, patterns)|
    ensures forall i :: 0 <= i < |MatchedPermissions(perms, patterns)| ==>
              var p := MatchedPermissions(perms, patterns)[i];
              FindPattern(patterns, p.key).Some? && ConfigCollectionsOf(perms, patterns)[i] == ConfigRecord(p, FindPattern(patterns, p.key).value)
  {
    if |perms| > 0 {
      ConfigCollectionsInOrder(perms[..|perms| - 1], patterns);
    }
  }

  /**
   * One record per permission whose key some pattern lists, in permission order, built
   * from the first such pattern, with confidence 0.9 and source `config_file`; other
   * permissions are skipped.
   */
  lemma {:induction false} ConfigCollectionsExact(perms: seq<Permission>, patterns: seq<ConfigPattern>)
    ensures |ConfigCollectionsOf(perms, patterns)| == |MatchedPermissions(perms, patterns)| <= |perms|
    ensures forall i :: 0 <= i < |MatchedPermissions(perms, patterns)| ==>
              var p := MatchedPermissions(perms, patterns)[i];
              FindPattern(patterns, p.key).Some? && ConfigCollectionsOf(perms, patterns)[i] == ConfigRecord(p, FindPattern(patterns, p.key).value)
    ensures forall i :: 0 <= i < |perms| && FindPattern(patterns, perms[i].key).Some? ==>
              ConfigRecord(perms[i], FindPattern(patterns, perms[i].key).value) in ConfigCollectionsOf(perms, patterns)
    ensures forall c :: c in ConfigCollectionsOf(perms, patterns) ==>
              c.source == "config_file" && c.confidence == 9.0 / 10.0
              && exists i :: 0 <= i < |perms| && FindPattern(patterns, perms[i].key).Some?
                             && c == ConfigRecord(perms[i], FindPattern(patterns, perms[i].key).value)
  {
    ConfigCollectionsMembers(perms, patterns);
    ConfigCollectionsInOrder(perms, patterns);
  }

  /** Each permission with a pattern gives its record, and every record comes from one. */
  lemma {:induction false} ConfigCollectionsMembers(perms: seq<Permission>, patterns: seq<ConfigPattern>)
    ensures |ConfigCollectionsOf(perms, patterns)| <= |perms|
    ensures forall i :: 0 <= i < |perms| && FindPattern(patterns, perms[i].key).Some? ==>
              ConfigRecord(perms[i], FindPattern(patterns, perms[i].key).value) in ConfigCollectionsOf(perms, patterns)
    ensures forall c :: c in ConfigCollectionsOf(perms, patterns) ==>
              c.source == "config_file" && c.confidence == 9.0 / 10.0
              && exists i :: 0 <= i < |perms| && FindPattern(patterns, perms[i].key).Some?
                             && c == ConfigRecord(perms[i], FindPattern(patterns, perms[i].key).value)
  {
    if |perms| > 0 {
      var n := |perms| - 1;
      var p' := perms[..n];
      ConfigCollectionsMembers(p', patterns);
      assert forall i :: 0 <= i < n ==> p'[i] == perms[i];
      forall c | c in ConfigCollectionsOf(perms, patterns)
        ensures c.source == "config_file" && c.confidence == 9.0 / 10.0
                && exists i :: 0 <= i < |perms| && FindPattern(patterns, perms[i].key).Some?
                               && c == ConfigRecord(perms[i], FindPattern(patterns, perms[i].key).value)
      {
        if c !in ConfigCollectionsOf(p', patterns) {
          assert c == ConfigRecord(perms[n], FindPattern(patterns, perms[n].key).value);
        }
      }
    }
  }

  /** A platform with no pattern table, or absent permissions, gives no records. */
  lemma {:induction false} NoPatternsNoRecords(perms: Option<seq<Permission>>, platform: string)
    requires perms.None? || platform !in {"ios", "android", "harmonyos"}
    ensures ConfigCollections(perms, platform) == []
  {
    if perms.Some? {
      NoPatterns(perms.value);
    }
  }

  lemma {:induction false} NoPatterns(perms: seq<Permission>)
    ensures ConfigCollectionsOf(perms, []) == []
  {
    if |perms| > 0 {
      NoPatterns(perms[..|perms| - 1]);
    }
  }

  // ---------------------------------------------------------------- reconciliation

  datatype MergeStatus = Consistent | PrivacyOnly | ConfigOnly

  /** A merged record: the item, the sources it was seen in and its status. */
  datatype MergedItem = MergedItem(item: Collection, sources: seq<string>, status: MergeStatus)

  /** `configCollections.find(c => c.infoType === t)`. */
  function FirstOfType(config: seq<Collection>, t: string): (r: Option<Collection>)
    ensures r.None? <==> forall i :: 0 <= i < |config| ==> config[i].infoType != t
    ensures r.Some? ==> exists i :: 0 <= i < |config| && config[i] == r.value && config[i].infoType == t
                                    && forall j :: 0 <= j < i ==> config[j].infoType != t
  {
    if |config| == 0 then None
    else if config[0].infoType == t then Some(config[0])
    else
      var r := FirstOfType(config[1..], t);
      assert r.Some? ==> exists i :: 1 <= i < |config| && config[i] == r.value && config[i].infoType == t
                                     && forall j :: 0 <= j < i ==> config[j].infoType != t by {
        if r.Some? {
          var i :| 0 <= i < |config[1..]| && config[1..][i] == r.value && config[1..][i].infoType == t
                   && forall j :: 0 <= j < i ==> config[1..][j].infoType != t;
          assert config[i + 1] == r.value;
          forall j | 0 <= j < i + 1 ensures config[j].infoType != t {
            if j > 0 { assert config[j] == config[1..][j - 1]; }
          }
        }
      }
      r
  }

  /** A privacy record against the config records: merged with the first of its type, else privacy-only. */
  function MergeOne(p: Collection, config: seq<Collection>): MergedItem {
    match FirstOfType(config, p.infoType)
    case Some(c) =>
      MergedItem(p.(scenarios := Dedup(p.scenarios + c.scenarios), purposes := Dedup(p.purposes + c.purposes),
                    methods := Dedup(p.methods + c.methods), permission := c.permission,
                    confidence := (p.confidence + c.confidence) / 2.0),
                 ["privacy_policy", "config_file"], Consistent)
    case None => MergedItem(p.(permission := None), ["privacy_policy"], PrivacyOnly)
  }

  function MergedPrivacy(privacy: seq<Collection>, config: seq<Collection>): seq<MergedItem> {
    if |privacy| == 0 then []
    else MergedPrivacy(privacy[..|privacy| - 1], config) + [MergeOne(privacy[|privacy| - 1], config)]
  }

  function TypesOf(cs: seq<Collection>): set<string> {
    set i | 0 <= i < |cs| :: cs[i].infoType
  }

  function ConfigOnlyOf(config: seq<Collection>, processed: set<string>): seq<MergedItem> {
    if |config| == 0 then []
    else
      var c := config[|config| - 1];
      ConfigOnlyOf(config[..|config| - 1], processed)
      + (if c.infoType !in processed then [MergedItem(c, ["config_file"], ConfigOnly)] else [])
  }

  /** The merged list before sorting: privacy records in order, then unmatched config records in order. */
  function MergeUnsorted(privacy: seq<Collection>, config: seq<Collection>): seq<MergedItem> {
    MergedPrivacy(privacy, config) + ConfigOnlyOf(config, TypesOf(privacy))
  }

  /** `mergeAnalysisResults`. */
  function MergeResults(privacy: seq<Collection>, config: seq<Collection>): seq<MergedItem> {
    SortByConfidence(MergeUnsorted(privacy, config))
  }

  /** One more privacy record adds its type to the processed set. */
  lemma TypesOfStep(privacy: seq<Collection>, i: nat)
    requires i < |privacy|
    ensures TypesOf(privacy[..i + 1]) == TypesOf(privacy[..i]) + {privacy[i].infoType}
  {
    forall t | t in TypesOf(privacy[..i + 1]) ensures t in TypesOf(privacy[..i]) + {privacy[i].infoType} {
      var k :| 0 <= k < i + 1 && privacy[..i + 1][k].infoType == t;
      if k < i { assert privacy[..i][k].infoType == t; }
    }
    forall t | t in TypesOf(privacy[..i]) ensures t in TypesOf(privacy[..i + 1]) {
      var k :| 0 <= k < i && privacy[..i][k].infoType == t;
      assert privacy[..i + 1][k].infoType == t;
    }
    assert privacy[..i + 1][i].infoType == privacy[i].infoType;
  }

  /** The first loop of `mergeAnalysisResults`: every privacy record merged, and the set of their types. */
  method MergePrivacyIn(privacy: seq<Collection>, config: seq<Collection>)
    returns (merged: seq<MergedItem>, processedTypes: set<string>)
    ensures merged == MergedPrivacy(privacy, config)
    ensures processedTypes == TypesOf(privacy)
  {
    merged := [];
    processedTypes := {};
    var i := 0;
    while i < |privacy|
      invariant 0 <= i <= |privacy|
      invariant merged == MergedPrivacy(privacy[..i], config)
      invariant processedTypes == TypesOf(privacy[..i])
    {
      ghost var before := merged;
      var item := privacy[i];
      var configItem := FirstOfType(config, item.infoType);
      if configItem.Some? {
        var c := configItem.value;
        merged := merged + [MergedItem(item.(scenarios := Dedup(item.scenarios + c.scenarios),
                                             purposes := Dedup(item.purposes + c.purposes),
                                             methods := Dedup(item.methods + c.methods), permission := c.permission,
                                             confidence := (item.confidence + c.confidence) / 2.0),
                                       ["privacy_policy", "config_file"], Consistent)];
      } else {
        merged := merged + [MergedItem(item.(permission := None), ["privacy_policy"], PrivacyOnly)];
      }
      assert merged == before + [MergeOne(item, config)];
      processedTypes := processedTypes + {item.infoType};
      assert privacy[..i + 1][..i] == privacy[..i];
      TypesOfStep(privacy, i);
      i := i + 1;
    }
    assert privacy[..i] == privacy;
  }

  /** The second loop of `mergeAnalysisResults`: the config records whose type is not processed, in order. */
  method ConfigOnlyIn(config: seq<Collection>, processedTypes: set<string>) returns (items: seq<MergedItem>)
    ensures items == ConfigOnlyOf(config, processedTypes)
  {
    items := [];
    var j := 0;
    while j < |config|
      invariant 0 <= j <= |config|
      invariant items == ConfigOnlyOf(config[..j], processedTypes)
    {
      if config[j].infoType !in processedTypes {
        items := items + [MergedItem(config[j], ["config_file"], ConfigOnly)];
      }
      assert config[..j + 1][..j] == config[..j];
      j := j + 1;
    }
    assert config[..j] == config;
  }

  method MergeAnalysisResults(privacy: seq<Collection>, config: seq<Collection>) returns (merged: seq<MergedItem>)
    ensures merged == MergeResults(privacy, config)
  {
    var fromPrivacy, processedTypes := MergePrivacyIn(privacy, config);
    var fromConfig := ConfigOnlyIn(config, processedTypes);
    merged := SortByConfidence(fromPrivacy + fromConfig);
  }

  lemma {:induction false} MergedPrivacyExact(privacy: seq<Collection>, config: seq<Collection>)
    ensures |MergedPrivacy(privacy, config)| == |privacy|
    ensures forall i :: 0 <= i < |privacy| ==> MergedPrivacy(privacy, config)[i] == MergeOne(privacy[i], config)
  {
    if |privacy| > 0 {
      MergedPrivacyExact(privacy[..|privacy| - 1], config);
    }
  }

  lemma {:induction false} ConfigOnlyExact(config: seq<Collection>, processed: set<string>)
    ensures forall m :: m in ConfigOnlyOf(config, processed) ==>
              m.status == ConfigOnly && m.sources == ["config_file"] && m.item in config && m.item.infoType !in processed
    ensures forall c :: c in config && c.infoType !in processed ==> MergedItem(c, ["config_file"], ConfigOnly) in ConfigOnlyOf(config, processed)
  {
    if |config| > 0 {
      var c' := config[..|config| - 1];
      ConfigOnlyExact(c', processed);
      assert config == c' + [config[|config| - 1]];
    }
  }

  /**
   * Before sorting: one record per privacy record, in order, `consistent` exactly when a
   * config record shares its type (then built from the first such record, with the mean
   * confidence and de-duplicated lists), otherwise `privacy_only` without a permission;
   * then every config record whose type no privacy record has, as `config_only`.
   */
  lemma MergeUnsortedFacts(privacy: seq<Collection>, config: seq<Collection>)
    ensures var u := MergeUnsorted(privacy, config);
            |u| >= |privacy|
            && (forall i :: 0 <= i < |privacy| ==>
                  u[i].item.infoType == privacy[i].infoType
                  && (u[i].status == Consistent <==> exists c :: c in config && c.infoType == privacy[i].infoType)
                  && (u[i].status != Consistent ==> u[i].status == PrivacyOnly && u[i].item.permission.None?
                                                    && u[i].sources == ["privacy_policy"])
                  && (u[i].status == Consistent ==>
                        var c := FirstOfType(config, privacy[i].infoType).value;
                        u[i].item.confidence == (privacy[i].confidence + c.confidence) / 2.0
                        && u[i].item.permission == c.permission
                        && u[i].item.scenarios == Dedup(privacy[i].scenarios + c.scenarios)
                        && u[i].item.purposes == Dedup(privacy[i].purposes + c.purposes)
                        && u[i].item.methods == Dedup(privacy[i].methods + c.methods)
                        && u[i].sources == ["privacy_policy", "config_file"]))
            && (forall i :: |privacy| <= i < |u| ==>
                  u[i].status == ConfigOnly && u[i].item in config && u[i].item.infoType !in TypesOf(privacy))
            && (forall c :: c in config && c.infoType !in TypesOf(privacy) ==>
                  MergedItem(c, ["config_file"], ConfigOnly) in u[|privacy|..])
  {
    var mp := MergedPrivacy(privacy, config);
    var co := ConfigOnlyOf(config, TypesOf(privacy));
    MergedPrivacyExact(privacy, config);
    ConfigOnlyExact(config, TypesOf(privacy));
    var u := MergeUnsorted(privacy, config);
    assert u[|privacy|..] == co;
    forall i | 0 <= i < |privacy|
      ensures (u[i].status == Consistent <==> exists c :: c in config && c.infoType == privacy[i].infoType)
    {
      assert u[i] == MergeOne(privacy[i], config);
      if exists c :: c in config && c.infoType == privacy[i].infoType {
        var c :| c in config && c.infoType == privacy[i].infoType;
        var k :| 0 <= k < |config| && config[k] == c;
        assert FirstOfType(config, privacy[i].infoType).Some?;
      }
    }
    forall i | |privacy| <= i < |u|
      ensures u[i].status == ConfigOnly && u[i].item in config && u[i].item.infoType !in TypesOf(privacy)
    {
      assert u[i] == co[i - |privacy|];
      assert u[i] in co;
    }
  }

  // ---------------------------------------------------------------- stable descending sort

  function Conf(m: MergedItem): real {
    m.item.confidence
  }

  predicate SortedDesc(xs: seq<MergedItem>) {
    forall i, j :: 0 <= i < j < |xs| ==> Conf(xs[i]) >= Conf(xs[j])
  }

  /** Insert `x` in front of the first element of lower confidence, after all of equal or higher confidence. */
  function InsertDesc(s: seq<MergedItem>, x: MergedItem): seq<MergedItem> {
    if |s| == 0 then [x]
    else if Conf(s[0]) < Conf(x) then [x] + s
    else [s[0]] + InsertDesc(s[1..], x)
  }

  /**
   * `merged.sort((a, b) => b.confidence - a.confidence)`: `Array.prototype.sort` is
   * stable, so this is the insertion sort that keeps equal confidences in input order.
   */
  function SortByConfidence(xs: seq<MergedItem>): seq<MergedItem> {
    if |xs| == 0 then [] else InsertDesc(SortByConfidence(xs[..|xs| - 1]), xs[|xs| - 1])
  }

  /** The elements of confidence `c`, in order. */
  function WithConf(xs: seq<MergedItem>, c: real): seq<MergedItem> {
    if |xs| == 0 then [] else (if Conf(xs[0]) == c then [xs[0]] else []) + WithConf(xs[1..], c)
  }

  lemma {:induction false} InsertDescMultiset(s: seq<MergedItem>, x: MergedItem)
    ensures multiset(InsertDesc(s, x)) == multiset(s) + multiset{x}
  {
    if |s| > 0 && Conf(s[0]) >= Conf(x) {
      InsertDescMultiset(s[1..], x);
      assert s == [s[0]] + s[1..];
    }
  }

  lemma {:induction false} InsertDescSorted(s: seq<MergedItem>, x: MergedItem)
    requires SortedDesc(s)
    ensures SortedDesc(InsertDesc(s, x))
  {
    if |s| > 0 && Conf(s[0]) >= Conf(x) {
      var t := s[1..];
      assert SortedDesc(t);
      InsertDescSorted(t, x);
      InsertDescMultiset(t, x);
      var r := InsertDesc(t, x);
      forall k | 0 <= k < |r| ensures Conf(s[0]) >= Conf(r[k]) {
        assert r[k] in multiset(r);
        if r[k] != x {
          assert r[k] in multiset(t);
          var m :| 0 <= m < |t| && t[m] == r[k];
          assert s[m + 1] == t[m];
        }
      }
      assert InsertDesc(s, x) == [s[0]] + r;
    }
  }

  lemma {:induction false} InsertDescStable(s: seq<MergedItem>, x: MergedItem, c: real)
    requires SortedDesc(s)
    ensures WithConf(InsertDesc(s, x), c) == WithConf(s, c) + (if Conf(x) == c then [x] else [])
  {
    if |s| == 0 {
    } else if Conf(s[0]) < Conf(x) {
      if Conf(x) == c {
        AllBelow(s, c);
      }
      assert ([x] + s)[1..] == s;
    } else {
      var t := s[1..];
      assert SortedDesc(t);
      InsertDescStable(t, x, c);
      assert ([s[0]] + InsertDesc(t, x))[1..] == InsertDesc(t, x);
    }
  }

  /** In a descending list whose head is below `c`, nothing has confidence `c`. */
  lemma {:induction false} AllBelow(s: seq<MergedItem>, c: real)
    requires SortedDesc(s) && |s| > 0 && Conf(s[0]) < c
    ensures WithConf(s, c) == []
  {
    if |s| > 1 {
      var t := s[1..];
      assert SortedDesc(t);
      assert Conf(t[0]) <= Conf(s[0]);
      AllBelow(t, c);
    }
  }

  lemma {:induction false} WithConfAppend(a: seq<MergedItem>, b: seq<MergedItem>, c: real)
    ensures WithConf(a + b, c) == WithConf(a, c) + WithConf(b, c)
  {
    if |a| == 0 {
      assert a + b == b;
    } else {
      var ab := a + b;
      assert ab[0] == a[0] && ab[1..] == a[1..] + b;
      WithConfAppend(a[1..], b, c);
      assert WithConf(ab, c) == (if Conf(a[0]) == c then [a[0]] else []) + WithConf(a[1..] + b, c);
    }
  }

  /**
   * The sort orders by descending confidence, is a permutation of its input, and is
   * stable: the records of any one confidence keep their input order.
   */
  lemma SortByConfidenceFacts(xs: seq<MergedItem>)
    ensures SortedDesc(SortByConfidence(xs))
    ensures multiset(SortByConfidence(xs)) == multiset(xs)
    ensures forall c :: WithConf(SortByConfidence(xs), c) == WithConf(xs, c)
  {
    SortByConfidenceSorted(xs);
    SortByConfidenceMultiset(xs);
    forall c ensures WithConf(SortByConfidence(xs), c) == WithConf(xs, c) {
      SortByConfidenceStable(xs, c);
    }
  }

  lemma {:induction false} SortByConfidenceSorted(xs: seq<MergedItem>)
    ensures SortedDesc(SortByConfidence(xs))
  {
    if |xs| > 0 {
      SortByConfidenceSorted(xs[..|xs| - 1]);
      InsertDescSorted(SortByConfidence(xs[..|xs| - 1]), xs[|xs| - 1]);
    }
  }

  lemma {:induction false} SortByConfidenceMultiset(xs: seq<MergedItem>)
    ensures multiset(SortByConfidence(xs)) == multiset(xs)
  {
    if |xs| > 0 {
      var n := |xs| - 1;
      SortByConfidenceMultiset(xs[..n]);
      InsertDescMultiset(SortByConfidence(xs[..n]), xs[n]);
      assert xs == xs[..n] + [xs[n]];
    }
  }

  lemma {:induction false} SortByConfidenceStable(xs: seq<MergedItem>, c: real)
    ensures WithConf(SortByConfidence(xs), c) == WithConf(xs, c)
  {
    if |xs| > 0 {
      var n := |xs| - 1;
      var p := xs[..n];
      SortByConfidenceStable(p, c);
      SortByConfidenceSorted(p);
      InsertDescStable(SortByConfidence(p), xs[n], c);
      assert xs == p + [xs[n]];
      WithConfAppend(p, [xs[n]], c);
      assert WithConf([xs[n]], c) == (if Conf(xs[n]) == c then [xs[n]] else []) + WithConf([xs[n]][1..], c);
    }
  }


  /** `mergeAnalysisResults`: the unsorted records, reordered by descending confidence, stably. */
  lemma MergeResultsFacts(privacy: seq<Collection>, config: seq<Collection>)
    ensures SortedDesc(MergeResults(privacy, config))
    ensures multiset(MergeResults(privacy, config)) == multiset(MergeUnsorted(privacy, config))
    ensures forall c :: WithConf(MergeResults(privacy, config), c) == WithConf(MergeUnsorted(privacy, config), c)
  {
    SortByConfidenceFacts(MergeUnsorted(privacy, config));
  }

  // ---------------------------------------------------------------- report

  /** The merged records with status `st`. */
  function WithStatus(ms: seq<MergedItem>, st: MergeStatus): seq<MergedItem> {
    if |ms| == 0 then []
    else WithStatus(ms[..|ms| - 1], st) + (if ms[|ms| - 1].status == st then [ms[|ms| - 1]] else [])
  }

  lemma {:induction false} WithStatusExact(ms: seq<MergedItem>, st: MergeStatus)
    ensures forall m :: m in WithStatus(ms, st) <==> m in ms && m.status == st
  {
    if |ms| > 0 {
      WithStatusExact(ms[..|ms| - 1], st);
      assert ms == ms[..|ms| - 1] + [ms[|ms| - 1]];
    }
  }

  /** Every merged record has exactly one of the three statuses. */
  lemma {:induction false} StatusPartition(ms: seq<MergedItem>)
    ensures |WithStatus(ms, Consistent)| + |WithStatus(ms, PrivacyOnly)| + |WithStatus(ms, ConfigOnly)| == |ms|
  {
    if |ms| > 0 {
      StatusPartition(ms[..|ms| - 1]);
    }
  }

  function InfoTypeNames(ms: seq<MergedItem>): (names: seq<string>)
    ensures |names| == |ms|
    ensures forall i :: 0 <= i < |ms| ==> names[i] == ms[i].item.infoTypeName
  {
    seq(|ms|, i requires 0 <= i < |ms| => ms[i].item.infoTypeName)
  }

  /** One collection recommendation `{type, title, content, items, priority}` (`kind` holds `type`). */
  datatype CollectionAdvice = CollectionAdvice(kind: string, title: string, content: string, items: seq<string>, priority: string)

  function PrivacyOnlyAdvice(found: seq<MergedItem>): (a: CollectionAdvice)
    ensures a.kind == "warning" && a.priority == "medium" && a.items == InfoTypeNames(found)
  {
    CollectionAdvice("warning", "隐私条款信息未在配置中体现",
                     "发现 " + NatToString(|found|) + " 项信息收集在隐私条款中说明但未在配置文件中声明权限，建议检查是否需要相应权限。",
                     InfoTypeNames(found), "medium")
  }

  function ConfigOnlyAdvice(found: seq<MergedItem>): (a: CollectionAdvice)
    ensures a.kind == "info" && a.priority == "high" && a.items == InfoTypeNames(found)
  {
    CollectionAdvice("info", "配置权限未在隐私条款中说明",
                     "发现 " + NatToString(|found|) + " 项权限已在配置文件中声明但未在隐私条款中详细说明，建议完善隐私条款。",
                     InfoTypeNames(found), "high")
  }

  function ConsistentAdvice(found: seq<MergedItem>): (a: CollectionAdvice)
    ensures a.kind == "success" && a.priority == "low" && a.items == InfoTypeNames(found)
  {
    CollectionAdvice("success", "信息收集声明一致",
                     NatToString(|found|) + " 项信息收集在隐私条款和配置文件中保持一致，符合规范要求。",
                     InfoTypeNames(found), "low")
  }

  /** `generateCollectionRecommendations`: one advice per non-empty status group, in the order privacy-only, config-only, consistent. */
  function CollectionRecommendations(ms: seq<MergedItem>): seq<CollectionAdvice> {
    var po := WithStatus(ms, PrivacyOnly);
    var co := WithStatus(ms, ConfigOnly);
    var cs := WithStatus(ms, Consistent);
    (if |po| > 0 then [PrivacyOnlyAdvice(po)] else [])
    + (if |co| > 0 then [ConfigOnlyAdvice(co)] else [])
    + (if |cs| > 0 then [ConsistentAdvice(cs)] else [])
  }

  /**
   * There is a warning exactly when some record is privacy-only, an info advice exactly
   * when some record is config-only, a success advice exactly when some record is
   * consistent, and no advice at all exactly when nothing was merged.
   */
  lemma CollectionRecommendationsFacts(ms: seq<MergedItem>)
    ensures var r := CollectionRecommendations(ms);
            |r| <= 3
            && (r == [] <==> |ms| == 0)
            && ((exists a :: a in r && a.kind == "warning") <==> exists m :: m in ms && m.status == PrivacyOnly)
            && ((exists a :: a in r && a.kind == "info") <==> exists m :: m in ms && m.status == ConfigOnly)
            && ((exists a :: a in r && a.kind == "success") <==> exists m :: m in ms && m.status == Consistent)
  {
    StatusPartition(ms);
    StatusPresent(ms, PrivacyOnly);
    StatusPresent(ms, ConfigOnly);
    StatusPresent(ms, Consistent);
  }

  function AdviceKinds(r: seq<CollectionAdvice>): (kinds: seq<string>)
    ensures |kinds| == |r| && forall i :: 0 <= i < |r| ==> kinds[i] == r[i].kind
  {
    seq(|r|, i requires 0 <= i < |r| => r[i].kind)
  }

  /** The advices come in the fixed order warning (privacy-only), info (config-only), success (consistent). */
  lemma CollectionRecommendationsOrder(ms: seq<MergedItem>)
    ensures AdviceKinds(CollectionRecommendations(ms)) ==
              (if exists m :: m in ms && m.status == PrivacyOnly then ["warning"] else [])
              + (if exists m :: m in ms && m.status == ConfigOnly then ["info"] else [])
              + (if exists m :: m in ms && m.status == Consistent then ["success"] else [])
  {
    StatusPresent(ms, PrivacyOnly);
    StatusPresent(ms, ConfigOnly);
    StatusPresent(ms, Consistent);
  }

  /**
   * The warning (medium) lists the names of the privacy-only records, the info advice
   * (high) those of the config-only records, the success (low) those of the consistent
   * ones, each in merged order.
   */
  lemma CollectionRecommendationItems(ms: seq<MergedItem>)
    ensures forall a :: a in CollectionRecommendations(ms) && a.kind == "warning" ==>
              a.priority == "medium" && a.items == InfoTypeNames(WithStatus(ms, PrivacyOnly))
    ensures forall a :: a in CollectionRecommendations(ms) && a.kind == "info" ==>
              a.priority == "high" && a.items == InfoTypeNames(WithStatus(ms, ConfigOnly))
    ensures forall a :: a in CollectionRecommendations(ms) && a.kind == "success" ==>
              a.priority == "low" && a.items == InfoTypeNames(WithStatus(ms, Consistent))
  {
    var po, co, cs := WithStatus(ms, PrivacyOnly), WithStatus(ms, ConfigOnly), WithStatus(ms, Consistent);
    var p := if |po| > 0 then [PrivacyOnlyAdvice(po)] else [];
    var c := if |co| > 0 then [ConfigOnlyAdvice(co)] else [];
    var k := if |cs| > 0 then [ConsistentAdvice(cs)] else [];
    assert CollectionRecommendations(ms) == p + c + k;
    AdvicesApart(p, c, k, InfoTypeNames(po), InfoTypeNames(co), InfoTypeNames(cs));
  }

  /** Three lists of advices, each of one kind, keep their kinds apart once concatenated. */
  lemma AdvicesApart(p: seq<CollectionAdvice>, c: seq<CollectionAdvice>, k: seq<CollectionAdvice>,
                     pItems: seq<string>, cItems: seq<string>, kItems: seq<string>)
    requires forall a :: a in p ==> a.kind == "warning" && a.priority == "medium" && a.items == pItems
    requires forall a :: a in c ==> a.kind == "info" && a.priority == "high" && a.items == cItems
    requires forall a :: a in k ==> a.kind == "success" && a.priority == "low" && a.items == kItems
    ensures forall a :: a in p + c + k && a.kind == "warning" ==> a.priority == "medium" && a.items == pItems
    ensures forall a :: a in p + c + k && a.kind == "info" ==> a.priority == "high" && a.items == cItems
    ensures forall a :: a in p + c + k && a.kind == "success" ==> a.priority == "low" && a.items == kItems
  {
  }

  lemma StatusPresent(ms: seq<MergedItem>, st: MergeStatus)
    ensures |WithStatus(ms, st)| > 0 <==> exists m :: m in ms && m.status == st
  {
    WithStatusExact(ms, st);
    if |WithStatus(ms, st)| > 0 {
      assert WithStatus(ms, st)[0] in WithStatus(ms, st);
    }
  }

  /** The personal-information keywords (original spelling) whose lower-cased form occurs in `textLower`. */
  function KeywordsHit(textLower: string, keywords: seq<string>): seq<string> {
    if |keywords| == 0 then []
    else
      var k := keywords[|keywords| - 1];
      KeywordsHit(textLower, keywords[..|keywords| - 1]) + (if Contains(textLower, ToLower(k)) then [k] else [])
  }

  function KeywordsFound(textLower: string, rows: seq<InfoPattern>): seq<string> {
    if |rows| == 0 then []
    else KeywordsFound(textLower, rows[..|rows| - 1]) + KeywordsHit(textLower, rows[|rows| - 1].keywords)
  }

  /** `extractKeywordsFromText`: the first five keywords found, in table order. */
  function KeywordsFromText(text: string): seq<string> {
    var found := KeywordsFound(ToLower(text), PersonalInfo);
    found[..Min(5, |found|)]
  }

  method KeywordsHitIn(textLower: string, keywords: seq<string>) returns (found: seq<string>)
    ensures found == KeywordsHit(textLower, keywords)
  {
    found := [];
    var i := 0;
    while i < |keywords|
      invariant 0 <= i <= |keywords|
      invariant found == KeywordsHit(textLower, keywords[..i])
    {
      if Contains(textLower, ToLower(keywords[i])) {
        found := found + [keywords[i]];
      }
      assert keywords[..i + 1][..i] == keywords[..i];
      i := i + 1;
    }
    assert keywords[..i] == keywords;
  }

  method KeywordsFoundIn(textLower: string, rows: seq<InfoPattern>) returns (found: seq<string>)
    ensures found == KeywordsFound(textLower, rows)
  {
    found := [];
    var i := 0;
    while i < |rows|
      invariant 0 <= i <= |rows|
      invariant found == KeywordsFound(textLower, rows[..i])
    {
      var hits := KeywordsHitIn(textLower, rows[i].keywords);
      found := found + hits;
      assert rows[..i + 1][..i] == rows[..i];
      i := i + 1;
    }
    assert rows[..i] == rows;
  }

  method ExtractKeywordsFromText(text: string) returns (keywords: seq<string>)
    ensures keywords == KeywordsFromText(text)
  {
    var found := KeywordsFoundIn(ToLower(text), PersonalInfo);
    keywords := found[..Min(5, |found|)];
  }

  lemma {:induction false} KeywordsHitExact(textLower: string, keywords: seq<string>)
    ensures forall k :: k in KeywordsHit(textLower, keywords) <==> k in keywords && Contains(textLower, ToLower(k))
  {
    if |keywords| > 0 {
      KeywordsHitExact(textLower, keywords[..|keywords| - 1]);
      assert keywords == keywords[..|keywords| - 1] + [keywords[|keywords| - 1]];
    }
  }

  lemma {:induction false} KeywordsFoundSound(textLower: string, rows: seq<InfoPattern>)
    ensures forall k :: k in KeywordsFound(textLower, rows) ==>
              Contains(textLower, ToLower(k)) && exists i :: 0 <= i < |rows| && k in rows[i].keywords
  {
    if |rows| > 0 {
      var n := |rows| - 1;
      KeywordsFoundSound(textLower, rows[..n]);
      KeywordsHitExact(textLower, rows[n].keywords);
      forall k | k in KeywordsFound(textLower, rows)
        ensures Contains(textLower, ToLower(k)) && exists i :: 0 <= i < |rows| && k in rows[i].keywords
      {
        if k in KeywordsFound(textLower, rows[..n]) {
          var i :| 0 <= i < n && k in rows[..n][i].keywords;
          assert k in rows[i].keywords;
        }
      }
    }
  }

  /** At most five keywords, each a table keyword that occurs in the lower-cased text. */
  /** Every keyword of the table, row after row. */
  function AllKeywords(rows: seq<InfoPattern>): (ks: seq<string>)
    ensures forall k :: k in ks <==> exists i :: 0 <= i < |rows| && k in rows[i].keywords
  {
    if |rows| == 0 then []
    else
      var n := |rows| - 1;
      var ks := AllKeywords(rows[..n]) + rows[n].keywords;
      assert forall k :: k in ks <==> k in AllKeywords(rows[..n]) || k in rows[n].keywords;
      assert forall i :: 0 <= i < n ==> rows[..n][i] == rows[i];
      ks
  }

  lemma {:induction false} KeywordsHitAppend(textLower: string, a: seq<string>, b: seq<string>)
    ensures KeywordsHit(textLower, a + b) == KeywordsHit(textLower, a) + KeywordsHit(textLower, b)
    decreases |b|
  {
    if |b| == 0 {
      assert a + b == a;
    } else {
      var n := |b| - 1;
      KeywordsHitAppend(textLower, a, b[..n]);
      assert (a + b)[..|a + b| - 1] == a + b[..n];
    }
  }

  /** The nested loops scan the table's keywords in order: one ordered filter over all of them. */
  lemma {:induction false} KeywordsFoundFlat(textLower: string, rows: seq<InfoPattern>)
    ensures KeywordsFound(textLower, rows) == KeywordsHit(textLower, AllKeywords(rows))
  {
    if |rows| > 0 {
      var n := |rows| - 1;
      KeywordsFoundFlat(textLower, rows[..n]);
      KeywordsHitAppend(textLower, AllKeywords(rows[..n]), rows[n].keywords);
    }
  }

  /**
   * `extractKeywordsFromText`: the first five table keywords, in table order, whose
   * lower-cased form occurs in the lower-cased text; when fewer than five are found,
   * every such keyword is there.
   */
  lemma KeywordsFromTextFacts(text: string)
    ensures |KeywordsFromText(text)| <= 5
    ensures var found := KeywordsHit(ToLower(text), AllKeywords(PersonalInfo));
            KeywordsFromText(text) == found[..Min(5, |found|)]
    ensures forall k :: k in KeywordsFromText(text) ==>
              Contains(ToLower(text), ToLower(k)) && exists i :: 0 <= i < |PersonalInfo| && k in PersonalInfo[i].keywords
    ensures |KeywordsFromText(text)| < 5 ==>
              forall k :: k in AllKeywords(PersonalInfo) && Contains(ToLower(text), ToLower(k)) ==> k in KeywordsFromText(text)
  {
    FirstFoundFacts(ToLower(text), PersonalInfo);
  }

  lemma FirstFoundFacts(t: string, rows: seq<InfoPattern>)
    ensures var found := KeywordsFound(t, rows);
            var r := found[..Min(5, |found|)];
            |r| <= 5
            && r == KeywordsHit(t, AllKeywords(rows))[..Min(5, |KeywordsHit(t, AllKeywords(rows))|)]
            && (forall k :: k in r ==> Contains(t, ToLower(k)) && exists i :: 0 <= i < |rows| && k in rows[i].keywords)
            && (|r| < 5 ==> forall k :: k in AllKeywords(rows) && Contains(t, ToLower(k)) ==> k in r)
  {
    KeywordsFoundSound(t, rows);
    KeywordsFoundFlat(t, rows);
    KeywordsHitExact(t, AllKeywords(rows));
  }

  predicate NonEmptyKeywords(rows: seq<InfoPattern>) {
    forall i, k :: 0 <= i < |rows| && 0 <= k < |rows[i].keywords| ==> |rows[i].keywords[k]| > 0
  }

  lemma PersonalInfoNonEmpty()
    ensures NonEmptyKeywords(PersonalInfo)
  {
  }

  lemma {:induction false} NoHitsInEmpty(keywords: seq<string>)
    requires forall k :: 0 <= k < |keywords| ==> |keywords[k]| > 0
    ensures KeywordsHit("", keywords) == []
  {
    if |keywords| > 0 {
      var n := |keywords| - 1;
      NoHitsInEmpty(keywords[..n]);
      assert |ToLower(keywords[n])| > 0;
      assert !Contains("", ToLower(keywords[n]));
    }
  }

  /** The empty text mentions no keyword of a table without empty keywords. */
  lemma {:induction false} NoKeywordsInEmpty(rows: seq<InfoPattern>)
    requires NonEmptyKeywords(rows)
    ensures KeywordsFound("", rows) == []
  {
    if |rows| > 0 {
      var n := |rows| - 1;
      assert NonEmptyKeywords(rows[..n]);
      NoKeywordsInEmpty(rows[..n]);
      NoHitsInEmpty(rows[n].keywords);
    }
  }

  /** The empty text yields no keyword. */
  lemma KeywordsFromEmptyText()
    ensures KeywordsFromText("") == []
  {
    PersonalInfoNonEmpty();
    NoKeywordsInEmpty(PersonalInfo);
    assert ToLower("") == "";
  }

  /** `generateDescriptionFromContext` for an empty context. */
  function DescriptionWithoutContext(infoType: string): string {
    "检测到" + InfoTypeName(infoType) + "相关信息收集"
  }

  /** A privacy record with the `keywords` and `description` `generateCollectionReport` adds. */
  datatype PrivacyDetail = PrivacyDetail(item: Collection, keywords: seq<string>, description: string)

  /** A config record with the `platform` `generateCollectionReport` adds. */
  datatype ConfigDetail = ConfigDetail(item: Collection, platform: string)

  /** `inferPlatformFromPermission`: the platform a permission key's prefix names. */
  function PlatformOfPermission(permission: Option<string>): (platform: string)
    ensures permission.None? || permission == Some("") ==> platform == "Unknown"
    ensures permission.Some? && StartsWith(permission.value, "NS") ==> platform == "iOS/macOS"
    ensures permission.Some? && !StartsWith(permission.value, "NS") ==>
              (platform == "Android" <==> StartsWith(permission.value, "android.permission"))
    ensures permission.Some? && !StartsWith(permission.value, "NS") && !StartsWith(permission.value, "android.permission") ==>
              (platform == "HarmonyOS" <==> StartsWith(permission.value, "ohos.permission"))
    ensures permission.Some? && !StartsWith(permission.value, "NS") && !StartsWith(permission.value, "android.permission")
            && !StartsWith(permission.value, "ohos.permission") ==>
              (platform == "Windows" <==> Contains(permission.value, "Capability"))
    ensures platform in {"iOS/macOS", "Android", "HarmonyOS", "Windows", "Unknown"}
  {
    match permission
    case None => "Unknown"
    case Some(p) =>
      if p == "" then "Unknown"
      else if StartsWith(p, "NS") then "iOS/macOS"
      else if StartsWith(p, "android.permission") then "Android"
      else if StartsWith(p, "ohos.permission") then "HarmonyOS"
      else if Contains(p, "Capability") then "Windows"
      else "Unknown"
  }

  datatype CollectionSummary = CollectionSummary(totalTypes: nat, consistent: nat, privacyOnly: nat, configOnly: nat)

  datatype CollectionReport = CollectionReport(
    summary: CollectionSummary, collections: seq<MergedItem>, recommendations: seq<CollectionAdvice>,
    privacyDetails: seq<PrivacyDetail>, configDetails: seq<ConfigDetail>)

  /**
   * `generateCollectionReport`: the number of merged records of each status, which
   * together make up all of them, the merged list and its recommendations, and the
   * input records with their added fields. Privacy records never carry a `context`,
   * so each privacy detail gets the keywords and description of the empty context.
   */
  function GenerateCollectionReport(merged: seq<MergedItem>, privacy: seq<Collection>, config: seq<Collection>): (r: CollectionReport)
    ensures r.summary.totalTypes == |merged| == r.summary.consistent + r.summary.privacyOnly + r.summary.configOnly
    ensures r.summary.consistent == |WithStatus(merged, Consistent)|
    ensures r.summary.privacyOnly == |WithStatus(merged, PrivacyOnly)|
    ensures r.summary.configOnly == |WithStatus(merged, ConfigOnly)|
    ensures r.collections == merged && r.recommendations == CollectionRecommendations(merged)
    ensures |r.privacyDetails| == |privacy| && |r.configDetails| == |config|
    ensures forall i :: 0 <= i < |privacy| ==>
              r.privacyDetails[i].item == privacy[i] && r.privacyDetails[i].keywords == []
              && r.privacyDetails[i].description == DescriptionWithoutContext(privacy[i].infoType)
    ensures forall i :: 0 <= i < |config| ==>
              r.configDetails[i].item == config[i] && r.configDetails[i].platform == PlatformOfPermission(config[i].permission)
  {
    StatusPartition(merged);
    var summary := CollectionSummary(|merged|, |WithStatus(merged, Consistent)|, |WithStatus(merged, PrivacyOnly)|,
                                     |WithStatus(merged, ConfigOnly)|);
    CollectionReport(summary, merged, CollectionRecommendations(merged), PrivacyDetails(privacy), ConfigDetails(config))
  }

  /** `enhancedPrivacyDetails`: each privacy record with the keywords and description of its (empty) context. */
  function PrivacyDetails(privacy: seq<Collection>): (ds: seq<PrivacyDetail>)
    ensures |ds| == |privacy|
    ensures forall i :: 0 <= i < |privacy| ==>
              ds[i].item == privacy[i] && ds[i].keywords == [] && ds[i].description == DescriptionWithoutContext(privacy[i].infoType)
  {
    KeywordsFromEmptyText();
    seq(|privacy|, i requires 0 <= i < |privacy| =>
        PrivacyDetail(privacy[i], KeywordsFromText(""), DescriptionWithoutContext(privacy[i].infoType)))
  }

  /** `enhancedConfigDetails`: each config record with the platform its permission key names. */
  function ConfigDetails(config: seq<Collection>): (ds: seq<ConfigDetail>)
    ensures |ds| == |config|
    ensures forall i :: 0 <= i < |config| ==>
              ds[i].item == config[i] && ds[i].platform == PlatformOfPermission(config[i].permission)
  {
    seq(|config|, i requires 0 <= i < |config| => ConfigDetail(config[i], PlatformOfPermission(config[i].permission)))
  }
}
