/**
 * `PermissionAnalyzer` of parser.js: the two-way comparison between the permissions a
 * configuration file declares and the permission types a privacy text mentions, the
 * compliance report and its rule-based recommendations.
 */
module PermissionAnalysis {
  import opened Text
  import opened Manifest
  import opened Keywords

  /** One row of `privacyKeywords`: a permission type and the words that reveal it. */
  datatype KeywordRow = KeywordRow(kind: string, keywords: seq<string>)

  const PrivacyKeywords: seq<KeywordRow> := [
    KeywordRow("camera", ["相机", "摄像", "拍照", "录像", "camera", "photo", "video"]),
    KeywordRow("microphone", ["麦克风", "录音", "语音", "microphone", "audio", "record"]),
    KeywordRow("location", ["位置", "定位", "地理", "location", "gps", "coordinate"]),
    KeywordRow("contacts", ["通讯录", "联系人", "contacts", "address book"]),
    KeywordRow("storage", ["存储", "文件", "相册", "storage", "file", "photo", "gallery"]),
    KeywordRow("phone", ["电话", "通话", "phone", "call"]),
    KeywordRow("sms", ["短信", "消息", "sms", "message"]),
    KeywordRow("calendar", ["日历", "日程", "calendar", "event"]),
    KeywordRow("biometric", ["指纹", "面容", "生物识别", "fingerprint", "face id", "biometric"]),
    KeywordRow("network", ["网络", "联网", "network", "internet"]),
    KeywordRow("bluetooth", ["蓝牙", "bluetooth"]),
    KeywordRow("health", ["健康", "运动", "health", "fitness"]),
    KeywordRow("media", ["媒体", "音乐", "media", "music"])
  ]

  predicate DistinctKinds(rows: seq<KeywordRow>) {
    forall i, j :: 0 <= i < j < |rows| ==> rows[i].kind != rows[j].kind
  }

  lemma PrivacyKeywordsDistinct()
    ensures DistinctKinds(PrivacyKeywords)
  {
  }

  /** `rows[kind] || []`: the words of the first row for `kind`, or none. */
  function KeywordsIn(rows: seq<KeywordRow>, kind: string): (r: seq<string>)
    ensures (exists i :: 0 <= i < |rows| && rows[i].kind == kind && r == rows[i].keywords)
            || (r == [] && forall i :: 0 <= i < |rows| ==> rows[i].kind != kind)
  {
    if |rows| == 0 then []
    else if rows[0].kind == kind then rows[0].keywords
    else
      var r := KeywordsIn(rows[1..], kind);
      assert (exists i :: 0 <= i < |rows[1..]| && rows[1..][i].kind == kind && r == rows[1..][i].keywords) ==>
             (exists i :: 0 <= i < |rows| && rows[i].kind == kind && r == rows[i].keywords) by {
        if exists i :: 0 <= i < |rows[1..]| && rows[1..][i].kind == kind && r == rows[1..][i].keywords {
          var i :| 0 <= i < |rows[1..]| && rows[1..][i].kind == kind && r == rows[1..][i].keywords;
          assert rows[i + 1] == rows[1..][i];
        }
      }
      r
  }

  /** With distinct kinds, the words found for a row's kind are that row's words. */
  lemma KeywordsInRow(rows: seq<KeywordRow>, i: int)
    requires DistinctKinds(rows) && 0 <= i < |rows|
    ensures KeywordsIn(rows, rows[i].kind) == rows[i].keywords
  {
  }

  function KeywordsOf(kind: string): seq<string> {
    KeywordsIn(PrivacyKeywords, kind)
  }

  /** `checkPermissionInPrivacy`: whether a word of the permission's type occurs in the lower-cased text. */
  method CheckPermissionInPrivacy(p: Permission, privacyLower: string) returns (found: bool)
    ensures found <==> MentionsAny(privacyLower, KeywordsOf(p.kind))
  {
    found := ScanKeywords(privacyLower, KeywordsOf(p.kind));
  }

  /** `getPermissionName`: the fixed display name of a type, else the type followed by `权限`. */
  function PermissionName(kind: string): (name: string)
    ensures (kind !in {"camera", "microphone", "location", "contacts", "storage", "phone", "sms",
                       "calendar", "biometric", "network", "bluetooth", "health", "media"})
            ==> name == kind + "权限"
  {
    match kind
    case "camera" => "相机权限"
    case "microphone" => "麦克风权限"
    case "location" => "位置权限"
    case "contacts" => "通讯录权限"
    case "storage" => "存储权限"
    case "phone" => "电话权限"
    case "sms" => "短信权限"
    case "calendar" => "日历权限"
    case "biometric" => "生物识别权限"
    case "network" => "网络权限"
    case "bluetooth" => "蓝牙权限"
    case "health" => "健康权限"
    case "media" => "媒体权限"
    case _ => kind + "权限"
  }

  /** A permission type the privacy text mentions. */
  datatype Mention = Mention(kind: string, name: string, description: string)

  function MentionFor(kind: string): Mention {
    Mention(kind, PermissionName(kind), "隐私条款中提及的" + PermissionName(kind))
  }

  /** The mentions `findMentionedPermissions` emits for `rows`: one per row with a word in the text. */
  function MentionedOf(text: string, rows: seq<KeywordRow>): seq<Mention> {
    if |rows| == 0 then []
    else
      var last := rows[|rows| - 1];
      MentionedOf(text, rows[..|rows| - 1]) + (if MentionsAny(text, last.keywords) then [MentionFor(last.kind)] else [])
  }

  /** The loop over the keyword table, for any table. */
  method MentionedIn(privacyLower: string, rows: seq<KeywordRow>) returns (mentioned: seq<Mention>)
    ensures mentioned == MentionedOf(privacyLower, rows)
  {
    mentioned := [];
    var i := 0;
    while i < |rows|
      invariant 0 <= i <= |rows|
      invariant mentioned == MentionedOf(privacyLower, rows[..i])
    {
      var hit := ScanKeywords(privacyLower, rows[i].keywords);
      if hit {
        mentioned := mentioned + [MentionFor(rows[i].kind)];
      }
      assert rows[..i + 1][..i] == rows[..i];
      i := i + 1;
    }
    assert rows[..i] == rows;
  }

  /** `findMentionedPermissions`. */
  method FindMentionedPermissions(privacyLower: string) returns (mentioned: seq<Mention>)
    ensures mentioned == MentionedOf(privacyLower, PrivacyKeywords)
  {
    mentioned := MentionedIn(privacyLower, PrivacyKeywords);
  }

  /** Every mention is the fixed record of a row with a word in the text; there are at most as many as rows. */
  lemma {:induction false} MentionedOnlyHits(text: string, rows: seq<KeywordRow>)
    ensures |MentionedOf(text, rows)| <= |rows|
    ensures forall m :: m in MentionedOf(text, rows) ==>
              m == MentionFor(m.kind) && exists i :: 0 <= i < |rows| && rows[i].kind == m.kind && MentionsAny(text, rows[i].keywords)
  {
    if |rows| > 0 {
      var n := |rows| - 1;
      var r' := rows[..n];
      MentionedOnlyHits(text, r');
      forall m | m in MentionedOf(text, rows)
        ensures m == MentionFor(m.kind) && exists i :: 0 <= i < |rows| && rows[i].kind == m.kind && MentionsAny(text, rows[i].keywords)
      {
        if m in MentionedOf(text, r') {
          var i :| 0 <= i < |r'| && r'[i].kind == m.kind && MentionsAny(text, r'[i].keywords);
          assert rows[i] == r'[i];
        } else {
          assert m == MentionFor(rows[n].kind) && MentionsAny(text, rows[n].keywords);
        }
      }
    }
  }

  /** With distinct kinds in the table, no type is mentioned twice. */
  lemma {:induction false} MentionedOnce(text: string, rows: seq<KeywordRow>)
    requires DistinctKinds(rows)
    ensures forall i, j :: 0 <= i < j < |MentionedOf(text, rows)| ==> MentionedOf(text, rows)[i].kind != MentionedOf(text, rows)[j].kind
  {
    if |rows| > 0 {
      var n := |rows| - 1;
      var r' := rows[..n];
      assert DistinctKinds(r');
      MentionedOnce(text, r');
      MentionedOnlyHits(text, r');
      var m' := MentionedOf(text, r');
      forall m | m in m' ensures m.kind != rows[n].kind {
        var i :| 0 <= i < |r'| && r'[i].kind == m.kind && MentionsAny(text, r'[i].keywords);
        assert rows[i].kind == m.kind;
      }
    }
  }

  /** A row with a word in the text always yields its mention, and with distinct kinds only such a row does. */
  lemma {:induction false} MentionedExact(text: string, rows: seq<KeywordRow>)
    requires DistinctKinds(rows)
    ensures forall i :: 0 <= i < |rows| ==>
              (MentionsAny(text, rows[i].keywords) <==> MentionFor(rows[i].kind) in MentionedOf(text, rows))
  {
    if |rows| > 0 {
      var n := |rows| - 1;
      var r' := rows[..n];
      assert DistinctKinds(r');
      MentionedExact(text, r');
      MentionedOnlyHits(text, r');
      assert MentionFor(rows[n].kind) !in MentionedOf(text, r');
      forall i | 0 <= i < n
        ensures MentionsAny(text, rows[i].keywords) <==> MentionFor(rows[i].kind) in MentionedOf(text, rows)
      {
        assert rows[i] == r'[i];
        assert MentionFor(rows[i].kind).kind != MentionFor(rows[n].kind).kind;
      }
    }
  }

  /** The three outcomes of the comparison. */
  datatype Status = Compliant | ConfigOnly | PrivacyOnly

  /** One row of `analyzeCompliance`'s result. */
  datatype ComplianceResult = ComplianceResult(
    name: string, kind: string, key: string, declared: bool, inPrivacy: bool,
    status: Status, description: string, category: string)

  /** The result for a declared permission, given whether the text mentions its type. */
  function DeclaredResult(p: Permission, inPrivacy: bool): ComplianceResult {
    ComplianceResult(p.name, p.kind, p.key, true, inPrivacy,
                     if inPrivacy then Compliant else ConfigOnly, p.description,
                     if inPrivacy then "合规权限" else "仅配置文件声明")
  }

  /** The result for a mentioned type that no declared permission has. */
  function UndeclaredResult(m: Mention): ComplianceResult {
    ComplianceResult(m.name, m.kind, "", false, true, PrivacyOnly, m.description, "仅隐私条款提及")
  }

  /** The results for the declared permissions: one each, in order. */
  function DeclaredResults(perms: seq<Permission>, privacyLower: string): seq<ComplianceResult> {
    MapSeq(perms, (p: Permission) => DeclaredResult(p, MentionsAny(privacyLower, KeywordsOf(p.kind))))
  }

  function UndeclaredResults(mentioned: seq<Mention>, declared: set<string>): seq<ComplianceResult> {
    if |mentioned| == 0 then []
    else
      var m := mentioned[|mentioned| - 1];
      UndeclaredResults(mentioned[..|mentioned| - 1], declared) + (if m.kind !in declared then [UndeclaredResult(m)] else [])
  }

  /** `new Set(configPermissions.map(p => p.type))`. */
  function DeclaredKinds(perms: seq<Permission>): set<string> {
    set i | 0 <= i < |perms| :: perms[i].kind
  }

  /** The whole of `analyzeCompliance`: declared permissions in order, then undeclared mentions. */
  function ComplianceOf(perms: seq<Permission>, privacyText: string): seq<ComplianceResult> {
    var lower := ToLower(privacyText);
    DeclaredResults(perms, lower) + UndeclaredResults(MentionedOf(lower, PrivacyKeywords), DeclaredKinds(perms))
  }

  /** The first loop of `analyzeCompliance`: one result per declared permission. */
  method ResultsForDeclared(perms: seq<Permission>, privacyLower: string) returns (results: seq<ComplianceResult>)
    ensures results == DeclaredResults(perms, privacyLower)
  {
    results := [];
    var i := 0;
    while i < |perms|
      invariant 0 <= i <= |perms|
      invariant results == DeclaredResults(perms[..i], privacyLower)
    {
      var inPrivacy := CheckPermissionInPrivacy(perms[i], privacyLower);
      results := results + [DeclaredResult(perms[i], inPrivacy)];
      assert perms[..i + 1][..i] == perms[..i];
      i := i + 1;
    }
    assert perms[..i] == perms;
  }

  /** The second loop of `analyzeCompliance`: one result per mention whose type is not declared. */
  method ResultsForUndeclared(mentioned: seq<Mention>, declared: set<string>) returns (results: seq<ComplianceResult>)
    ensures results == UndeclaredResults(mentioned, declared)
  {
    results := [];
    var j := 0;
    while j < |mentioned|
      invariant 0 <= j <= |mentioned|
      invariant results == UndeclaredResults(mentioned[..j], declared)
    {
      if mentioned[j].kind !in declared {
        results := results + [UndeclaredResult(mentioned[j])];
      }
      assert mentioned[..j + 1][..j] == mentioned[..j];
      j := j + 1;
    }
    assert mentioned[..j] == mentioned;
  }

  method AnalyzeCompliance(perms: seq<Permission>, privacyText: string) returns (results: seq<ComplianceResult>)
    ensures results == ComplianceOf(perms, privacyText)
  {
    var lower := ToLower(privacyText);
    var declaredResults := ResultsForDeclared(perms, lower);
    var mentioned := FindMentionedPermissions(lower);
    var undeclaredResults := ResultsForUndeclared(mentioned, DeclaredKinds(perms));
    results := declaredResults + undeclaredResults;
  }

  lemma {:induction false} UndeclaredResultsExact(mentioned: seq<Mention>, declared: set<string>)
    ensures forall r :: r in UndeclaredResults(mentioned, declared) ==>
              exists m :: m in mentioned && m.kind !in declared && r == UndeclaredResult(m)
    ensures forall m :: m in mentioned && m.kind !in declared ==> UndeclaredResult(m) in UndeclaredResults(mentioned, declared)
    ensures forall i, j :: 0 <= i < j < |UndeclaredResults(mentioned, declared)| ==>
              (forall a, b :: 0 <= a < b < |mentioned| ==> mentioned[a].kind != mentioned[b].kind) ==>
              UndeclaredResults(mentioned, declared)[i].kind != UndeclaredResults(mentioned, declared)[j].kind
  {
    if |mentioned| > 0 {
      var m' := mentioned[..|mentioned| - 1];
      UndeclaredResultsExact(m', declared);
      var last := mentioned[|mentioned| - 1];
      forall m | m in mentioned && m.kind !in declared ensures UndeclaredResult(m) in UndeclaredResults(mentioned, declared) {
        if m != last { assert m in m'; }
      }
      if forall a, b :: 0 <= a < b < |mentioned| ==> mentioned[a].kind != mentioned[b].kind {
        forall r | r in UndeclaredResults(m', declared) ensures r.kind != last.kind {
          var m :| m in m' && m.kind !in declared && r == UndeclaredResult(m);
          var a :| 0 <= a < |m'| && m'[a] == m;
          assert mentioned[a] == m;
        }
      }
    }
  }

  /**
   * One result per declared permission, in order: `compliant` exactly when a word of its
   * type occurs in the lower-cased text, otherwise `config_only`. After them, one
   * `privacy_only` result per mentioned type that no declared permission has, each type
   * once, and no other results.
   */
  lemma ComplianceExact(perms: seq<Permission>, privacyText: string)
    ensures var r := ComplianceOf(perms, privacyText);
            var lower := ToLower(privacyText);
            |r| >= |perms|
            && (forall i :: 0 <= i < |perms| ==>
                  r[i].key == perms[i].key && r[i].name == perms[i].name && r[i].kind == perms[i].kind && r[i].declared
                  && (r[i].status == Compliant <==> MentionsAny(lower, KeywordsOf(perms[i].kind)))
                  && (r[i].status != Compliant ==> r[i].status == ConfigOnly))
            && (forall i :: |perms| <= i < |r| ==>
                  r[i].status == PrivacyOnly && r[i].key == "" && !r[i].declared
                  && r[i].kind !in DeclaredKinds(perms) && MentionsAny(lower, KeywordsOf(r[i].kind)))
            && (forall i, j :: |perms| <= i < j < |r| ==> r[i].kind != r[j].kind)
            && (forall k :: 0 <= k < |PrivacyKeywords| && PrivacyKeywords[k].kind !in DeclaredKinds(perms)
                            && MentionsAny(lower, PrivacyKeywords[k].keywords) ==>
                  UndeclaredResult(MentionFor(PrivacyKeywords[k].kind)) in r[|perms|..])
  {
    var lower := ToLower(privacyText);
    var declared := DeclaredKinds(perms);
    var ms := MentionedOf(lower, PrivacyKeywords);
    var d := DeclaredResults(perms, lower);
    var u := UndeclaredResults(ms, declared);
    var r := ComplianceOf(perms, privacyText);
    assert r == d + u;
    PrivacyKeywordsDistinct();
    MentionedExact(lower, PrivacyKeywords);
    MentionedOnlyHits(lower, PrivacyKeywords);
    MentionedOnce(lower, PrivacyKeywords);
    UndeclaredResultsExact(ms, declared);
    assert r[|perms|..] == u;
    forall i | |perms| <= i < |r|
      ensures r[i].status == PrivacyOnly && r[i].key == "" && !r[i].declared
              && r[i].kind !in declared && MentionsAny(lower, KeywordsOf(r[i].kind))
    {
      assert r[i] == u[i - |perms|];
      assert r[i] in u;
      var m :| m in ms && m.kind !in declared && r[i] == UndeclaredResult(m);
      var k :| 0 <= k < |PrivacyKeywords| && PrivacyKeywords[k].kind == m.kind && MentionsAny(lower, PrivacyKeywords[k].keywords);
      KeywordsInRow(PrivacyKeywords, k);
    }
    forall i, j | |perms| <= i < j < |r| ensures r[i].kind != r[j].kind {
      assert r[i] == u[i - |perms|] && r[j] == u[j - |perms|];
    }
  }

  /** The number of results with this status (`filter(r => r.status === s).length`). */
  function CountStatus(results: seq<ComplianceResult>, s: Status): (n: nat)
    ensures n <= |results|
  {
    if |results| == 0 then 0
    else CountStatus(results[..|results| - 1], s) + (if results[|results| - 1].status == s then 1 else 0)
  }

  /** The results with this status, in order. */
  function WithStatus(results: seq<ComplianceResult>, s: Status): seq<ComplianceResult> {
    if |results| == 0 then []
    else WithStatus(results[..|results| - 1], s) + (if results[|results| - 1].status == s then [results[|results| - 1]] else [])
  }

  lemma {:induction false} CountStatusPartition(results: seq<ComplianceResult>)
    ensures CountStatus(results, Compliant) + CountStatus(results, ConfigOnly) + CountStatus(results, PrivacyOnly) == |results|
    ensures |WithStatus(results, Compliant)| == CountStatus(results, Compliant)
    ensures |WithStatus(results, ConfigOnly)| == CountStatus(results, ConfigOnly)
    ensures |WithStatus(results, PrivacyOnly)| == CountStatus(results, PrivacyOnly)
  {
    if |results| > 0 {
      CountStatusPartition(results[..|results| - 1]);
    }
  }

  function Names(results: seq<ComplianceResult>): seq<string> {
    seq(|results|, i requires 0 <= i < |results| => results[i].name)
  }

  /** `Math.round(part / total * 100)` on exact rationals: round half up. */
  function RoundPercent(part: nat, total: nat): (r: nat)
    requires total > 0
    ensures r * (2 * total) <= 200 * part + total < (r + 1) * (2 * total)
  {
    (200 * part + total) / (2 * total)
  }

  /** Dividing both sides of a strict inequality by the same positive factor. */
  lemma MulLessCancel(a: int, b: int, c: int)
    requires c > 0 && a * c < b * c
    ensures a < b
  {
  }

  lemma RoundPercentBounds(part: nat, total: nat)
    requires 0 < total && part <= total
    ensures RoundPercent(part, total) <= 100
    ensures part == total ==> RoundPercent(part, total) == 100
    ensures part == 0 ==> RoundPercent(part, total) == 0
  {
    var r := RoundPercent(part, total);
    var t2 := 2 * total;
    assert r * t2 <= 200 * part + total < (r + 1) * t2;
    assert 101 * t2 == 202 * total;
    MulLessCancel(r, 101, t2);
    if part == total {
      assert 100 * t2 == 200 * total;
      MulLessCancel(100, r + 1, t2);
    }
    if part == 0 {
      assert 1 * t2 == 2 * total;
      MulLessCancel(r, 1, t2);
    }
  }

  /** `rate` is 100·part/total rounded to the nearest integer, halves up, and 0 when `total` is 0. */
  predicate IsRoundedPercent(rate: int, part: nat, total: nat) {
    (total == 0 ==> rate == 0)
    && (total > 0 ==> rate * (2 * total) <= 200 * part + total < (rate + 1) * (2 * total))
  }

  /**
   * `complianceRate`: the percentage of compliant results rounded to the nearest
   * integer, halves up, and 0 when there are no results.
   */
  function ComplianceRate(compliant: nat, total: nat): (rate: nat)
    requires compliant <= total
    ensures IsRoundedPercent(rate, compliant, total)
    ensures rate <= 100
    ensures compliant == 0 ==> rate == 0
    ensures 0 < compliant == total ==> rate == 100
  {
    if total == 0 then 0
    else
      RoundPercentBounds(compliant, total);
      RoundPercent(compliant, total)
  }

  datatype ComplianceSummary = ComplianceSummary(
    totalPermissions: nat, compliant: nat, configOnly: nat, privacyOnly: nat, complianceRate: nat)

  /** A recommendation `{type, title, content, priority}` (`kind` holds `type`). */
  datatype Advice = Advice(kind: string, title: string, content: string, priority: string)

  datatype ComplianceReport = ComplianceReport(summary: ComplianceSummary, permissions: seq<ComplianceResult>, recommendations: seq<Advice>)

  const KeepUpdated := Advice("info", "持续合规建议", "建议定期更新隐私条款，确保与应用实际收集的信息保持一致。", "low")
  const RecheckOnUpdate := Advice("info", "版本更新检查", "建议在应用更新时重新进行隐私合规检查，确保新功能的权限声明合规。", "low")
  const FullyCompliant := Advice("success", "完全合规", "恭喜！您的应用权限声明与隐私条款完全一致，符合合规要求。", "low")

  /** `generateRecommendations`: the conditional findings, then the two generic entries. */
  function Recommendations(results: seq<ComplianceResult>): seq<Advice> {
    var configOnly := WithStatus(results, ConfigOnly);
    var privacyOnly := WithStatus(results, PrivacyOnly);
    var compliant := WithStatus(results, Compliant);
    (if |configOnly| > 0 then
       [Advice("warning", "配置文件权限缺失隐私说明",
               "发现 " + NatToString(|configOnly|) + " 个权限已在配置文件中声明但未在隐私条款中说明，建议在隐私条款中添加相关说明："
               + Join(Names(configOnly), "、"), "high")]
     else [])
    + (if |privacyOnly| > 0 then
         [Advice("info", "隐私条款权限未实际使用",
                 "发现 " + NatToString(|privacyOnly|) + " 个权限在隐私条款中提及但未在配置文件中声明，建议检查是否需要这些权限或从隐私条款中移除："
                 + Join(Names(privacyOnly), "、"), "medium")]
       else [])
    + (if |configOnly| == 0 && |privacyOnly| == 0 && |compliant| > 0 then [FullyCompliant] else [])
    + [KeepUpdated, RecheckOnUpdate]
  }

  /**
   * The recommendations always end with the two generic entries; the `success` entry is
   * present exactly when nothing is `config_only` or `privacy_only` and something is
   * `compliant`; a `warning` opens the list exactly when something is `config_only`.
   */
  lemma RecommendationsShape(results: seq<ComplianceResult>)
    ensures var recs := Recommendations(results);
            |recs| >= 2 && recs[|recs| - 2] == KeepUpdated && recs[|recs| - 1] == RecheckOnUpdate
            && (FullyCompliant in recs <==>
                  CountStatus(results, ConfigOnly) == 0 && CountStatus(results, PrivacyOnly) == 0
                  && CountStatus(results, Compliant) > 0)
            && (recs[0].kind == "warning" <==> CountStatus(results, ConfigOnly) > 0)
            && |recs| <= 5
  {
    CountStatusPartition(results);
  }

  /**
   * `generateComplianceReport`: the number of results of each status, which together
   * make up all of them, the rounded compliant percentage, the results themselves and
   * the recommendations for them.
   */
  function GenerateComplianceReport(results: seq<ComplianceResult>): (report: ComplianceReport)
    ensures report.summary.totalPermissions == |results|
    ensures report.summary.compliant == CountStatus(results, Compliant)
    ensures report.summary.configOnly == CountStatus(results, ConfigOnly)
    ensures report.summary.privacyOnly == CountStatus(results, PrivacyOnly)
    ensures report.summary.compliant + report.summary.configOnly + report.summary.privacyOnly == |results|
    ensures IsRoundedPercent(report.summary.complianceRate, report.summary.compliant, |results|)
    ensures report.summary.complianceRate <= 100
    ensures report.permissions == results
    ensures report.recommendations == Recommendations(results)
  {
    CountStatusPartition(results);
    var total := |results|;
    var compliant := CountStatus(results, Compliant);
    var rate := ComplianceRate(compliant, total);
    ComplianceReport(ComplianceSummary(total, compliant, CountStatus(results, ConfigOnly), CountStatus(results, PrivacyOnly), rate),
                     results, Recommendations(results))
  }
}
