/**
 * `ConfigParserEnhanced` of parser-enhanced.js: batch parsing over a `ConfigParser`,
 * and the flat permission lists built from several parse results.
 */
module EnhancedParsing {
  import opened Wrappers
  import opened Text
  import opened Manifest
  import opened ConfigParsing

  /** One entry of `parseFiles`' `errors`: the file name and the thrown message. */
  datatype FileError = FileError(file: string, error: string)

  datatype BatchSummary = BatchSummary(total: nat, successCount: nat, errorCount: nat, platforms: seq<string>)

  datatype BatchResult = BatchResult(success: seq<ParsedFile>, errors: seq<FileError>, summary: BatchSummary)

  /** The parsed files of a batch, in input order, for a per-file outcome `parse`. */
  function BatchSuccesses(files: seq<SourceFile>, parse: SourceFile -> Result<ParsedFile>): seq<ParsedFile> {
    if |files| == 0 then []
    else
      var f := files[|files| - 1];
      BatchSuccesses(files[..|files| - 1], parse) + (if parse(f).Ok? then [parse(f).value] else [])
  }

  /** The failures of a batch, in input order, with the message `parseFile` throws. */
  function BatchErrors(files: seq<SourceFile>, parse: SourceFile -> Result<ParsedFile>): seq<FileError> {
    if |files| == 0 then []
    else
      var f := files[|files| - 1];
      BatchErrors(files[..|files| - 1], parse)
      + (if parse(f).Err? then [FileError(f.name, OuterMessage(f.name, parse(f).message))] else [])
  }

  /** The history entries a batch appends, one per file. */
  function BatchHistory(files: seq<SourceFile>, parse: SourceFile -> Result<ParsedFile>): seq<ParseRecord> {
    if |files| == 0 then []
    else
      var f := files[|files| - 1];
      BatchHistory(files[..|files| - 1], parse) + [BatchEntry(f, parse)]
  }

  function Platforms(rs: seq<ParsedFile>): seq<string> {
    seq(|rs|, i requires 0 <= i < |rs| => rs[i].result.platform)
  }

  /** The history entry `parseFile` records for one file. */
  function BatchEntry(f: SourceFile, parse: SourceFile -> Result<ParsedFile>): ParseRecord {
    if parse(f).Ok? then Success(f.name) else Failure(f.name, parse(f).message)
  }

  /** Taking one more file extends each of the three lists by that file's own entry. */
  lemma BatchStep(files: seq<SourceFile>, i: nat, parse: SourceFile -> Result<ParsedFile>)
    requires i < |files|
    ensures var f := files[i];
            BatchSuccesses(files[..i + 1], parse)
              == BatchSuccesses(files[..i], parse) + (if parse(f).Ok? then [parse(f).value] else [])
            && BatchErrors(files[..i + 1], parse)
              == BatchErrors(files[..i], parse)
                 + (if parse(f).Err? then [FileError(f.name, OuterMessage(f.name, parse(f).message))] else [])
            && BatchHistory(files[..i + 1], parse) == BatchHistory(files[..i], parse) + [BatchEntry(f, parse)]
  {
    assert files[..i + 1][..i] == files[..i];
  }

  /** Concatenation regroups freely. */
  lemma AppendAssoc<T>(a: seq<T>, b: seq<T>, c: seq<T>)
    ensures a + (b + c) == (a + b) + c
  {
  }

  /** `parseFiles`: every file through `parseFile`, collecting results and errors in input order, and a summary. */
  method ParseFiles(parser: ConfigParser, files: seq<SourceFile>) returns (batch: BatchResult)
    requires parser.Valid()
    modifies parser
    ensures parser.Valid()
    ensures parser.parseHistory == old(parser.parseHistory) + BatchHistory(files, parser.parse)
    ensures batch.success == BatchSuccesses(files, parser.parse) && batch.errors == BatchErrors(files, parser.parse)
    ensures batch.summary == BatchSummary(|files|, |BatchSuccesses(files, parser.parse)|, |BatchErrors(files, parser.parse)|,
                                          Dedup(Platforms(BatchSuccesses(files, parser.parse))))
  {
    var results := [];
    var errors := [];
    var i := 0;
    while i < |files|
      invariant 0 <= i <= |files|
      invariant parser.Valid()
      invariant parser.parseHistory == old(parser.parseHistory) + BatchHistory(files[..i], parser.parse)
      invariant results == BatchSuccesses(files[..i], parser.parse) && errors == BatchErrors(files[..i], parser.parse)
    {
      var r := parser.ParseFile(files[i]);
      if r.Ok? {
        results := results + [r.value];
      } else {
        errors := errors + [FileError(files[i].name, r.message)];
      }
      BatchStep(files, i, parser.parse);
      AppendAssoc(old(parser.parseHistory), BatchHistory(files[..i], parser.parse), [BatchEntry(files[i], parser.parse)]);
      i := i + 1;
    }
    assert files[..i] == files;
    batch := BatchResult(results, errors, BatchSummary(|files|, |results|, |errors|, Dedup(Platforms(results))));
  }

  /** Every file lands in exactly one of the two lists, and adds one history entry. */
  lemma {:induction false} BatchCounts(files: seq<SourceFile>, parse: SourceFile -> Result<ParsedFile>)
    ensures |BatchSuccesses(files, parse)| + |BatchErrors(files, parse)| == |files| == |BatchHistory(files, parse)|
  {
    if |files| > 0 {
      BatchCounts(files[..|files| - 1], parse);
    }
  }

  /** A file that parses has its result among the successes. */
  lemma {:induction false} BatchSuccessesComplete(files: seq<SourceFile>, parse: SourceFile -> Result<ParsedFile>)
    ensures forall i :: 0 <= i < |files| && parse(files[i]).Ok? ==> parse(files[i]).value in BatchSuccesses(files, parse)
  {
    if |files| > 0 {
      var n := |files| - 1;
      BatchSuccessesComplete(files[..n], parse);
      assert forall i :: 0 <= i < n ==> files[..n][i] == files[i];
    }
  }

  /** A file that fails has its outer message among the errors. */
  lemma {:induction false} BatchErrorsComplete(files: seq<SourceFile>, parse: SourceFile -> Result<ParsedFile>)
    ensures forall i :: 0 <= i < |files| && parse(files[i]).Err? ==>
              FileError(files[i].name, OuterMessage(files[i].name, parse(files[i]).message)) in BatchErrors(files, parse)
  {
    if |files| > 0 {
      var n := |files| - 1;
      BatchErrorsComplete(files[..n], parse);
      assert forall i :: 0 <= i < n ==> files[..n][i] == files[i];
    }
  }

  /** The history a batch appends counts as many successes as the batch returns. */
  lemma {:induction false} BatchHistorySuccesses(files: seq<SourceFile>, parse: SourceFile -> Result<ParsedFile>)
    ensures Successes(BatchHistory(files, parse)) == |BatchSuccesses(files, parse)|
  {
    if |files| > 0 {
      var n := |files| - 1;
      BatchHistorySuccesses(files[..n], parse);
      assert BatchHistory(files, parse)[..|BatchHistory(files, parse)| - 1] == BatchHistory(files[..n], parse);
    }
  }

  /** One entry of `normalizePermissions`' output (`userDescription`, `sensitive` and `dangerous` are never set by the extractors). */
  datatype NormalizedPermission = NormalizedPermission(
    permission: string, infoTypeName: string, infoType: string, description: string,
    scenarios: seq<string>, platform: string, fileName: string, sensitive: bool, dangerous: bool)

  /** One entry of `generateConfigDetails`' output; it carries no `infoType`, which is `""` here. */
  datatype ConfigDetail = ConfigDetail(
    permission: string, infoTypeName: string, infoType: string, description: string,
    scenarios: seq<string>, platform: string, fileType: string, sensitive: bool)

  /** `inferScenarios`: the usage scenarios of a permission type, or `功能使用`. */
  function InferScenarios(kind: string): (r: seq<string>)
    ensures |r| > 0
    ensures (kind !in {"camera", "microphone", "location", "contacts", "photos", "storage", "phone", "sms",
                       "calendar", "network", "bluetooth", "health", "biometric", "tracking"}) ==> r == ["功能使用"]
  {
    match kind
    case "camera" => ["拍照录像", "扫码", "视频通话"]
    case "microphone" => ["语音消息", "语音通话", "语音识别"]
    case "location" => ["位置分享", "地图导航", "附近推荐"]
    case "contacts" => ["添加好友", "通讯录同步"]
    case "photos" => ["图片分享", "头像设置", "相册访问"]
    case "storage" => ["文件保存", "数据备份", "离线缓存"]
    case "phone" => ["拨打电话", "获取设备信息"]
    case "sms" => ["短信验证", "消息发送"]
    case "calendar" => ["日程提醒", "活动创建"]
    case "network" => ["数据同步", "内容加载", "在线服务"]
    case "bluetooth" => ["设备连接", "数据传输"]
    case "health" => ["健康监测", "运动记录"]
    case "biometric" => ["指纹登录", "面容识别", "安全验证"]
    case "tracking" => ["广告追踪", "数据分析"]
    case _ => ["功能使用"]
  }

  function Normalized(r: ParsedFile, p: Permission): NormalizedPermission {
    NormalizedPermission(p.key, p.name, p.kind, p.description, InferScenarios(p.kind),
                         r.result.platform, r.fileName, false, false)
  }

  function DetailOf(r: ParsedFile, p: Permission): ConfigDetail {
    ConfigDetail(p.key, p.name, "", if p.description != "" then p.description else "权限配置声明",
                 InferScenarios(p.kind), r.result.platform, r.result.fileType, false)
  }

  /** The number of permissions over all results. */
  function TotalPermissions(rs: seq<ParsedFile>): nat {
    if |rs| == 0 then 0 else TotalPermissions(rs[..|rs| - 1]) + |rs[|rs| - 1].result.permissions|
  }

  /** One entry per permission of every result, results in order and permissions in order within each. */
  function Flatten<T>(rs: seq<ParsedFile>, f: (ParsedFile, Permission) -> T): seq<T> {
    if |rs| == 0 then []
    else
      var r := rs[|rs| - 1];
      Flatten(rs[..|rs| - 1], f) + Block(r, f)
  }

  /**
   * The flattened list has one entry per permission, and the entry for permission `j`
   * of result `i` sits after all the permissions of the results before `i`.
   */
  function Block<T>(r: ParsedFile, f: (ParsedFile, Permission) -> T): (b: seq<T>)
    ensures |b| == |r.result.permissions|
    ensures forall j :: 0 <= j < |b| ==> b[j] == f(r, r.result.permissions[j])
  {
    seq(|r.result.permissions|, j requires 0 <= j < |r.result.permissions| => f(r, r.result.permissions[j]))
  }

  lemma {:induction false} FlattenLength<T>(rs: seq<ParsedFile>, f: (ParsedFile, Permission) -> T)
    ensures |Flatten(rs, f)| == TotalPermissions(rs)
  {
    if |rs| > 0 {
      FlattenLength(rs[..|rs| - 1], f);
    }
  }

  /** The entry for permission `j` of result `i` sits after all the permissions of the results before `i`. */
  lemma {:induction false} FlattenAt<T>(rs: seq<ParsedFile>, f: (ParsedFile, Permission) -> T, i: int, j: int)
    requires 0 <= i < |rs| && 0 <= j < |rs[i].result.permissions|
    ensures TotalPermissions(rs[..i]) + j < |Flatten(rs, f)|
    ensures Flatten(rs, f)[TotalPermissions(rs[..i]) + j] == f(rs[i], rs[i].result.permissions[j])
  {
    var n := |rs| - 1;
    var p := rs[..n];
    FlattenLength(p, f);
    FlattenLength(rs, f);
    var block := Block(rs[n], f);
    assert Flatten(rs, f) == Flatten(p, f) + block;
    if i < n {
      FlattenAt(p, f, i, j);
      assert p[..i] == rs[..i];
    } else {
      assert rs[..i] == p;
      assert Flatten(rs, f)[|Flatten(p, f)| + j] == block[j];
    }
  }

  method FlattenIn<T>(rs: seq<ParsedFile>, f: (ParsedFile, Permission) -> T) returns (out: seq<T>)
    ensures out == Flatten(rs, f)
  {
    out := [];
    var i := 0;
    while i < |rs|
      invariant 0 <= i <= |rs|
      invariant out == Flatten(rs[..i], f)
    {
      var perms := rs[i].result.permissions;
      ghost var before := out;
      var j := 0;
      while j < |perms|
        invariant 0 <= j <= |perms|
        invariant out == before + seq(j, k requires 0 <= k < j => f(rs[i], perms[k]))
      {
        out := out + [f(rs[i], perms[j])];
        j := j + 1;
      }
      assert rs[..i + 1][..i] == rs[..i];
      i := i + 1;
    }
    assert rs[..i] == rs;
  }

  /** `normalizePermissions`. */
  method NormalizePermissions(rs: seq<ParsedFile>) returns (normalized: seq<NormalizedPermission>)
    ensures normalized == NormalizedOf(rs)
  {
    normalized := FlattenIn(rs, Normalized);
  }

  /** `generateConfigDetails`. */
  method GenerateConfigDetails(rs: seq<ParsedFile>) returns (details: seq<ConfigDetail>)
    ensures details == ConfigDetailsOf(rs)
  {
    details := FlattenIn(rs, DetailOf);
  }

  /** Where the entries of result `i` start in a flattened list. */
  function Offset(rs: seq<ParsedFile>, i: nat): nat
    requires i <= |rs|
  {
    TotalPermissions(rs[..i])
  }

  predicate NormalizedFrom(n: NormalizedPermission, r: ParsedFile, p: Permission) {
    n.permission == p.key && n.infoType == p.kind && n.infoTypeName == p.name
    && n.platform == r.result.platform && n.fileName == r.fileName
  }

  predicate DetailFrom(d: ConfigDetail, r: ParsedFile, p: Permission) {
    d.permission == p.key && d.infoTypeName == p.name && d.infoType == "" && |d.scenarios| > 0
    && d.description == (if p.description == "" then "权限配置声明" else p.description)
    && d.platform == r.result.platform && d.fileType == r.result.fileType
  }

  /** What `normalizePermissions` returns. */
  function NormalizedOf(rs: seq<ParsedFile>): seq<NormalizedPermission> {
    Flatten(rs, Normalized)
  }

  /** What `generateConfigDetails` returns. */
  function ConfigDetailsOf(rs: seq<ParsedFile>): seq<ConfigDetail> {
    Flatten(rs, DetailOf)
  }

  lemma NormalizedAt(rs: seq<ParsedFile>, i: nat, j: nat)
    requires i < |rs| && j < |rs[i].result.permissions|
    ensures Offset(rs, i) + j < |NormalizedOf(rs)|
    ensures NormalizedFrom(NormalizedOf(rs)[Offset(rs, i) + j], rs[i], rs[i].result.permissions[j])
  {
    FlattenAt(rs, Normalized, i, j);
  }

  lemma DetailAt(rs: seq<ParsedFile>, i: nat, j: nat)
    requires i < |rs| && j < |rs[i].result.permissions|
    ensures Offset(rs, i) + j < |ConfigDetailsOf(rs)|
    ensures DetailFrom(ConfigDetailsOf(rs)[Offset(rs, i) + j], rs[i], rs[i].result.permissions[j])
  {
    FlattenAt(rs, DetailOf, i, j);
  }

  /** Permission `j` of result `i` has its entry, built from it, after the entries of the results before `i`. */
  predicate NormalizedInPlace(rs: seq<ParsedFile>, i: nat, j: nat)
    requires i < |rs| && j < |rs[i].result.permissions|
  {
    Offset(rs, i) + j < |NormalizedOf(rs)|
    && NormalizedFrom(NormalizedOf(rs)[Offset(rs, i) + j], rs[i], rs[i].result.permissions[j])
  }

  /**
   * `normalizePermissions` keeps every permission once, in order, with its key as
   * `permission`, its type as `infoType`, and the platform and file of its result.
   */
  lemma NormalizedFacts(rs: seq<ParsedFile>)
    ensures |NormalizedOf(rs)| == TotalPermissions(rs)
    ensures forall i: nat, j: nat :: i < |rs| && j < |rs[i].result.permissions| ==> NormalizedInPlace(rs, i, j)
  {
    forall i: nat, j: nat | i < |rs| && j < |rs[i].result.permissions| ensures NormalizedInPlace(rs, i, j) {
      NormalizedAt(rs, i, j);
    }
    FlattenLength(rs, Normalized);
  }

  /** Permission `j` of result `i` has its entry, built from it, after the entries of the results before `i`. */
  predicate DetailInPlace(rs: seq<ParsedFile>, i: nat, j: nat)
    requires i < |rs| && j < |rs[i].result.permissions|
  {
    Offset(rs, i) + j < |ConfigDetailsOf(rs)|
    && DetailFrom(ConfigDetailsOf(rs)[Offset(rs, i) + j], rs[i], rs[i].result.permissions[j])
  }

  /**
   * `generateConfigDetails` keeps every permission once, in order; an empty
   * description becomes `权限配置声明`, and the scenarios are never empty.
   */
  lemma ConfigDetailsFacts(rs: seq<ParsedFile>)
    ensures |ConfigDetailsOf(rs)| == TotalPermissions(rs)
    ensures forall i: nat, j: nat :: i < |rs| && j < |rs[i].result.permissions| ==> DetailInPlace(rs, i, j)
  {
    forall i: nat, j: nat | i < |rs| && j < |rs[i].result.permissions| ensures DetailInPlace(rs, i, j) {
      DetailAt(rs, i, j);
    }
    FlattenLength(rs, DetailOf);
  }
}
/**
 * `PermissionAnalyzerEnhanced` of parser-enhanced.js: the per-detail compliance
 * analysis, the type inference from a display name, and the enhanced report.
 */
module EnhancedAnalysis {
  import opened Wrappers
  import opened Text
  import opened Manifest
  import opened Keywords
  import opened PermissionAnalysis
  import opened EnhancedParsing

  /** One entry of `analyzeComplianceEnhanced`'s result (`kind` holds `type`). */
  datatype EnhancedResult = EnhancedResult(
    name: string, kind: string, key: string, declared: bool, inPrivacy: bool, status: Status,
    description: string, category: string, platform: string, scenarios: seq<string>, confidence: real)

  /** One `typemap` entry: a word of a display name and the type it reveals. */
  datatype TypeWord = TypeWord(word: string, kind: string)

  const TypeWords: seq<TypeWord> := [
    TypeWord("相机", "camera"), TypeWord("摄像", "camera"), TypeWord("麦克风", "microphone"),
    TypeWord("录音", "microphone"), TypeWord("位置", "location"), TypeWord("定位", "location"),
    TypeWord("通讯录", "contacts"), TypeWord("联系人", "contacts"), TypeWord("相册", "photos"),
    TypeWord("照片", "photos"), TypeWord("存储", "storage"), TypeWord("文件", "storage"),
    TypeWord("电话", "phone"), TypeWord("短信", "sms"), TypeWord("日历", "calendar"),
    TypeWord("蓝牙", "bluetooth"), TypeWord("网络", "network"), TypeWord("健康", "health"),
    TypeWord("生物识别", "biometric"), TypeWord("指纹", "biometric"), TypeWord("面容", "biometric"),
    TypeWord("追踪", "tracking")
  ]

  /** The type of the first entry whose word the name contains. */
  function FirstTypeIn(table: seq<TypeWord>, name: string): (r: Option<string>)
    ensures r.None? <==> forall i :: 0 <= i < |table| ==> !Contains(name, table[i].word)
    ensures r.Some? ==> exists i :: 0 <= i < |table| && Contains(name, table[i].word) && r.value == table[i].kind
                                    && forall j :: 0 <= j < i ==> !Contains(name, table[j].word)
  {
    if |table| == 0 then None
    else if Contains(name, table[0].word) then Some(table[0].kind)
    else
      var r := FirstTypeIn(table[1..], name);
      assert r.Some? ==> exists i :: 1 <= i < |table| && Contains(name, table[i].word) && r.value == table[i].kind
                                     && forall j :: 0 <= j < i ==> !Contains(name, table[j].word) by {
        if r.Some? {
          var i :| 0 <= i < |table[1..]| && Contains(name, table[1..][i].word) && r.value == table[1..][i].kind
                   && forall j :: 0 <= j < i ==> !Contains(name, table[1..][j].word);
          assert table[i + 1] == table[1..][i];
          forall j | 0 <= j < i + 1 ensures !Contains(name, table[j].word) {
            if j > 0 { assert table[j] == table[1..][j - 1]; }
          }
        }
      }
      r
  }

  /** `inferType` as evidently intended: the type of the first `typemap` word in the name, else `unknown`. */
  function InferType(name: string): string {
    match FirstTypeIn(TypeWords, name)
    case Some(t) => t
    case None => "unknown"
  }

  /** The message of the ReferenceError the as-written `inferType` raises. */
  const TypeMapUndefined := "typeMap is not defined"

  /**
   * `inferType` as written: the loop reads `typeMap`, a name never declared (the
   * table is bound to `typemap`), so every call throws.
   */
  function InferTypeAsWritten(name: string): Result<string> {
    Err(TypeMapUndefined)
  }

  predicate KnownKinds(table: seq<TypeWord>) {
    forall i :: 0 <= i < |table| ==> table[i].kind != "unknown"
  }

  lemma TypeWordsKnown()
    ensures KnownKinds(TypeWords)
  {
  }

  lemma FirstTypeFacts(table: seq<TypeWord>, name: string)
    requires KnownKinds(table)
    ensures FirstTypeIn(table, name).Some? ==> FirstTypeIn(table, name).value != "unknown"
  {
    var r := FirstTypeIn(table, name);
    if r.Some? {
      var i :| 0 <= i < |table| && Contains(name, table[i].word) && r.value == table[i].kind
               && forall j :: 0 <= j < i ==> !Contains(name, table[j].word);
    }
  }

  /**
   * The intended `inferType` names a known type exactly when the name contains a word
   * of the table, and then the type of the first such word.
   */
  lemma InferTypeFacts(name: string)
    ensures InferType(name) == "unknown" <==> forall i :: 0 <= i < |TypeWords| ==> !Contains(name, TypeWords[i].word)
    ensures InferType(name) != "unknown" ==>
              exists i :: 0 <= i < |TypeWords| && Contains(name, TypeWords[i].word) && InferType(name) == TypeWords[i].kind
                          && forall j :: 0 <= j < i ==> !Contains(name, TypeWords[j].word)
  {
    TypeWordsKnown();
    FirstTypeFacts(TypeWords, name);
  }

  function ResultFor(d: ConfigDetail, kind: string, inPrivacy: bool): EnhancedResult {
    EnhancedResult(d.infoTypeName, kind, d.permission, true, inPrivacy, if inPrivacy then Compliant else ConfigOnly,
                   d.description, if inPrivacy then "合规权限" else "仅配置文件声明", d.platform, d.scenarios,
                   if inPrivacy then 0.95 else 0.8)
  }

  /** The type a result reports: the detail's `infoType`, else the one inferred from its name. */
  function ReportedType(d: ConfigDetail): string {
    if d.infoType != "" then d.infoType else InferType(d.infoTypeName)
  }

  /**
   * The result for one detail as evidently intended: the privacy check looks up the
   * words of the type the result reports.
   */
  function EnhancedResultOf(d: ConfigDetail, privacyText: string): EnhancedResult {
    var kind := ReportedType(d);
    var inPrivacy := privacyText != "" && MentionsAny(ToLower(privacyText), KeywordsOf(kind));
    ResultFor(d, kind, inPrivacy)
  }

  /** The corrected analysis: one result per detail, in order. */
  function EnhancedResultsOf(details: seq<ConfigDetail>, privacyText: string): seq<EnhancedResult> {
    MapSeq(details, d => EnhancedResultOf(d, privacyText))
  }

  /**
   * `analyzeComplianceEnhanced` as written: `checkPermissionInPrivacy` reads the
   * detail's `type`, which details do not have, so it finds no words and the text is
   * never consulted; a detail without `infoType` reaches the throwing `inferType`.
   */
  function EnhancedResultsAsWritten(details: seq<ConfigDetail>, privacyText: string): Result<seq<EnhancedResult>> {
    if |details| == 0 then Ok([])
    else
      var d := details[|details| - 1];
      match EnhancedResultsAsWritten(details[..|details| - 1], privacyText)
      case Err(m) => Err(m)
      case Ok(prefix) =>
        var noWords: seq<string> := [];
        var inPrivacy := privacyText != "" && MentionsAny(ToLower(privacyText), noWords);
        if d.infoType != "" then Ok(prefix + [ResultFor(d, d.infoType, inPrivacy)])
        else match InferTypeAsWritten(d.infoTypeName)
             case Err(m) => Err(m)
             case Ok(t) => Ok(prefix + [ResultFor(d, t, inPrivacy)])
  }

  /** As written, no detail is ever compliant, whatever the text says. */
  lemma {:induction false} AsWrittenNeverCompliant(details: seq<ConfigDetail>, privacyText: string)
    ensures EnhancedResultsAsWritten(details, privacyText).Ok? ==>
              forall r :: r in EnhancedResultsAsWritten(details, privacyText).value ==>
                r.status == ConfigOnly && !r.inPrivacy && r.confidence == 0.8
  {
    if |details| > 0 {
      AsWrittenNeverCompliant(details[..|details| - 1], privacyText);
    }
  }

  /** As written, any detail without `infoType` makes the whole analysis throw. */
  lemma {:induction false} AsWrittenThrowsWithoutType(details: seq<ConfigDetail>, privacyText: string)
    requires exists i :: 0 <= i < |details| && details[i].infoType == ""
    ensures EnhancedResultsAsWritten(details, privacyText) == Err(TypeMapUndefined)
  {
    var n := |details| - 1;
    if details[n].infoType != "" {
      var i :| 0 <= i < |details| && details[i].infoType == "";
      assert details[..n][i] == details[i];
      AsWrittenThrowsWithoutType(details[..n], privacyText);
    } else if EnhancedResultsAsWritten(details[..n], privacyText).Err? {
      AsWrittenErrIsTypeMap(details[..n], privacyText);
    }
  }

  lemma {:induction false} AsWrittenErrIsTypeMap(details: seq<ConfigDetail>, privacyText: string)
    ensures EnhancedResultsAsWritten(details, privacyText).Err? ==> EnhancedResultsAsWritten(details, privacyText) == Err(TypeMapUndefined)
  {
    if |details| > 0 {
      AsWrittenErrIsTypeMap(details[..|details| - 1], privacyText);
    }
  }

  /** The details `generateConfigDetails` makes never carry `infoType`, so as written analysing them throws. */
  lemma AsWrittenRejectsConfigDetails(rs: seq<ParsedFile>, privacyText: string)
    requires TotalPermissions(rs) > 0
    ensures EnhancedResultsAsWritten(ConfigDetailsOf(rs), privacyText) == Err(TypeMapUndefined)
  {
    FlattenLength(rs, DetailOf);
    DetailsUntyped(rs);
    var details := ConfigDetailsOf(rs);
    assert details[0].infoType == "";
    AsWrittenThrowsWithoutType(details, privacyText);
  }

  lemma {:induction false} DetailsUntyped(rs: seq<ParsedFile>)
    ensures forall k :: 0 <= k < |Flatten(rs, DetailOf)| ==> Flatten(rs, DetailOf)[k].infoType == ""
  {
    if |rs| > 0 {
      DetailsUntyped(rs[..|rs| - 1]);
    }
  }

  /** A camera detail and a text that names the camera. */
  const CameraDetail := ConfigDetail("android.permission.CAMERA", "相机权限", "camera", "", ["拍照录像"], "Android", "AndroidManifest.xml", false)

  /** On the camera detail and the text `相机`, the code as written reports `config_only` where the intended analysis reports `compliant`. */
  lemma CameraCounterexample()
    ensures EnhancedResultsAsWritten([CameraDetail], "相机") == Ok([ResultFor(CameraDetail, "camera", false)])
    ensures EnhancedResultsOf([CameraDetail], "相机") == [ResultFor(CameraDetail, "camera", true)]
    ensures EnhancedResultsOf([CameraDetail], "相机")[0].status == Compliant
  {
    assert [CameraDetail][..0] == [];
    var noWords: seq<string> := [];
    assert !MentionsAny(ToLower("相机"), noWords);
    assert EnhancedResultsAsWritten([], "相机") == Ok([]);
    assert [] + [ResultFor(CameraDetail, "camera", false)] == [ResultFor(CameraDetail, "camera", false)];
    assert ToLower("相机") == "相机";
    PrivacyKeywordsDistinct();
    KeywordsInRow(PrivacyKeywords, 0);
    assert KeywordsOf("camera")[0] == "相机";
    assert MatchesAt("相机", ToLower(KeywordsOf("camera")[0]), 0);
    assert MentionsAny("相机", KeywordsOf("camera"));
  }

  method AnalyzeComplianceEnhanced(details: seq<ConfigDetail>, privacyText: string) returns (results: seq<EnhancedResult>)
    ensures results == EnhancedResultsOf(details, privacyText)
  {
    results := [];
    var privacyLower := ToLower(privacyText);
    var i := 0;
    while i < |details|
      invariant 0 <= i <= |details|
      invariant results == EnhancedResultsOf(details[..i], privacyText)
    {
      var d := details[i];
      var kind := ReportedType(d);
      var inPrivacy := false;
      if privacyText != "" {
        inPrivacy := CheckPermissionInPrivacy(Permission(d.permission, d.infoTypeName, kind, d.description), privacyLower);
      }
      results := results + [ResultFor(d, kind, inPrivacy)];
      assert details[..i + 1][..i] == details[..i];
      i := i + 1;
    }
    assert details[..i] == details;
  }

  /**
   * The result for a detail is keyed by its permission; it is `compliant` with
   * confidence 0.95 exactly when the text mentions a word of the type it reports,
   * otherwise `config_only` with 0.8.
   */
  lemma EnhancedResultFacts(d: ConfigDetail, privacyText: string)
    ensures var r := EnhancedResultOf(d, privacyText);
            r.key == d.permission && r.name == d.infoTypeName && r.declared
            && (r.inPrivacy <==> privacyText != "" && MentionsAny(ToLower(privacyText), KeywordsOf(r.kind)))
            && (r.status == Compliant <==> r.inPrivacy) && (r.status == ConfigOnly <==> !r.inPrivacy)
            && r.confidence == (if r.inPrivacy then 0.95 else 0.8)
            && r.kind == (if d.infoType != "" then d.infoType else InferType(d.infoTypeName))
  {
  }

  /** One result per detail, in order; an empty text makes every result `config_only` with confidence 0.8. */
  lemma EnhancedResultsExact(details: seq<ConfigDetail>, privacyText: string)
    ensures |EnhancedResultsOf(details, privacyText)| == |details|
    ensures forall i :: 0 <= i < |details| ==> EnhancedResultsOf(details, privacyText)[i] == EnhancedResultOf(details[i], privacyText)
    ensures privacyText == "" ==> forall r :: r in EnhancedResultsOf(details, privacyText) ==> r.status == ConfigOnly && r.confidence == 0.8
  {
  }

  function EnhancedWithStatus(rs: seq<EnhancedResult>, st: Status): seq<EnhancedResult> {
    if |rs| == 0 then []
    else EnhancedWithStatus(rs[..|rs| - 1], st) + (if rs[|rs| - 1].status == st then [rs[|rs| - 1]] else [])
  }

  lemma {:induction false} EnhancedWithStatusExact(rs: seq<EnhancedResult>, st: Status)
    ensures |EnhancedWithStatus(rs, st)| <= |rs|
    ensures forall r :: r in EnhancedWithStatus(rs, st) <==> r in rs && r.status == st
  {
    if |rs| > 0 {
      EnhancedWithStatusExact(rs[..|rs| - 1], st);
      assert rs == rs[..|rs| - 1] + [rs[|rs| - 1]];
    }
  }

  /** Enhanced results are never `privacy_only`, so the compliant and config-only ones make up all of them. */
  lemma {:induction false} EnhancedSplit(details: seq<ConfigDetail>, privacyText: string)
    ensures var rs := EnhancedResultsOf(details, privacyText);
            |rs| == |details| && |EnhancedWithStatus(rs, Compliant)| + |EnhancedWithStatus(rs, ConfigOnly)| == |rs|
  {
    if |details| > 0 {
      EnhancedSplit(details[..|details| - 1], privacyText);
    }
  }

  function Sensitive(rs: seq<EnhancedResult>): seq<EnhancedResult> {
    if |rs| == 0 then []
    else
      var r := rs[|rs| - 1];
      Sensitive(rs[..|rs| - 1]) + (if r.kind in {"camera", "microphone", "location"} then [r] else [])
  }

  function ResultPlatforms(rs: seq<EnhancedResult>): seq<string> {
    seq(|rs|, i requires 0 <= i < |rs| => rs[i].platform)
  }

  /** One detailed recommendation; only the config-only warning has `platforms`. */
  datatype DetailedAdvice = DetailedAdvice(kind: string, title: string, content: string, items: seq<string>,
                                           priority: string, platforms: Option<seq<string>>)

  function ConfigOnlyItems(rs: seq<EnhancedResult>): seq<string> {
    seq(|rs|, i requires 0 <= i < |rs| => rs[i].name + " (" + rs[i].platform + ")")
  }

  function SensitiveItems(rs: seq<EnhancedResult>): seq<string> {
    seq(|rs|, i requires 0 <= i < |rs| => rs[i].name + " - " + Join(rs[i].scenarios, "、"))
  }

  const IosAdvice := DetailedAdvice("info", "iOS平台合规建议", "请确保所有权限描述文字清晰易懂，避免使用技术术语，符合Apple审核指南要求。", [], "medium", None)
  const AndroidAdvice := DetailedAdvice("info", "Android平台合规建议", "建议区分Normal权限和Dangerous权限，并为Dangerous权限提供详细说明。", [], "medium", None)

  function WarningPart(rs: seq<EnhancedResult>): seq<DetailedAdvice> {
    var configOnly := EnhancedWithStatus(rs, ConfigOnly);
    if |configOnly| > 0 then
      [DetailedAdvice("warning", "发现" + NatToString(|configOnly|) + "个权限需要在隐私条款中说明",
                      "以下权限已在配置文件中声明但未在隐私条款中明确说明，建议补充说明以确保合规：",
                      ConfigOnlyItems(configOnly), "high", Some(Dedup(ResultPlatforms(configOnly))))]
    else []
  }

  function SensitivePart(rs: seq<EnhancedResult>): seq<DetailedAdvice> {
    var sensitive := Sensitive(rs);
    if |sensitive| > 0 then
      [DetailedAdvice("info", "敏感权限提示",
                      "检测到" + NatToString(|sensitive|) + "个敏感权限，请确保在隐私条款中详细说明使用目的和场景：",
                      SensitiveItems(sensitive), "high", None)]
    else []
  }

  function SuccessPart(rs: seq<EnhancedResult>): seq<DetailedAdvice> {
    var compliant := EnhancedWithStatus(rs, Compliant);
    if |compliant| == |rs| && |rs| > 0 then
      [DetailedAdvice("success", "完全合规 ✅",
                      "恭喜！所有" + NatToString(|compliant|) + "个权限都在隐私条款中得到了说明，符合合规要求。",
                      [], "low", None)]
    else []
  }

  function PlatformPart(rs: seq<EnhancedResult>): seq<DetailedAdvice> {
    var platforms := Dedup(ResultPlatforms(rs));
    (if "iOS" in platforms || "iOS/macOS" in platforms then [IosAdvice] else [])
    + (if "Android" in platforms then [AndroidAdvice] else [])
  }

  /** `generateDetailedRecommendations`: the config-only warning, the sensitive-permission note, the success, then the platform advice. */
  function DetailedRecommendations(rs: seq<EnhancedResult>): seq<DetailedAdvice> {
    WarningPart(rs) + SensitivePart(rs) + SuccessPart(rs) + PlatformPart(rs)
  }

  lemma InRecommendations(rs: seq<EnhancedResult>, x: DetailedAdvice)
    ensures x in DetailedRecommendations(rs) <==>
              x in WarningPart(rs) || x in SensitivePart(rs) || x in SuccessPart(rs) || x in PlatformPart(rs)
  {
  }

  lemma {:induction false} CompliantAll(rs: seq<EnhancedResult>)
    ensures |EnhancedWithStatus(rs, Compliant)| == |rs| <==> forall r :: r in rs ==> r.status == Compliant
  {
    if |rs| > 0 {
      var p := rs[..|rs| - 1];
      CompliantAll(p);
      EnhancedWithStatusExact(p, Compliant);
      assert rs == p + [rs[|rs| - 1]];
    }
  }

  lemma PlatformsOf(rs: seq<EnhancedResult>)
    ensures forall p :: p in Dedup(ResultPlatforms(rs)) <==> exists r :: r in rs && r.platform == p
  {
    var platforms := ResultPlatforms(rs);
    forall p | p in platforms ensures exists r :: r in rs && r.platform == p {
      var i :| 0 <= i < |platforms| && platforms[i] == p;
      assert rs[i] in rs;
    }
    forall r | r in rs ensures r.platform in platforms {
      var i :| 0 <= i < |rs| && rs[i] == r;
      assert platforms[i] == r.platform;
    }
  }

  /** A warning exactly when some result is `config_only`. */
  lemma WarningIffConfigOnly(rs: seq<EnhancedResult>)
    ensures (exists x :: x in DetailedRecommendations(rs) && x.kind == "warning") <==> exists r :: r in rs && r.status == ConfigOnly
  {
    EnhancedWithStatusExact(rs, ConfigOnly);
    var configOnly := EnhancedWithStatus(rs, ConfigOnly);
    if |configOnly| > 0 {
      assert configOnly[0] in configOnly;
      InRecommendations(rs, WarningPart(rs)[0]);
    }
    forall x | x in DetailedRecommendations(rs) && x.kind == "warning" ensures x in WarningPart(rs) {
      InRecommendations(rs, x);
    }
  }

  /** A success exactly when there are results and all are compliant. */
  lemma SuccessIffAllCompliant(rs: seq<EnhancedResult>)
    ensures (exists x :: x in DetailedRecommendations(rs) && x.kind == "success") <==> |rs| > 0 && forall r :: r in rs ==> r.status == Compliant
  {
    CompliantAll(rs);
    if |SuccessPart(rs)| > 0 {
      InRecommendations(rs, SuccessPart(rs)[0]);
    }
    forall x | x in DetailedRecommendations(rs) && x.kind == "success" ensures x in SuccessPart(rs) {
      InRecommendations(rs, x);
    }
  }

  /** The iOS advice exactly when some result is on iOS or iOS/macOS, the Android advice exactly when some result is on Android. */
  lemma PlatformAdvice(rs: seq<EnhancedResult>)
    ensures IosAdvice in DetailedRecommendations(rs) <==> exists r :: r in rs && r.platform in {"iOS", "iOS/macOS"}
    ensures AndroidAdvice in DetailedRecommendations(rs) <==> exists r :: r in rs && r.platform == "Android"
  {
    IosAdviceWhen(rs);
    AndroidAdviceWhen(rs);
  }

  lemma IosAdviceWhen(rs: seq<EnhancedResult>)
    ensures IosAdvice in DetailedRecommendations(rs) <==> exists r :: r in rs && r.platform in {"iOS", "iOS/macOS"}
  {
    PlatformsOf(rs);
    InRecommendations(rs, IosAdvice);
  }

  lemma AndroidAdviceWhen(rs: seq<EnhancedResult>)
    ensures AndroidAdvice in DetailedRecommendations(rs) <==> exists r :: r in rs && r.platform == "Android"
  {
    PlatformsOf(rs);
    InRecommendations(rs, AndroidAdvice);
  }

  datatype EnhancedSummary = EnhancedSummary(
    totalPermissions: nat, compliant: nat, configOnly: nat, platforms: seq<string>, sensitiveCount: nat, complianceRate: nat)

  datatype EnhancedReport = EnhancedReport(
    summary: EnhancedSummary, permissions: seq<EnhancedResult>, configDetails: seq<ConfigDetail>, recommendations: seq<DetailedAdvice>)

  function SensitiveCount(details: seq<ConfigDetail>): (n: nat)
    ensures n <= |details|
  {
    if |details| == 0 then 0 else SensitiveCount(details[..|details| - 1]) + (if details[|details| - 1].sensitive then 1 else 0)
  }

  function DetailPlatforms(details: seq<ConfigDetail>): seq<string> {
    seq(|details|, i requires 0 <= i < |details| => details[i].platform)
  }

  /**
   * `generateEnhancedReport`, on the corrected analysis `EnhancedResultsOf`: one result
   * per detail; the compliant and config-only counts are the sizes of those status
   * groups and add up to the total; the rate is the compliant percentage rounded half
   * up (0 with no results); the platforms are the details' platforms, each once, in the
   * order of first occurrence; the recommendations are those of the results.
   */
  function GenerateEnhancedReport(details: seq<ConfigDetail>, privacyText: string): (report: EnhancedReport)
    ensures report.permissions == EnhancedResultsOf(details, privacyText) && report.configDetails == details
    ensures report.summary.totalPermissions == |details| == report.summary.compliant + report.summary.configOnly
    ensures report.summary.compliant == |EnhancedWithStatus(report.permissions, Compliant)|
    ensures report.summary.configOnly == |EnhancedWithStatus(report.permissions, ConfigOnly)|
    ensures IsRoundedPercent(report.summary.complianceRate, report.summary.compliant, |details|)
    ensures report.summary.complianceRate <= 100
    ensures report.summary.sensitiveCount == SensitiveCount(details) <= |details|
    ensures report.summary.platforms == Dedup(DetailPlatforms(details))
    ensures report.recommendations == DetailedRecommendations(report.permissions)
  {
    var results := EnhancedResultsOf(details, privacyText);
    EnhancedSplit(details, privacyText);
    var compliant := |EnhancedWithStatus(results, Compliant)|;
    var summary := EnhancedSummary(|details|, compliant, |EnhancedWithStatus(results, ConfigOnly)|,
                                   Dedup(DetailPlatforms(details)), SensitiveCount(details),
                                   ComplianceRate(compliant, |details|));
    EnhancedReport(summary, results, details, DetailedRecommendations(results))
  }
}
