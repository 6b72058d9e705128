/**
 * `ConfigParser` of parser.js: the file-extension dispatch, platform detection from the
 * file name and content, the quality score of a parse result, and the parse statistics
 * the parser object keeps in its `stats` field.
 */
module ConfigParsing {
  import opened Wrappers
  import opened Text
  import opened Manifest
  import opened Extractors

  /** `getFileExtension`: `filename.split('.').pop().toLowerCase()`. */
  function FileExtension(filename: string): (ext: string)
    ensures '.' !in ext
    ensures |ext| <= |filename| && ext == ToLower(filename[|filename| - |ext|..])
    ensures |ext| < |filename| ==> filename[|filename| - |ext| - 1] == '.'
  {
    var r := AfterLastDot(filename);
    assert forall k :: 0 <= k < |r| ==> LowerChar(r[k]) != '.';
    ToLower(r)
  }

  predicate HasPlatformName(filename: string) {
    var f := ToLower(filename);
    Contains(f, "info.plist") || Contains(f, "androidmanifest") || Contains(f, "appxmanifest") || Contains(f, "config.json")
  }

  /** `detectPlatform`: file-name markers in a fixed order, then content sniffing for xml and json only. */
  function DetectPlatform(filename: string, content: string, ext: string): string {
    var f := ToLower(filename);
    var c := ToLower(content);
    if Contains(f, "info.plist") then
      if Contains(c, "iphoneos") || Contains(c, "ios") then "iOS"
      else if Contains(c, "macos") || Contains(c, "macosx") then "macOS"
      else "iOS/macOS"
    else if Contains(f, "androidmanifest") then "Android"
    else if Contains(f, "appxmanifest") then "Windows"
    else if Contains(f, "config.json") then "鸿蒙OS"
    else if ext == "xml" && (Contains(c, "android:") || Contains(c, "<manifest")) then "Android"
    else if ext == "xml" && (Contains(c, "windows") || Contains(c, "appx")) then "Windows"
    else if ext == "json" && (Contains(c, "ohos.permission") || Contains(c, "harmonyos")) then "鸿蒙OS"
    else "Unknown"
  }

  /**
   * The file name decides first: once it carries one of the four markers the extension
   * plays no part, and only an Info.plist name lets the content refine the answer.
   * Without a marker, only xml and json content is sniffed; anything else is Unknown.
   */
  lemma DetectPlatformPrecedence(filename: string, c1: string, c2: string, e1: string, e2: string)
    ensures HasPlatformName(filename) ==> DetectPlatform(filename, c1, e1) == DetectPlatform(filename, c1, e2)
    ensures HasPlatformName(filename) && !Contains(ToLower(filename), "info.plist") ==>
              DetectPlatform(filename, c1, e1) == DetectPlatform(filename, c2, e2)
    ensures Contains(ToLower(filename), "info.plist") ==> DetectPlatform(filename, c1, e1) in {"iOS", "macOS", "iOS/macOS"}
    ensures !HasPlatformName(filename) && e1 != "xml" && e1 != "json" ==> DetectPlatform(filename, c1, e1) == "Unknown"
    ensures !HasPlatformName(filename) && e1 == "xml" ==> DetectPlatform(filename, c1, e1) in {"Android", "Windows", "Unknown"}
    ensures !HasPlatformName(filename) && e1 == "json" ==> DetectPlatform(filename, c1, e1) in {"鸿蒙OS", "Unknown"}
  {
  }

  /** `autoDetectXmlType`: an Android marker with `package=`, else a Windows package marker, else an error. */
  function AutoDetectXml(content: string, doc: XmlDoc): Result<ParseResult> {
    var c := ToLower(content);
    if (Contains(c, "<manifest") || Contains(c, "android:")) && Contains(c, "package=") then AndroidParse(doc)
    else if Contains(c, "<package") && (Contains(c, "schemas.microsoft.com/appx/manifest") || Contains(c, "windows")) then
      AppxParse(doc)
    else Err("无法识别的XML文件类型，请确保是 AndroidManifest.xml 或 AppxManifest.xml")
  }

  /** `parseXMLFile`: the file name picks the parser; otherwise the content does. */
  function ParseXml(filename: string, content: string, doc: XmlDoc): Result<ParseResult> {
    var f := ToLower(filename);
    if Contains(f, "androidmanifest") then AndroidParse(doc)
    else if Contains(f, "appxmanifest") then AppxParse(doc)
    else AutoDetectXml(content, doc)
  }

  /** `parseJSONFile`: only a file whose name contains `config` is read as a HarmonyOS config. */
  function ParseJson(filename: string, json: Result<JsonConfig>): Result<ParseResult> {
    if Contains(ToLower(filename), "config") then HarmonyParse(json)
    else Err("不支持的JSON文件类型，请上传config.json")
  }

  /** Whether `platform` counts as recognised: truthy and not `Unknown`. */
  predicate KnownPlatform(platform: string) {
    platform != "" && platform != "Unknown"
  }

  function Min(a: int, b: int): int {
    if a < b then a else b
  }

  /**
   * `calculateQualityScore`: up to 40 for permissions, up to 30 for app-info fields and
   * 30 for a recognised platform. It never exceeds 100, and it is 100 exactly when there
   * are at least 8 permissions, at least 6 app-info fields and a recognised platform.
   */
  function QualityScore(r: ParseResult): (score: nat)
    ensures score <= 100
    ensures score == 100 <==> |r.permissions| >= 8 && |r.appInfo| >= 6 && KnownPlatform(r.platform)
    ensures |r.permissions| == 0 && |r.appInfo| == 0 && !KnownPlatform(r.platform) ==> score == 0
  {
    var s := (if |r.permissions| > 0 then Min(40, |r.permissions| * 5) else 0)
             + Min(30, |r.appInfo| * 5)
             + (if KnownPlatform(r.platform) then 30 else 0);
    Min(100, s)
  }

  /** Adding a permission never lowers the score. */
  lemma QualityScoreMonotone(r: ParseResult, p: Permission)
    ensures QualityScore(r) <= QualityScore(r.(permissions := r.permissions + [p]))
  {
  }

  /**
   * What `parseFile` returns for a selected file, before the statistics and the outer
   * message: empty content and unsupported extensions are refused, then the extension
   * picks the parser and the result is enriched with the file name, the detected
   * platform and the quality score.
   */
  function ParseContent(file: SourceFile): (r: Result<ParsedFile>)
    ensures IsBlank(file.content) ==> r == Err("文件内容为空")
    ensures FileExtension(file.name) !in {"plist", "xml", "json"} && !IsBlank(file.content) ==>
              r == Err("不支持的文件类型: " + FileExtension(file.name))
    ensures r.Ok? ==> r.value.fileName == file.name
                      && r.value.detectedPlatform == DetectPlatform(file.name, file.content, FileExtension(file.name))
                      && r.value.qualityScore == QualityScore(r.value.result)
  {
    var ext := FileExtension(file.name);
    if IsBlank(file.content) then Err("文件内容为空")
    else
      match ParseByExtension(file, ext)
      case Err(m) => Err(m)
      case Ok(result) =>
        Ok(ParsedFile(result, file.name, DetectPlatform(file.name, file.content, ext), QualityScore(result)))
  }

  /** The `switch (fileExtension)` of `parseFile`: the parser the extension selects. */
  function ParseByExtension(file: SourceFile, ext: string): Result<ParseResult> {
    if ext == "plist" then Ok(PlistParse(file.content, file.name))
    else if ext == "xml" then ParseXml(file.name, file.content, file.xml)
    else if ext == "json" then ParseJson(file.name, file.json)
    else Err("不支持的文件类型: " + ext)
  }

  /** An XML text that `autoDetectXmlType` recognises neither as Android nor as Windows. */
  predicate UnrecognisedXml(content: string) {
    var c := ToLower(content);
    !((Contains(c, "<manifest") || Contains(c, "android:")) && Contains(c, "package="))
    && !(Contains(c, "<package") && (Contains(c, "schemas.microsoft.com/appx/manifest") || Contains(c, "windows")))
  }

  /**
   * How a non-empty file is routed: an Info.plist always parses, and a json file
   * parses only when `config` is in its name and the JSON is well formed; a JSON
   * syntax error is reported with its message.
   */
  lemma ParseContentRoutes(file: SourceFile)
    requires !IsBlank(file.content)
    ensures var ext := FileExtension(file.name);
            var r := ParseContent(file);
            (ext == "plist" ==> r.Ok? && r.value.result == PlistParse(file.content, file.name))
            && (ext == "json" && !Contains(ToLower(file.name), "config") ==> r == Err("不支持的JSON文件类型，请上传config.json"))
            && (ext == "json" && Contains(ToLower(file.name), "config") ==>
                  (r.Ok? <==> file.json.Ok?) && (file.json.Err? ==> r == Err("config.json 解析失败: " + file.json.message)))
  {
  }

  /**
   * A non-empty xml file named as a manifest goes to that manifest's parser, which
   * refuses a document with a parse error; one with neither a marker in its name nor
   * one in its content is refused.
   */
  lemma ParseXmlRoutes(file: SourceFile)
    requires !IsBlank(file.content) && FileExtension(file.name) == "xml"
    ensures var f := ToLower(file.name);
            var r := ParseContent(file);
            (Contains(f, "androidmanifest") ==>
               (r.Ok? <==> !file.xml.parserError) && (r.Ok? ==> r.value.result.platform == "Android"))
            && (!Contains(f, "androidmanifest") && Contains(f, "appxmanifest") ==>
                  (r.Ok? <==> !file.xml.parserError) && (r.Ok? ==> r.value.result.platform == "Windows"))
            && (!Contains(f, "androidmanifest") && !Contains(f, "appxmanifest") && UnrecognisedXml(file.content) ==>
                  r == Err("无法识别的XML文件类型，请确保是 AndroidManifest.xml 或 AppxManifest.xml"))
  {
  }

  /** One `parseHistory` entry (the parse time and timestamp are not modelled). */
  datatype ParseRecord = Success(filename: string) | Failure(filename: string, error: string)

  /** The number of successful entries in a history. */
  /** The number of successful parses in the history. */
  function Successes(h: seq<ParseRecord>): (n: nat)
    ensures n <= |h|
    ensures n == |h| <==> forall i :: 0 <= i < |h| ==> h[i].Success?
    ensures n == 0 <==> forall i :: 0 <= i < |h| ==> !h[i].Success?
  {
    if |h| == 0 then 0
    else
      var p := h[..|h| - 1];
      assert forall i :: 0 <= i < |p| ==> p[i] == h[i];
      Successes(p) + (if h[|h| - 1].Success? then 1 else 0)
  }

  /** The message `parseFile` throws: the inner message prefixed by the file name. */
  function OuterMessage(filename: string, m: string): string {
    "解析文件 " + filename + " 失败: " + m
  }

  class ConfigParser {
    /**
     * `this.parsers` together with the extension switch of `parseFile`: what one file
     * parses to. The constructor sets it to `ParseContent`.
     */
    const parse: SourceFile -> Result<ParsedFile>
    var totalParsed: nat
    var successCount: nat
    var failureCount: nat
    var parseHistory: seq<ParseRecord>

    /** The counters agree with the history: every attempt is recorded once, as a success or a failure. */
    ghost predicate Valid()
      reads this
    {
      totalParsed == successCount + failureCount == |parseHistory|
      && successCount == Successes(parseHistory)
    }

    constructor()
      ensures parse == ParseContent
      ensures Valid()
      ensures totalParsed == 0 && successCount == 0 && failureCount == 0 && parseHistory == []
    {
      parse := ParseContent;
      totalParsed := 0;
      successCount := 0;
      failureCount := 0;
      parseHistory := [];
    }

    method RecordSuccess(filename: string)
      requires Valid()
      modifies this
      ensures Valid()
      ensures totalParsed == old(totalParsed) + 1 && successCount == old(successCount) + 1
      ensures failureCount == old(failureCount)
      ensures parseHistory == old(parseHistory) + [Success(filename)]
    {
      totalParsed := totalParsed + 1;
      successCount := successCount + 1;
      parseHistory := parseHistory + [Success(filename)];
      assert parseHistory[..|parseHistory| - 1] == old(parseHistory);
    }

    method RecordFailure(filename: string, error: string)
      requires Valid()
      modifies this
      ensures Valid()
      ensures totalParsed == old(totalParsed) + 1 && failureCount == old(failureCount) + 1
      ensures successCount == old(successCount)
      ensures parseHistory == old(parseHistory) + [Failure(filename, error)]
    {
      totalParsed := totalParsed + 1;
      failureCount := failureCount + 1;
      parseHistory := parseHistory + [Failure(filename, error)];
      assert parseHistory[..|parseHistory| - 1] == old(parseHistory);
    }

    method ResetStats()
      modifies this
      ensures Valid()
      ensures totalParsed == 0 && successCount == 0 && failureCount == 0 && parseHistory == []
    {
      totalParsed := 0;
      successCount := 0;
      failureCount := 0;
      parseHistory := [];
    }

    /**
     * `parseFile`: the outcome of `parse` (that is, of `ParseContent`), recorded in the
     * statistics; a failure is recorded with the inner message and rethrown with the
     * file name in front.
     */
    method ParseFile(file: SourceFile) returns (r: Result<ParsedFile>)
      requires Valid()
      modifies this
      ensures Valid()
      ensures parse(file).Ok? ==> r == parse(file)
      ensures parse(file).Err? ==> r == Err(OuterMessage(file.name, parse(file).message))
      ensures parseHistory == old(parseHistory)
                              + [if parse(file).Ok? then Success(file.name) else Failure(file.name, parse(file).message)]
    {
      var parsed := parse(file);
      if parsed.Ok? {
        RecordSuccess(file.name);
        r := parsed;
      } else {
        RecordFailure(file.name, parsed.message);
        r := Err(OuterMessage(file.name, parsed.message));
      }
    }
  }
}
