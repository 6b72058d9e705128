/**
 * The data that flows between the configuration-file parsers and the analyzers:
 * declared permissions, per-file parse results, and the already-parsed views of a
 * file's content that the browser's DOMParser and JSON.parse would hand over.
 */
module Manifest {
  import opened Wrappers

  /** One declared permission `{key, name, type, description}` (`kind` holds the source's `type`; every extractor also sets `declared: true`). */
  datatype Permission = Permission(key: string, name: string, kind: string, description: string)

  /**
   * An `appInfo` object: each property the extractor assigned, with the string it
   * holds, or `None` where the source assigned `null`/`undefined`.
   */
  type AppInfo = map<string, Option<string>>

  /** What one platform parser returns: `{platform, type, permissions, appInfo}`. */
  datatype ParseResult = ParseResult(platform: string, fileType: string, permissions: seq<Permission>, appInfo: AppInfo)

  /** A parse result after `enrichResult`: the file name, the detected platform and the quality score. */
  datatype ParsedFile = ParsedFile(result: ParseResult, fileName: string, detectedPlatform: string, qualityScore: nat)

  /** One XML element: its attributes, and the `textContent` of its descendants, by tag name. */
  datatype XmlElement = XmlElement(attributes: map<string, string>, descendantText: map<string, seq<string>>)

  /**
   * A document as DOMParser builds it: whether it holds a `parsererror` element, and
   * `getElementsByTagName(tag)` for every tag, in document order.
   */
  datatype XmlDoc = XmlDoc(parserError: bool, elements: map<string, seq<XmlElement>>)

  function ElementsByTag(doc: XmlDoc, tag: string): seq<XmlElement> {
    if tag in doc.elements then doc.elements[tag] else []
  }

  /** `element.getAttribute(name)`: `None` stands for `null`. */
  function GetAttribute(e: XmlElement, name: string): Option<string> {
    if name in e.attributes then Some(e.attributes[name]) else None
  }

  /** One `reqPermissions` object; an absent `reason` is the empty string, as `reason || ''` makes it. */
  datatype ReqPermission = ReqPermission(name: string, reason: string)

  /** The `module` object of a HarmonyOS config.json: `reqPermissions` (possibly absent) and its scalar members. */
  datatype JsonModule = JsonModule(reqPermissions: Option<seq<ReqPermission>>, members: map<string, string>)

  /** The value `JSON.parse` gives for a config.json: its `app` members and its `module` object (`moduleObj`), each possibly absent. */
  datatype JsonConfig = JsonConfig(app: Option<map<string, string>>, moduleObj: Option<JsonModule>)

  function Member(members: map<string, string>, name: string): Option<string> {
    if name in members then Some(members[name]) else None
  }

  /**
   * A selected file: its name and text as FileReader delivers them, together with the
   * document DOMParser makes of that text and the outcome of `JSON.parse` on it
   * (`Err` holding the SyntaxError message).
   */
  datatype SourceFile = SourceFile(name: string, content: string, xml: XmlDoc, json: Result<JsonConfig>)
}
