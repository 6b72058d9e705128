/**
 * The four platform parsers of parser.js: Info.plist (scanned text), AndroidManifest.xml
 * and AppxManifest.xml (a parsed DOM), HarmonyOS config.json (a parsed JSON value).
 * Each turns a manifest into `{key, name, type, description}` records through its own
 * static table.
 */
module Extractors {
  import opened Wrappers
  import opened Text
  import opened Manifest

  /** One row of a permission table: `'key': {name, type, description}`. */
  datatype Entry = Entry(key: string, name: string, kind: string, description: string)

  /** `table[key]`: the row stored under `key`, the first one should there be several. */
  function Lookup(table: seq<Entry>, key: string): (r: Option<Entry>)
    ensures r.None? <==> forall i :: 0 <= i < |table| ==> table[i].key != key
    ensures r.Some? ==> exists i :: 0 <= i < |table| && table[i] == r.value && table[i].key == key
                                    && forall j :: 0 <= j < i ==> table[j].key != key
  {
    if |table| == 0 then None
    else if table[0].key == key then Some(table[0])
    else
      var r := Lookup(table[1..], key);
      assert r.Some? ==> exists i :: 1 <= i < |table| && table[i] == r.value && table[i].key == key
                                     && forall j :: 0 <= j < i ==> table[j].key != key by {
        if r.Some? {
          var i :| 0 <= i < |table[1..]| && table[1..][i] == r.value && table[1..][i].key == key
                   && forall j :: 0 <= j < i ==> table[1..][j].key != key;
          assert table[i + 1] == r.value;
          forall j | 0 <= j < i + 1 ensures table[j].key != key {
            if j > 0 { assert table[j] == table[1..][j - 1]; }
          }
        }
      }
      r
  }

  const UnknownDescription := "未知权限"

  // ---------------------------------------------------------------- Info.plist

  /** The permission keys of Info.plist, in the order the source lists them (parser.js:389-460). */
  const PlistTable: seq<Entry> := [
    Entry("NSCameraUsageDescription", "相机权限", "camera", "访问相机"),
    Entry("NSMicrophoneUsageDescription", "麦克风权限", "microphone", "访问麦克风"),
    Entry("NSLocationWhenInUseUsageDescription", "位置权限（使用时）", "location", "在使用应用时访问位置"),
    Entry("NSLocationAlwaysAndWhenInUseUsageDescription", "位置权限（始终）", "location", "始终访问位置"),
    Entry("NSContactsUsageDescription", "通讯录权限", "contacts", "访问通讯录"),
    Entry("NSPhotoLibraryUsageDescription", "相册权限", "photos", "访问相册"),
    Entry("NSCalendarsUsageDescription", "日历权限", "calendar", "访问日历"),
    Entry("NSRemindersUsageDescription", "提醒事项权限", "reminders", "访问提醒事项"),
    Entry("NSMotionUsageDescription", "运动与健身权限", "motion", "访问运动与健身数据"),
    Entry("NSHealthShareUsageDescription", "健康数据读取权限", "health", "读取健康数据"),
    Entry("NSHealthUpdateUsageDescription", "健康数据写入权限", "health", "写入健康数据"),
    Entry("NSFaceIDUsageDescription", "Face ID权限", "biometric", "使用Face ID"),
    Entry("NSSpeechRecognitionUsageDescription", "语音识别权限", "speech", "使用语音识别"),
    Entry("NSAppleMusicUsageDescription", "媒体库权限", "media", "访问媒体库")
  ]

  /** Case-insensitive literal match at offset `i`, as the regular expression's `i` flag compares ASCII text. */
  predicate CiMatchesAt(s: string, lit: string, i: nat) {
    i + |lit| <= |s| && ToLower(s[i..i + |lit|]) == ToLower(lit)
  }

  /** The end of the run of white space that starts at `i` (what greedy `\s*` consumes). */
  function SpacesEnd(s: string, i: nat): (j: nat)
    requires i <= |s|
    decreases |s| - i
    ensures i <= j <= |s| && (j < |s| ==> !IsSpace(s[j]))
    ensures forall k :: i <= k < j ==> IsSpace(s[k])
  {
    if i < |s| && IsSpace(s[i]) then SpacesEnd(s, i + 1) else i
  }

  /** The end of the run of characters other than `<` that starts at `i` (what greedy `[^<]*` consumes). */
  function TextEnd(s: string, i: nat): (j: nat)
    requires i <= |s|
    decreases |s| - i
    ensures i <= j <= |s| && (j < |s| ==> s[j] == '<')
    ensures forall k :: i <= k < j ==> s[k] != '<'
  {
    if i < |s| && s[i] != '<' then TextEnd(s, i + 1) else i
  }

  /**
   * Whether `<key>K</key>\s*<string>([^<]*)</string>` (flag `i`) matches at offset `p`,
   * and the captured text. Both repetitions are followed by `<`, which neither may
   * consume, so the greedy run is the only one that can succeed and no backtracking
   * is needed.
   */
  function KeyStringAt(s: string, key: string, p: nat): (r: Option<string>)
    ensures r.Some? ==> '<' !in r.value
  {
    var open := "<key>" + key + "</key>";
    if !CiMatchesAt(s, open, p) then None
    else
      var j := SpacesEnd(s, p + |open|);
      if !CiMatchesAt(s, "<string>", j) then None
      else
        var e := TextEnd(s, j + 8);
        if CiMatchesAt(s, "</string>", e) then
          Some(s[j + 8..e])
        else None
  }

  /**
   * The regular expression matches at `p` with its white space ending at `j` and
   * capturing `c`: the key element, white space only up to `j`, `<string>`, then `c`
   * free of `<`, then `</string>`, the tags compared without regard to ASCII case.
   */
  predicate KeyStringMatch(s: string, key: string, p: nat, j: nat, c: string) {
    var open := "<key>" + key + "</key>";
    CiMatchesAt(s, open, p) && p + |open| <= j
    && CiMatchesAt(s, "<string>", j)
    && (forall k :: p + |open| <= k < j ==> IsSpace(s[k]))
    && j + 8 + |c| <= |s| && s[j + 8..j + 8 + |c|] == c && '<' !in c
    && CiMatchesAt(s, "</string>", j + 8 + |c|)
  }

  /** A case-insensitive match of a literal that starts with `<` starts with `<` itself. */
  lemma OpensWithLt(s: string, lit: string, i: nat)
    requires |lit| > 0 && lit[0] == '<' && CiMatchesAt(s, lit, i)
    ensures s[i] == '<'
  {
    assert ToLower(s[i..i + |lit|])[0] == ToLower(lit)[0];
    assert s[i..i + |lit|][0] == s[i];
  }

  /** `KeyStringAt` answers `Some(c)` exactly when the regular expression matches at `p` capturing `c`. */
  lemma KeyStringAtExact(s: string, key: string, p: nat)
    ensures KeyStringAt(s, key, p).Some? ==> exists j: nat :: KeyStringMatch(s, key, p, j, KeyStringAt(s, key, p).value)
    ensures forall j: nat, c: string :: KeyStringMatch(s, key, p, j, c) ==> KeyStringAt(s, key, p) == Some(c)
  {
    if KeyStringAt(s, key, p).Some? {
      KeyStringAtSound(s, key, p);
    }
    forall j: nat, c: string | KeyStringMatch(s, key, p, j, c)
      ensures KeyStringAt(s, key, p) == Some(c)
    {
      KeyStringAtComplete(s, key, p, j, c);
    }
  }

  lemma KeyStringAtSound(s: string, key: string, p: nat)
    requires KeyStringAt(s, key, p).Some?
    ensures var open := "<key>" + key + "</key>";
            p + |open| <= |s| && KeyStringMatch(s, key, p, SpacesEnd(s, p + |open|), KeyStringAt(s, key, p).value)
  {
    var open := "<key>" + key + "</key>";
    var j0 := SpacesEnd(s, p + |open|);
    var e := TextEnd(s, j0 + 8);
    var c := s[j0 + 8..e];
    assert KeyStringAt(s, key, p) == Some(c);
    forall k | 0 <= k < |c| ensures c[k] != '<' {
      assert c[k] == s[j0 + 8 + k];
    }
  }

  lemma KeyStringAtComplete(s: string, key: string, p: nat, j: nat, c: string)
    requires KeyStringMatch(s, key, p, j, c)
    ensures KeyStringAt(s, key, p) == Some(c)
  {
    var open := "<key>" + key + "</key>";
    var e := j + 8 + |c|;
    OpensWithLt(s, "<string>", j);
    SpacesEndAt(s, p + |open|, j);
    OpensWithLt(s, "</string>", e);
    forall k | j + 8 <= k < e ensures s[k] != '<' {
      assert s[k] == c[k - (j + 8)];
    }
    TextEndAt(s, j + 8, e);
  }

  /** The greedy white-space run from `i` stops at the first character that is not white space. */
  lemma {:induction false} SpacesEndAt(s: string, i: nat, j: nat)
    requires i <= j < |s| && !IsSpace(s[j])
    requires forall k :: i <= k < j ==> IsSpace(s[k])
    ensures SpacesEnd(s, i) == j
    decreases j - i
  {
    if i < j {
      SpacesEndAt(s, i + 1, j);
    }
  }

  /** The greedy run of characters other than `<` from `i` stops at the first `<`. */
  lemma {:induction false} TextEndAt(s: string, i: nat, e: nat)
    requires i <= e < |s| && s[e] == '<'
    requires forall k :: i <= k < e ==> s[k] != '<'
    ensures TextEnd(s, i) == e
    decreases e - i
  {
    if i < e {
      TextEndAt(s, i + 1, e);
    }
  }

  /** The leftmost match at or after offset `i`. */
  function KeyStringFrom(s: string, key: string, i: nat): (r: Option<string>)
    decreases |s| + 1 - i
    ensures r.None? ==> forall p: nat :: i <= p ==> KeyStringAt(s, key, p).None?
    ensures r.Some? ==> exists p: nat :: i <= p <= |s| && KeyStringAt(s, key, p) == r
                                        && forall q: nat :: i <= q < p ==> KeyStringAt(s, key, q).None?
  {
    if i > |s| then
      assert forall p: nat :: i <= p ==> !CiMatchesAt(s, "<key>" + key + "</key>", p);
      None
    else if KeyStringAt(s, key, i).Some? then KeyStringAt(s, key, i)
    else KeyStringFrom(s, key, i + 1)
  }

  /** `content.match(<the key/string pattern for key>)`: the captured text of the leftmost match. */
  function KeyString(content: string, key: string): Option<string> {
    KeyStringFrom(content, key, 0)
  }

  /** The record for a table key that occurs in the content: the captured `<string>` text, else the table's text. */
  function PlistPermission(content: string, e: Entry): Permission {
    Permission(e.key, e.name, e.kind, KeyString(content, e.key).GetOr(e.description))
  }

  /** The records `PlistParser.extractPermissions` emits for the rows of `table`, in row order. */
  function PlistPermissionsOf(content: string, table: seq<Entry>): seq<Permission> {
    if |table| == 0 then []
    else
      var last := table[|table| - 1];
      PlistPermissionsOf(content, table[..|table| - 1])
      + (if Contains(content, last.key) then [PlistPermission(content, last)] else [])
  }

  /** The `for (const [key, info] of Object.entries(...))` loop of `PlistParser.extractPermissions`, over any table. */
  method PlistPermissionsIn(content: string, table: seq<Entry>) returns (permissions: seq<Permission>)
    ensures permissions == PlistPermissionsOf(content, table)
  {
    permissions := [];
    var i := 0;
    while i < |table|
      invariant 0 <= i <= |table|
      invariant permissions == PlistPermissionsOf(content, table[..i])
    {
      var e := table[i];
      if Contains(content, e.key) {
        permissions := permissions + [PlistPermission(content, e)];
      }
      assert table[..i + 1][..i] == table[..i];
      i := i + 1;
    }
    assert table[..i] == table;
  }

  method ExtractPlistPermissions(content: string) returns (permissions: seq<Permission>)
    ensures permissions == PlistPermissionsOf(content, PlistTable)
  {
    permissions := PlistPermissionsIn(content, PlistTable);
  }

  /** The rows of `table` whose key occurs in the content, in table order. */
  function FoundRows(content: string, table: seq<Entry>): (rows: seq<Entry>)
    ensures |rows| <= |table|
  {
    if |table| == 0 then []
    else
      var last := table[|table| - 1];
      FoundRows(content, table[..|table| - 1]) + (if Contains(content, last.key) then [last] else [])
  }

  /** A row is found exactly when it is in the table and its key occurs in the content. */
  lemma {:induction false} FoundRowsExact(content: string, table: seq<Entry>)
    ensures forall e :: e in FoundRows(content, table) <==> e in table && Contains(content, e.key)
  {
    if |table| > 0 {
      FoundRowsExact(content, table[..|table| - 1]);
      assert table == table[..|table| - 1] + [table[|table| - 1]];
    }
  }

  /**
   * The records are those of the found rows, one each and in table order; each takes
   * its description from the scanned `<string>` when the pattern matches. So there is
   * a record for every row whose key occurs in the content, and for no other row.
   */
  lemma {:induction false} PlistPermissionsExact(content: string, table: seq<Entry>)
    ensures |PlistPermissionsOf(content, table)| == |FoundRows(content, table)| <= |table|
    ensures forall i :: 0 <= i < |FoundRows(content, table)| ==>
              PlistPermissionsOf(content, table)[i] == PlistPermission(content, FoundRows(content, table)[i])
    ensures forall e :: e in table && Contains(content, e.key) ==> PlistPermission(content, e) in PlistPermissionsOf(content, table)
    ensures forall p :: p in PlistPermissionsOf(content, table) ==>
              exists e :: e in table && Contains(content, e.key) && p == PlistPermission(content, e)
  {
    FoundRowsExact(content, table);
    PlistPermissionsInOrder(content, table);
    var r, f := PlistPermissionsOf(content, table), FoundRows(content, table);
    forall e | e in table && Contains(content, e.key) ensures PlistPermission(content, e) in r {
      var i :| 0 <= i < |f| && f[i] == e;
      assert r[i] == PlistPermission(content, e);
    }
    forall p | p in r ensures exists e :: e in table && Contains(content, e.key) && p == PlistPermission(content, e) {
      var i :| 0 <= i < |r| && r[i] == p;
      assert f[i] in f;
    }
  }

  lemma {:induction false} PlistPermissionsInOrder(content: string, table: seq<Entry>)
    ensures |PlistPermissionsOf(content, table)| == |FoundRows(content, table)|
    ensures forall i :: 0 <= i < |FoundRows(content, table)| ==>
              PlistPermissionsOf(content, table)[i] == PlistPermission(content, FoundRows(content, table)[i])
  {
    if |table| > 0 {
      PlistPermissionsInOrder(content, table[..|table| - 1]);
    }
  }

  /** An `appInfo` property read from Info.plist: the plist key and the property it fills. */
  datatype InfoKey = InfoKey(key: string, prop: string)

  const PlistInfoKeys: seq<InfoKey> := [
    InfoKey("CFBundleDisplayName", "displayName"),
    InfoKey("CFBundleName", "bundleName"),
    InfoKey("CFBundleIdentifier", "bundleId"),
    InfoKey("CFBundleVersion", "version"),
    InfoKey("CFBundleShortVersionString", "shortVersion"),
    InfoKey("LSMinimumSystemVersion", "minSystemVersion"),
    InfoKey("UIRequiredDeviceCapabilities", "requiredCapabilities")
  ]

  /** The properties of `keys` whose key `find` answers, each holding the answer; later rows write over earlier ones. */
  function AssignFound(keys: seq<InfoKey>, find: string -> Option<string>): AppInfo {
    if |keys| == 0 then map[]
    else
      var info := AssignFound(keys[..|keys| - 1], find);
      var k := keys[|keys| - 1];
      var m := find(k.key);
      if m.Some? then info[k.prop := m] else info
  }

  /** The `appInfo` that `PlistParser.extractAppInfo` assigns from the rows of `keys`. */
  function PlistAppInfoOf(content: string, keys: seq<InfoKey>): AppInfo {
    AssignFound(keys, k => KeyString(content, k))
  }

  /** The assignment loop of `PlistParser.extractAppInfo`, over any keys and any way of finding their values. */
  method AssignFoundIn(keys: seq<InfoKey>, find: string -> Option<string>) returns (info: AppInfo)
    ensures info == AssignFound(keys, find)
  {
    info := map[];
    var i := 0;
    while i < |keys|
      invariant 0 <= i <= |keys|
      invariant info == AssignFound(keys[..i], find)
    {
      var k := keys[i];
      var m := find(k.key);
      if m.Some? {
        info := info[k.prop := m];
      }
      assert keys[..i + 1][..i] == keys[..i];
      i := i + 1;
    }
    assert keys[..i] == keys;
  }

  method ExtractPlistAppInfo(content: string) returns (info: AppInfo)
    ensures info == PlistAppInfoOf(content, PlistInfoKeys)
  {
    info := AssignFoundIn(PlistInfoKeys, k => KeyString(content, k));
  }

  predicate DistinctProps(keys: seq<InfoKey>) {
    forall i, j :: 0 <= i < j < |keys| ==> keys[i].prop != keys[j].prop
  }

  /** Only properties named in the table are ever set. */
  lemma {:induction false} AssignFoundOnlyTable(keys: seq<InfoKey>, find: string -> Option<string>)
    ensures forall p :: p in AssignFound(keys, find) ==> exists i :: 0 <= i < |keys| && keys[i].prop == p
  {
    if |keys| > 0 {
      var n := |keys| - 1;
      var k' := keys[..n];
      AssignFoundOnlyTable(k', find);
      forall p | p in AssignFound(keys, find) ensures exists i :: 0 <= i < |keys| && keys[i].prop == p {
        if p != keys[n].prop {
          assert p in AssignFound(k', find);
          var i :| 0 <= i < |k'| && k'[i].prop == p;
          assert keys[i].prop == p;
        }
      }
    }
  }

  /** With distinct property names, a property is set exactly when its key is found, to what was found. */
  lemma {:induction false} AssignFoundExact(keys: seq<InfoKey>, find: string -> Option<string>)
    requires DistinctProps(keys)
    ensures forall i :: 0 <= i < |keys| ==> (keys[i].prop in AssignFound(keys, find) <==> find(keys[i].key).Some?)
    ensures forall i :: 0 <= i < |keys| && find(keys[i].key).Some? ==>
              AssignFound(keys, find)[keys[i].prop] == find(keys[i].key)
  {
    if |keys| > 0 {
      var n := |keys| - 1;
      var k' := keys[..n];
      var last := keys[n];
      assert DistinctProps(k');
      AssignFoundExact(k', find);
      AssignFoundOnlyTable(k', find);
      assert last.prop !in AssignFound(k', find);
      forall i | 0 <= i < n
        ensures (keys[i].prop in AssignFound(keys, find) <==> find(keys[i].key).Some?)
        ensures find(keys[i].key).Some? ==> AssignFound(keys, find)[keys[i].prop] == find(keys[i].key)
      {
        assert keys[i] == k'[i];
        assert keys[i].prop != last.prop;
      }
    }
  }

  /**
   * Each Info.plist property is set exactly when its key's pattern matches, holding the
   * captured text, and no other property is set.
   */
  lemma PlistAppInfoExact(content: string)
    ensures forall i :: 0 <= i < |PlistInfoKeys| ==>
              (PlistInfoKeys[i].prop in PlistAppInfoOf(content, PlistInfoKeys) <==> KeyString(content, PlistInfoKeys[i].key).Some?)
    ensures forall i :: 0 <= i < |PlistInfoKeys| && KeyString(content, PlistInfoKeys[i].key).Some? ==>
              PlistAppInfoOf(content, PlistInfoKeys)[PlistInfoKeys[i].prop] == KeyString(content, PlistInfoKeys[i].key)
    ensures forall p :: p in PlistAppInfoOf(content, PlistInfoKeys) ==>
              exists i :: 0 <= i < |PlistInfoKeys| && PlistInfoKeys[i].prop == p
  {
    var find := k => KeyString(content, k);
    AssignFoundExact(PlistInfoKeys, find);
    AssignFoundOnlyTable(PlistInfoKeys, find);
  }

  /** `PlistParser.detectSpecificPlatform`: content markers first, then the file name. */
  function PlistPlatform(content: string, filename: string): string {
    var c := ToLower(content);
    var f := ToLower(filename);
    if Contains(c, "iphoneos") || Contains(c, "iphone") then "iOS"
    else if Contains(c, "macosx") || Contains(c, "macos") then "macOS"
    else if Contains(c, "appletvos") then "tvOS"
    else if Contains(c, "watchos") then "watchOS"
    else if Contains(f, "ios") then "iOS"
    else if Contains(f, "macos") then "macOS"
    else "iOS/macOS"
  }

  /** `PlistParser.parse`: the text scan never throws, so an Info.plist always parses. */
  function PlistParse(content: string, filename: string): ParseResult {
    ParseResult(PlistPlatform(content, filename), "Info.plist",
                PlistPermissionsOf(content, PlistTable), PlistAppInfoOf(content, PlistInfoKeys))
  }

  // ---------------------------------------------------------------- AndroidManifest.xml

  const AndroidTable: seq<Entry> := [
    Entry("android.permission.CAMERA", "相机权限", "camera", "访问相机"),
    Entry("android.permission.RECORD_AUDIO", "麦克风权限", "microphone", "录制音频"),
    Entry("android.permission.ACCESS_FINE_LOCATION", "精确位置权限", "location", "访问精确位置"),
    Entry("android.permission.ACCESS_COARSE_LOCATION", "大致位置权限", "location", "访问大致位置"),
    Entry("android.permission.READ_CONTACTS", "读取通讯录权限", "contacts", "读取通讯录"),
    Entry("android.permission.WRITE_CONTACTS", "写入通讯录权限", "contacts", "修改通讯录"),
    Entry("android.permission.READ_EXTERNAL_STORAGE", "读取存储权限", "storage", "读取外部存储"),
    Entry("android.permission.WRITE_EXTERNAL_STORAGE", "写入存储权限", "storage", "写入外部存储"),
    Entry("android.permission.READ_PHONE_STATE", "读取手机状态权限", "phone", "读取手机状态"),
    Entry("android.permission.CALL_PHONE", "拨打电话权限", "phone", "拨打电话"),
    Entry("android.permission.READ_SMS", "读取短信权限", "sms", "读取短信"),
    Entry("android.permission.SEND_SMS", "发送短信权限", "sms", "发送短信"),
    Entry("android.permission.READ_CALENDAR", "读取日历权限", "calendar", "读取日历"),
    Entry("android.permission.WRITE_CALENDAR", "写入日历权限", "calendar", "修改日历"),
    Entry("android.permission.USE_FINGERPRINT", "指纹权限", "biometric", "使用指纹"),
    Entry("android.permission.USE_BIOMETRIC", "生物识别权限", "biometric", "使用生物识别"),
    Entry("android.permission.INTERNET", "网络权限", "network", "访问网络"),
    Entry("android.permission.ACCESS_NETWORK_STATE", "网络状态权限", "network", "访问网络状态"),
    Entry("android.permission.ACCESS_WIFI_STATE", "WiFi状态权限", "network", "访问WiFi状态"),
    Entry("android.permission.BLUETOOTH", "蓝牙权限", "bluetooth", "使用蓝牙"),
    Entry("android.permission.BLUETOOTH_ADMIN", "蓝牙管理权限", "bluetooth", "管理蓝牙")
  ]

  /** The values of attribute `attr` that `if (name)` lets through: present and non-empty, in element order. */
  function NamedValues(elems: seq<XmlElement>, attr: string): seq<string> {
    if |elems| == 0 then []
    else
      var a := GetAttribute(elems[|elems| - 1], attr);
      NamedValues(elems[..|elems| - 1], attr) + (if a.Some? && a.value != "" then [a.value] else [])
  }

  /** The record for a table row, under the key read from the manifest. */
  function KnownPermission(key: string, e: Entry): Permission {
    Permission(key, e.name, e.kind, e.description)
  }

  /** A `uses-permission` name against `table`: its row, or an `unknown` record named by its own key. */
  function NamedPermission(name: string, table: seq<Entry>): Permission {
    match Lookup(table, name)
    case Some(e) => KnownPermission(name, e)
    case None => Permission(name, name, "unknown", UnknownDescription)
  }

  /** The records the `uses-permission` loop emits against `table`, in element order. */
  function NamedPermissionsOf(elems: seq<XmlElement>, table: seq<Entry>): seq<Permission> {
    if |elems| == 0 then []
    else
      var a := GetAttribute(elems[|elems| - 1], "android:name");
      NamedPermissionsOf(elems[..|elems| - 1], table)
      + (if a.Some? && a.value != "" then [NamedPermission(a.value, table)] else [])
  }

  /** The records `AndroidManifestParser.extractPermissions` emits for these `uses-permission` elements. */
  function AndroidPermissionsOf(elems: seq<XmlElement>): seq<Permission> {
    NamedPermissionsOf(elems, AndroidTable)
  }

  /** The `usesPermissions.forEach` loop, over any table. */
  method NamedPermissionsIn(elems: seq<XmlElement>, table: seq<Entry>) returns (permissions: seq<Permission>)
    ensures permissions == NamedPermissionsOf(elems, table)
  {
    permissions := [];
    var i := 0;
    while i < |elems|
      invariant 0 <= i <= |elems|
      invariant permissions == NamedPermissionsOf(elems[..i], table)
    {
      var name := GetAttribute(elems[i], "android:name");
      if name.Some? && name.value != "" {
        var entry := Lookup(table, name.value);
        if entry.Some? {
          permissions := permissions + [KnownPermission(name.value, entry.value)];
        } else {
          permissions := permissions + [Permission(name.value, name.value, "unknown", UnknownDescription)];
        }
      }
      assert elems[..i + 1][..i] == elems[..i];
      i := i + 1;
    }
    assert elems[..i] == elems;
  }

  method ExtractAndroidPermissions(doc: XmlDoc) returns (permissions: seq<Permission>)
    ensures permissions == AndroidPermissionsOf(ElementsByTag(doc, "uses-permission"))
  {
    permissions := NamedPermissionsIn(ElementsByTag(doc, "uses-permission"), AndroidTable);
  }

  /**
   * Exactly one record per `uses-permission` element that carries a name, in element
   * order; a name outside the table is kept, typed `unknown` and named by its key.
   */
  lemma {:induction false} AndroidOnePerNamedElement(elems: seq<XmlElement>, table: seq<Entry>)
    ensures |NamedPermissionsOf(elems, table)| == |NamedValues(elems, "android:name")|
    ensures forall i :: 0 <= i < |NamedPermissionsOf(elems, table)| ==>
              var n := NamedValues(elems, "android:name")[i];
              var p := NamedPermissionsOf(elems, table)[i];
              p.key == n
              && (Lookup(table, n).None? ==> p.kind == "unknown" && p.name == n && p.description == UnknownDescription)
              && (Lookup(table, n).Some? ==> p == KnownPermission(n, Lookup(table, n).value))
  {
    if |elems| > 0 {
      AndroidOnePerNamedElement(elems[..|elems| - 1], table);
    }
  }

  /** `AndroidManifestParser.extractAppInfo`: three `manifest` and three `application` attributes. */
  function AndroidAppInfo(doc: XmlDoc): AppInfo {
    var manifest := ElementsByTag(doc, "manifest");
    var application := ElementsByTag(doc, "application");
    (if |manifest| > 0 then
       map["packageName" := GetAttribute(manifest[0], "package"),
           "versionCode" := GetAttribute(manifest[0], "android:versionCode"),
           "versionName" := GetAttribute(manifest[0], "android:versionName")]
     else map[])
    + (if |application| > 0 then
         map["label" := GetAttribute(application[0], "android:label"),
             "icon" := GetAttribute(application[0], "android:icon"),
             "theme" := GetAttribute(application[0], "android:theme")]
       else map[])
  }

  /** `AndroidManifestParser.parse`: a document holding `parsererror` is refused. */
  function AndroidParse(doc: XmlDoc): Result<ParseResult> {
    if doc.parserError then Err("AndroidManifest.xml 解析失败: XML格式错误")
    else Ok(ParseResult("Android", "AndroidManifest.xml",
                        AndroidPermissionsOf(ElementsByTag(doc, "uses-permission")), AndroidAppInfo(doc)))
  }

  // ---------------------------------------------------------------- AppxManifest.xml

  const CapabilityTable: seq<Entry> := [
    Entry("internetClient", "网络客户端权限", "network", "访问网络（客户端）"),
    Entry("internetClientServer", "网络服务器权限", "network", "访问网络（服务器）"),
    Entry("privateNetworkClientServer", "私有网络权限", "network", "访问私有网络"),
    Entry("documentsLibrary", "文档库权限", "storage", "访问文档库"),
    Entry("picturesLibrary", "图片库权限", "storage", "访问图片库"),
    Entry("videosLibrary", "视频库权限", "storage", "访问视频库"),
    Entry("musicLibrary", "音乐库权限", "storage", "访问音乐库"),
    Entry("removableStorage", "可移动存储权限", "storage", "访问可移动存储")
  ]

  const DeviceCapabilityTable: seq<Entry> := [
    Entry("webcam", "摄像头权限", "camera", "访问摄像头"),
    Entry("microphone", "麦克风权限", "microphone", "访问麦克风"),
    Entry("location", "位置权限", "location", "访问位置服务"),
    Entry("bluetooth", "蓝牙权限", "bluetooth", "使用蓝牙"),
    Entry("proximity", "近距离通信权限", "nfc", "使用近距离通信")
  ]

  /** The names among `names` that `table` knows, in order. */
  function KnownNames(names: seq<string>, table: seq<Entry>): seq<string> {
    if |names| == 0 then []
    else
      KnownNames(names[..|names| - 1], table)
      + (if Lookup(table, names[|names| - 1]).Some? then [names[|names| - 1]] else [])
  }

  /** The records one capability loop emits: elements whose `Name` the table knows; others are dropped. */
  function CapabilityPermissionsOf(elems: seq<XmlElement>, table: seq<Entry>): seq<Permission> {
    if |elems| == 0 then []
    else
      var a := GetAttribute(elems[|elems| - 1], "Name");
      CapabilityPermissionsOf(elems[..|elems| - 1], table)
      + (if a.Some? && a.value != "" && Lookup(table, a.value).Some?
         then [KnownPermission(a.value, Lookup(table, a.value).value)] else [])
  }

  /** Every `Capability` record against `ct`, then every `DeviceCapability` record against `dt`. */
  function AppxPermissionsWith(doc: XmlDoc, ct: seq<Entry>, dt: seq<Entry>): seq<Permission> {
    CapabilityPermissionsOf(ElementsByTag(doc, "Capability"), ct)
    + CapabilityPermissionsOf(ElementsByTag(doc, "DeviceCapability"), dt)
  }

  /** `AppxManifestParser.extractPermissions`: the two loops against the capability and device-capability tables. */
  function AppxPermissionsOf(doc: XmlDoc): seq<Permission> {
    AppxPermissionsWith(doc, CapabilityTable, DeviceCapabilityTable)
  }

  /** One capability loop of `AppxManifestParser.extractPermissions`: elements against `table`, appended in order. */
  method CapabilityPermissionsIn(elems: seq<XmlElement>, table: seq<Entry>) returns (permissions: seq<Permission>)
    ensures permissions == CapabilityPermissionsOf(elems, table)
  {
    permissions := [];
    var i := 0;
    while i < |elems|
      invariant 0 <= i <= |elems|
      invariant permissions == CapabilityPermissionsOf(elems[..i], table)
    {
      var name := GetAttribute(elems[i], "Name");
      if name.Some? && name.value != "" {
        var entry := Lookup(table, name.value);
        if entry.Some? {
          permissions := permissions + [KnownPermission(name.value, entry.value)];
        }
      }
      assert elems[..i + 1][..i] == elems[..i];
      i := i + 1;
    }
    assert elems[..i] == elems;
  }

  method ExtractAppxPermissions(doc: XmlDoc) returns (permissions: seq<Permission>)
    ensures permissions == AppxPermissionsOf(doc)
  {
    var fromCaps := CapabilityPermissionsIn(ElementsByTag(doc, "Capability"), CapabilityTable);
    var fromDevices := CapabilityPermissionsIn(ElementsByTag(doc, "DeviceCapability"), DeviceCapabilityTable);
    permissions := fromCaps + fromDevices;
  }

  /** One record per element whose `Name` the table knows, in element order, built from that row. */
  lemma {:induction false} CapabilityKnownOnly(elems: seq<XmlElement>, table: seq<Entry>)
    ensures |CapabilityPermissionsOf(elems, table)| == |KnownNames(NamedValues(elems, "Name"), table)|
    ensures forall i :: 0 <= i < |CapabilityPermissionsOf(elems, table)| ==>
              var n := KnownNames(NamedValues(elems, "Name"), table)[i];
              Lookup(table, n).Some? && CapabilityPermissionsOf(elems, table)[i] == KnownPermission(n, Lookup(table, n).value)
  {
    if |elems| > 0 {
      var e' := elems[..|elems| - 1];
      CapabilityKnownOnly(e', table);
      var a := GetAttribute(elems[|elems| - 1], "Name");
      var ns := NamedValues(elems, "Name");
      if a.Some? && a.value != "" {
        assert ns == NamedValues(e', "Name") + [a.value];
        assert ns[..|ns| - 1] == NamedValues(e', "Name");
      } else {
        assert ns == NamedValues(e', "Name");
      }
    }
  }

  /** Two capability loops one after the other: the first loop's records, then the second's. */
  lemma CapabilityLoopsInOrder(c: seq<XmlElement>, ct: seq<Entry>, d: seq<XmlElement>, dt: seq<Entry>)
    ensures var caps := KnownNames(NamedValues(c, "Name"), ct);
            var devs := KnownNames(NamedValues(d, "Name"), dt);
            var r := CapabilityPermissionsOf(c, ct) + CapabilityPermissionsOf(d, dt);
            |r| == |caps| + |devs|
            && (forall i :: 0 <= i < |caps| ==> Lookup(ct, caps[i]).Some? && r[i] == KnownPermission(caps[i], Lookup(ct, caps[i]).value))
            && (forall i :: 0 <= i < |devs| ==>
                  Lookup(dt, devs[i]).Some? && r[|caps| + i] == KnownPermission(devs[i], Lookup(dt, devs[i]).value))
  {
    var rc := CapabilityPermissionsOf(c, ct);
    var rd := CapabilityPermissionsOf(d, dt);
    var caps := KnownNames(NamedValues(c, "Name"), ct);
    var devs := KnownNames(NamedValues(d, "Name"), dt);
    CapabilityKnownOnly(c, ct);
    CapabilityKnownOnly(d, dt);
    assert |rc| == |caps| && |rd| == |devs|;
    assert forall i :: 0 <= i < |caps| ==> Lookup(ct, caps[i]).Some? && rc[i] == KnownPermission(caps[i], Lookup(ct, caps[i]).value);
    assert forall i :: 0 <= i < |devs| ==> Lookup(dt, devs[i]).Some? && rd[i] == KnownPermission(devs[i], Lookup(dt, devs[i]).value);
    KnownConcat(rc, rd, caps, devs, ct, dt);
  }

  lemma KnownConcat(rc: seq<Permission>, rd: seq<Permission>, caps: seq<string>, devs: seq<string>, ct: seq<Entry>, dt: seq<Entry>)
    requires |rc| == |caps| && |rd| == |devs|
    requires forall i :: 0 <= i < |caps| ==> Lookup(ct, caps[i]).Some? && rc[i] == KnownPermission(caps[i], Lookup(ct, caps[i]).value)
    requires forall i :: 0 <= i < |devs| ==> Lookup(dt, devs[i]).Some? && rd[i] == KnownPermission(devs[i], Lookup(dt, devs[i]).value)
    ensures |rc + rd| == |caps| + |devs|
    ensures forall i :: 0 <= i < |caps| ==> Lookup(ct, caps[i]).Some? && (rc + rd)[i] == KnownPermission(caps[i], Lookup(ct, caps[i]).value)
    ensures forall i :: 0 <= i < |devs| ==>
              Lookup(dt, devs[i]).Some? && (rc + rd)[|caps| + i] == KnownPermission(devs[i], Lookup(dt, devs[i]).value)
  {
    forall i | 0 <= i < |devs|
      ensures (rc + rd)[|caps| + i] == rd[i]
    {
    }
  }

  /**
   * The Capability records come first and the DeviceCapability records after them,
   * each built from its own table's row; names either table lacks are dropped.
   */
  lemma AppxCapabilitiesFirst(doc: XmlDoc, ct: seq<Entry>, dt: seq<Entry>)
    ensures var caps := KnownNames(NamedValues(ElementsByTag(doc, "Capability"), "Name"), ct);
            var devs := KnownNames(NamedValues(ElementsByTag(doc, "DeviceCapability"), "Name"), dt);
            var r := AppxPermissionsWith(doc, ct, dt);
            |r| == |caps| + |devs|
            && (forall i :: 0 <= i < |caps| ==> Lookup(ct, caps[i]).Some? && r[i] == KnownPermission(caps[i], Lookup(ct, caps[i]).value))
            && (forall i :: 0 <= i < |devs| ==>
                  Lookup(dt, devs[i]).Some? && r[|caps| + i] == KnownPermission(devs[i], Lookup(dt, devs[i]).value))
  {
    CapabilityLoopsInOrder(ElementsByTag(doc, "Capability"), ct, ElementsByTag(doc, "DeviceCapability"), dt);
  }

  /** `AppxManifestParser.extractAppInfo`: three `Identity` attributes and two `Properties` texts. */
  function AppxAppInfo(doc: XmlDoc): AppInfo {
    var identity := ElementsByTag(doc, "Identity");
    var properties := ElementsByTag(doc, "Properties");
    (if |identity| > 0 then
       map["name" := GetAttribute(identity[0], "Name"),
           "version" := GetAttribute(identity[0], "Version"),
           "publisher" := GetAttribute(identity[0], "Publisher")]
     else map[])
    + (if |properties| > 0 then FirstText(properties[0], "DisplayName", "displayName")
                                + FirstText(properties[0], "PublisherDisplayName", "publisherDisplayName")
       else map[])
  }

  /** The `textContent` of the first descendant `tag`, stored under `prop`, when there is one. */
  function FirstText(e: XmlElement, tag: string, prop: string): AppInfo {
    if tag in e.descendantText && |e.descendantText[tag]| > 0 then map[prop := Some(e.descendantText[tag][0])]
    else map[]
  }

  /** `AppxManifestParser.parse`: a document holding `parsererror` is refused. */
  function AppxParse(doc: XmlDoc): Result<ParseResult> {
    if doc.parserError then Err("AppxManifest.xml 解析失败: XML格式错误")
    else Ok(ParseResult("Windows", "AppxManifest.xml", AppxPermissionsOf(doc), AppxAppInfo(doc)))
  }

  // ---------------------------------------------------------------- HarmonyOS config.json

  const HarmonyTable: seq<Entry> := [
    Entry("ohos.permission.CAMERA", "相机权限", "camera", "访问相机"),
    Entry("ohos.permission.MICROPHONE", "麦克风权限", "microphone", "访问麦克风"),
    Entry("ohos.permission.LOCATION", "位置权限", "location", "访问位置信息"),
    Entry("ohos.permission.LOCATION_IN_BACKGROUND", "后台位置权限", "location", "后台访问位置信息"),
    Entry("ohos.permission.READ_MEDIA", "媒体读取权限", "storage", "读取媒体文件"),
    Entry("ohos.permission.WRITE_MEDIA", "媒体写入权限", "storage", "写入媒体文件"),
    Entry("ohos.permission.INTERNET", "网络权限", "network", "访问网络"),
    Entry("ohos.permission.GET_NETWORK_INFO", "网络信息权限", "network", "获取网络信息"),
    Entry("ohos.permission.READ_CONTACTS", "通讯录读取权限", "contacts", "读取通讯录"),
    Entry("ohos.permission.WRITE_CONTACTS", "通讯录写入权限", "contacts", "修改通讯录"),
    Entry("ohos.permission.READ_CALENDAR", "日历读取权限", "calendar", "读取日历"),
    Entry("ohos.permission.WRITE_CALENDAR", "日历写入权限", "calendar", "修改日历"),
    Entry("ohos.permission.USE_BLUETOOTH", "蓝牙权限", "bluetooth", "使用蓝牙"),
    Entry("ohos.permission.DISCOVER_BLUETOOTH", "蓝牙发现权限", "bluetooth", "发现蓝牙设备"),
    Entry("ohos.permission.MANAGE_BLUETOOTH", "蓝牙管理权限", "bluetooth", "管理蓝牙"),
    Entry("ohos.permission.ACTIVITY_MOTION", "运动传感器权限", "motion", "访问运动传感器"),
    Entry("ohos.permission.READ_HEALTH_DATA", "健康数据读取权限", "health", "读取健康数据")
  ]

  /** `config.module?.reqPermissions || []`. */
  function ReqPermissionsOf(config: JsonConfig): seq<ReqPermission> {
    match config.moduleObj
    case None => []
    case Some(m) => m.reqPermissions.GetOr([])
  }

  /** One request against `table`: a non-empty `reason` replaces the default description, for known and unknown names alike. */
  function RequestPermission(req: ReqPermission, table: seq<Entry>): Permission {
    match Lookup(table, req.name)
    case Some(e) => Permission(req.name, e.name, e.kind, if req.reason != "" then req.reason else e.description)
    case None => Permission(req.name, req.name, "unknown", if req.reason != "" then req.reason else UnknownDescription)
  }

  /** The records the `reqPermissions.forEach` loop emits against `table`, in request order. */
  function RequestPermissionsOf(reqs: seq<ReqPermission>, table: seq<Entry>): seq<Permission> {
    if |reqs| == 0 then []
    else RequestPermissionsOf(reqs[..|reqs| - 1], table) + [RequestPermission(reqs[|reqs| - 1], table)]
  }

  /** `HarmonyOSConfigParser.extractPermissions`: the requests read against the HarmonyOS table. */
  function HarmonyPermissionsOf(reqs: seq<ReqPermission>): seq<Permission> {
    RequestPermissionsOf(reqs, HarmonyTable)
  }

  /** The `reqPermissions.forEach` loop, over any table. */
  method RequestPermissionsIn(reqs: seq<ReqPermission>, table: seq<Entry>) returns (permissions: seq<Permission>)
    ensures permissions == RequestPermissionsOf(reqs, table)
  {
    permissions := [];
    var i := 0;
    while i < |reqs|
      invariant 0 <= i <= |reqs|
      invariant permissions == RequestPermissionsOf(reqs[..i], table)
    {
      var req := reqs[i];
      var entry := Lookup(table, req.name);
      var p;
      if entry.Some? {
        p := Permission(req.name, entry.value.name, entry.value.kind,
                        if req.reason != "" then req.reason else entry.value.description);
      } else {
        p := Permission(req.name, req.name, "unknown", if req.reason != "" then req.reason else UnknownDescription);
      }
      permissions := permissions + [p];
      assert reqs[..i + 1][..i] == reqs[..i];
      i := i + 1;
    }
    assert reqs[..i] == reqs;
  }

  method ExtractHarmonyPermissions(config: JsonConfig) returns (permissions: seq<Permission>)
    ensures permissions == HarmonyPermissionsOf(ReqPermissionsOf(config))
  {
    permissions := RequestPermissionsIn(ReqPermissionsOf(config), HarmonyTable);
  }

  /**
   * One record per `reqPermissions` element, in order, keyed by its name; a non-empty
   * reason is its description, otherwise the table text or `未知权限`.
   */
  lemma {:induction false} HarmonyOnePerRequest(reqs: seq<ReqPermission>, table: seq<Entry>)
    ensures |RequestPermissionsOf(reqs, table)| == |reqs|
    ensures forall i :: 0 <= i < |reqs| ==>
              var p := RequestPermissionsOf(reqs, table)[i];
              var e := Lookup(table, reqs[i].name);
              p.key == reqs[i].name
              && (reqs[i].reason != "" ==> p.description == reqs[i].reason)
              && (e.None? ==> p.kind == "unknown" && p.name == reqs[i].name
                              && (reqs[i].reason == "" ==> p.description == UnknownDescription))
              && (e.Some? ==> p.kind == e.value.kind && p.name == e.value.name
                              && (reqs[i].reason == "" ==> p.description == e.value.description))
  {
    if |reqs| > 0 {
      HarmonyOnePerRequest(reqs[..|reqs| - 1], table);
    }
  }

  function MemberOf(obj: map<string, string>, names: seq<string>): AppInfo {
    map n | n in names :: Member(obj, n)
  }

  /** `HarmonyOSConfigParser.extractAppInfo`: four `app` members and five `module` members. */
  function HarmonyAppInfo(config: JsonConfig): AppInfo {
    (if config.app.Some? then MemberOf(config.app.value, ["bundleName", "vendor", "version", "apiVersion"])
     else map[])
    + (if config.moduleObj.Some?
       then MemberOf(config.moduleObj.value.members, ["package", "name", "mainAbility", "deviceType", "distro"])
       else map[])
  }

  /** `HarmonyOSConfigParser.parse`: a JSON syntax error is reported with its message. */
  function HarmonyParse(json: Result<JsonConfig>): Result<ParseResult> {
    match json
    case Err(m) => Err("config.json 解析失败: " + m)
    case Ok(config) =>
      Ok(ParseResult("鸿蒙OS", "config.json", HarmonyPermissionsOf(ReqPermissionsOf(config)), HarmonyAppInfo(config)))
  }
}
