# Privacy-compliance checker: a Dafny model

This project models the part of the privacy-compliance checker that decides its
verdicts. The checker reads an app's configuration files (Info.plist,
AndroidManifest.xml, AppxManifest.xml, HarmonyOS config.json) and extracts the
permissions each declares. It then compares them with the permission types and the
kinds of personal information that a privacy-policy text mentions. The model covers:

- `parser.js`
  - `ConfigParser`: extension dispatch, platform detection, quality score and the
    parse statistics it keeps.
  - The four platform extractors.
  - `PermissionAnalyzer`: the two-way compliance comparison, the compliance rate and
    the rule-based recommendations.
- `parser-enhanced.js`: the batch parse, the flattening of permissions into
  normalised records and details, the enhanced analysis and its report.
- `info-collector.js` (`InfoCollectionAnalyzer`)
  - Keyword search with context windows and confidence.
  - Collection methods and the records configuration permissions imply.
  - The merge of privacy and configuration records, stably sorted by descending
    confidence.
  - The collection report and its recommendations.
- `script.js`: the helpers that feed these analyses and present their results. These
  are the upload list, the platform key, the compliance level, the description, risk
  and fix tables, the scenario table, the enhanced recommendations and the preset
  application list.

Modules, one per source component:

| module | file | models |
|---|---|---|
| `Wrappers` | `wrappers.dfy` | `Option` and `Result` |
| `Text` | `text.dfy` | substring search, ASCII case mapping, `split('.').pop()`, de-duplication in first-occurrence order |
| `Manifest` | `manifest.dfy` | permissions, parse results, and the FileReader, DOMParser and `JSON.parse` outputs supplied as inputs |
| `Extractors` | `extractors.dfy` | the four platform parsers and their permission tables |
| `ConfigParsing` | `config_parser.dfy` | `ConfigParser`: a class whose counters and history `parseFile` updates |
| `Keywords` | `keywords.dfy` | "some keyword occurs in the text" and the loop that decides it |
| `PermissionAnalysis` | `permission_analyzer.dfy` | `PermissionAnalyzer` |
| `EnhancedParsing` | `parser_enhanced.dfy` | `ConfigParserEnhanced` |
| `EnhancedAnalysis` | `parser_enhanced.dfy` | `PermissionAnalyzerEnhanced` |
| `InfoCollection` | `info_collector.dfy` | `InfoCollectionAnalyzer` |
| `ScriptHelpers` | `script_helpers.dfy` | the listed helpers of `script.js`; `uploadedFiles` is a class |

Loops in the source become methods with `while` loops. Each loop method is proved
equal to a specification function, and the properties are proved about those
functions as lemmas. The methods of the two classes (`ConfigParser` and the upload
list) state their new fields in terms of the old ones. The JavaScript semantics the model writes out explicitly:

- `Array.prototype.splice` reads its start position relative to the length, and
  clamps it.
- `findIndex` and `find` return the first match.
- `Object.entries` scans in insertion order with an early return.
- The default `sort` compares strings code unit by code unit.
- `Math.round(x / y * 100)` is rounding half up on exact rationals.
- `Math.round(NaN) < 80` is false.

## Model

| member | source | states |
|---|---|---|
| `Text.IndexOf` | info-collector.js:228 | `indexOf`: the first offset where the pattern occurs, or -1 exactly when it occurs nowhere |
| `Text.AfterLastDot` | parser.js:176-178 | `split('.').pop()`: the suffix after the last dot, the whole string when there is none |
| `Text.Dedup` | info-collector.js:338-340 | `[...new Set(xs)]`: no repeats and exactly the same elements |
| `Text.DedupFirstOccurrence` | info-collector.js:338-340 | the elements are listed in the order of their first occurrences in the input |
| `Text.DedupOfDistinct` | info-collector.js:338-340 | a list without repeats is its own de-duplication |
| `Keywords.ScanKeywords` | parser.js:926-936 | the `some` loop returns true exactly when a keyword occurs in the text |
| `ConfigParsing.FileExtension` | parser.js:176-178 | the lower-cased text after the last dot: it holds no dot, and a dot precedes it unless it is the whole name |
| `ConfigParsing.DetectPlatformPrecedence` | parser.js:70-113 | a name marker decides regardless of the extension; only Info.plist lets content refine it; without a name marker only xml and json content is sniffed, and anything else is Unknown |
| `ConfigParsing.QualityScore` | parser.js:153-173 | at most 100; exactly 100 iff at least 8 permissions, 6 app-info fields and a recognised platform; 0 when all three are missing |
| `ConfigParsing.QualityScoreMonotone` | parser.js:153-173 | one more permission never lowers the score |
| `ConfigParsing.ParseContent` | parser.js:21-67 | blank content and unsupported extensions are refused with their messages; a success carries the file name, the detected platform and the quality score of its result |
| `ConfigParsing.ParseContentRoutes` | parser.js:41-49 | plist and json routing: a plist always parses; json not named config is refused; a config.json parses iff its JSON is well formed, and a syntax error is reported with its message |
| `ConfigParsing.ParseXmlRoutes` | parser.js:116-125 | xml routing: a name containing androidmanifest or appxmanifest picks that parser, which succeeds iff the document has no parse error, with its platform; xml with neither marker in its name or content is refused with the message |
| `ConfigParsing.Successes` | parser.js:258-265 | the number of successful history entries: at most the history's length, equal to it iff every entry succeeded, 0 iff none did |
| `ConfigParsing.ConfigParser.constructor` | parser.js:3-18 | all counters zero, an empty history, and the parser table fixed to the extension dispatch `ParseContent` |
| `ConfigParsing.ConfigParser.RecordSuccess` | parser.js:234-243 | total and successes go up by one, failures unchanged, one success entry appended; the counters keep agreeing with the history |
| `ConfigParsing.ConfigParser.RecordFailure` | parser.js:246-255 | total and failures go up by one, successes unchanged, one failure entry with the message appended |
| `ConfigParsing.ConfigParser.ResetStats` | parser.js:268-275 | back to the initial state |
| `ConfigParsing.ConfigParser.ParseFile` | parser.js:21-67 | records the outcome once in the history; returns the parse result, or rethrows the inner message prefixed by the file name |
| `Extractors.Lookup` | parser.js:463-477 | `table[key]`: `None` iff no row has the key, else the first row with it |
| `Extractors.KeyStringAt` | parser.js:466 | the key/string regular expression at one offset; the captured text holds no `<` |
| `Extractors.KeyStringAtExact` | parser.js:466 | `Some(c)` iff `<key>K</key>`, white space, `<string>`, `c` without `<`, `</string>` match there, tags ignoring ASCII case; `None` iff nothing matches |
| `Extractors.KeyStringFrom` | parser.js:466 | the leftmost offset where the pattern matches, or none anywhere |
| `Extractors.ExtractPlistPermissions` | parser.js:385-480 | the scan loop builds exactly the per-row records of the Info.plist table |
| `Extractors.FoundRowsExact` | parser.js:463-477 | a table row is kept iff its key occurs in the content |
| `Extractors.PlistPermissionsExact` | parser.js:463-477 | one record per table row whose key occurs in the content, in table order, each with the description from the matched `<string>`, and no other record |
| `Extractors.ExtractPlistAppInfo` | parser.js:482-504 | the loop assigns exactly the app-info specification |
| `Extractors.AssignFoundExact` | parser.js:482-504 | with distinct properties, a property is set iff its key is found, holding what was found |
| `Extractors.PlistAppInfoExact` | parser.js:482-504 | each Info.plist property is set iff its pattern matches, to the captured text; no other property is set |
| `Extractors.ExtractAndroidPermissions` | parser.js:646-669 | the loop builds exactly the record list of the `uses-permission` elements |
| `Extractors.AndroidOnePerNamedElement` | parser.js:533-672 | for any table, one record per element with a non-empty name, in order; unknown names are typed `unknown` and named by their key |
| `Extractors.ExtractAppxPermissions` | parser.js:799-830 | the two loops build the Capability records, then the DeviceCapability records |
| `Extractors.CapabilityKnownOnly` | parser.js:721-833 | one record per element whose name the table knows, from that row; others are dropped |
| `Extractors.AppxCapabilitiesFirst` | parser.js:721-833 | Capability records first, DeviceCapability records after, each from its own table |
| `Extractors.ExtractHarmonyPermissions` | parser.js:1170-1195 | the loop builds exactly the records of `reqPermissions` |
| `Extractors.HarmonyOnePerRequest` | parser.js:1077-1198 | for any table, one record per request; a non-empty reason is the description, else the table text or the unknown default |
| `PermissionAnalysis.PrivacyKeywordsDistinct` | parser.js:865-879 | the keyword table has one row per type |
| `PermissionAnalysis.KeywordsIn` | parser.js:926-936 | the words of the row for the type, or none when no row has it |
| `PermissionAnalysis.CheckPermissionInPrivacy` | parser.js:926-936 | true iff a word of the permission's type occurs in the lower-cased text |
| `PermissionAnalysis.PermissionName` | parser.js:959-976 | types outside the display table are named by the type followed by 权限 |
| `PermissionAnalysis.FindMentionedPermissions` | parser.js:939-956 | the loop yields exactly the mentions of the keyword table |
| `PermissionAnalysis.MentionedOnlyHits` | parser.js:939-956 | every mention comes from a row with a word in the text; at most one per row |
| `PermissionAnalysis.MentionedOnce` | parser.js:939-956 | with distinct kinds, no type is mentioned twice |
| `PermissionAnalysis.MentionedExact` | parser.js:939-956 | a row is mentioned iff one of its words occurs in the text |
| `PermissionAnalysis.AnalyzeCompliance` | parser.js:883-923 | the two loops build exactly the comparison specification |
| `PermissionAnalysis.ComplianceExact` | parser.js:883-923 | one result per declared permission, compliant iff its type is mentioned, else config-only; then one privacy-only result per undeclared mentioned type, each once, and no other results |
| `PermissionAnalysis.CountStatusPartition` | parser.js:980-985 | the three status counts add up to the number of results |
| `PermissionAnalysis.RoundPercent` | parser.js:987-988 | rounding half up: `r` is the integer nearest to 100·part/total, halves rounded up |
| `PermissionAnalysis.RoundPercentBounds` | parser.js:987-988 | the percentage is within 0..100; 0 for none and 100 for all |
| `PermissionAnalysis.ComplianceRate` | parser.js:987-988 | `Math.round(compliant / total * 100)`, halves up, with 0 for no results; so at most 100, 0 without compliant results, 100 when all are compliant |
| `PermissionAnalysis.RecommendationsShape` | parser.js:1000-1053 | ends with the two generic entries; a success entry iff there are compliant results and nothing else; a leading warning iff something is config-only |
| `PermissionAnalysis.GenerateComplianceReport` | parser.js:979-997 | each count is the number of results with its status and the three sum to the total; the rate is the rounded percentage of compliant results; the results and the rule-based recommendations are kept |
| `EnhancedParsing.ParseFiles` | parser-enhanced.js:11-37 | each file goes through `parseFile` once: the history grows by the batch's entries, successes and errors are listed in input order, and the summary counts them |
| `EnhancedParsing.BatchCounts` | parser-enhanced.js:11-37 | every file is exactly one success or one error |
| `EnhancedParsing.BatchSuccessesComplete` | parser-enhanced.js:11-37 | a file that parses has its result among the successes |
| `EnhancedParsing.BatchErrorsComplete` | parser-enhanced.js:11-37 | a file that fails has its outer message among the errors |
| `EnhancedParsing.BatchHistorySuccesses` | parser-enhanced.js:11-37 | the history records as many successes as the batch returns |
| `EnhancedParsing.InferScenarios` | parser-enhanced.js:63-82 | never empty; unknown types give `功能使用` |
| `EnhancedParsing.FlattenAt` | parser-enhanced.js:40-60 | the entry of permission j of result i sits after all the entries of the results before i |
| `EnhancedParsing.NormalizePermissions` | parser-enhanced.js:40-60 | the nested loops build exactly the normalised list |
| `EnhancedParsing.GenerateConfigDetails` | parser-enhanced.js:85-103 | the nested loops build exactly the detail list |
| `EnhancedParsing.NormalizedFacts` | parser-enhanced.js:40-60 | one entry per permission of every result, in place and built from it |
| `EnhancedParsing.ConfigDetailsFacts` | parser-enhanced.js:85-103 | one detail per permission of every result, in place and built from it |
| `EnhancedAnalysis.FirstTypeIn` | parser-enhanced.js:141-174 | the type of the first table word the name contains, or none iff it contains none |
| `EnhancedAnalysis.InferTypeFacts` | parser-enhanced.js:141-174 | `unknown` iff the name contains no table word, otherwise the first word's type |
| `EnhancedAnalysis.AsWrittenNeverCompliant` | parser-enhanced.js:114-138 | as written, no detail is ever compliant, whatever the text says |
| `EnhancedAnalysis.AsWrittenThrowsWithoutType` | parser-enhanced.js:114-174 | as written, one detail without `infoType` sends its name to `inferType`, whose read of the undeclared `typeMap` throws, so the whole analysis throws |
| `EnhancedAnalysis.AsWrittenRejectsConfigDetails` | parser-enhanced.js:85-103 | as written, analysing the details `generateConfigDetails` makes throws whenever there is one |
| `EnhancedAnalysis.CameraCounterexample` | parser-enhanced.js:114-138 | on a camera detail and the text 相机, the code as written reports config-only where the corrected analysis reports compliant |
| `EnhancedAnalysis.AnalyzeComplianceEnhanced` | parser-enhanced.js:114-138 | the loop builds exactly the corrected per-detail results |
| `EnhancedAnalysis.EnhancedResultFacts` | parser-enhanced.js:114-138 | keyed by the permission; compliant with confidence 0.95 iff the text mentions a word of the reported type, else config-only with 0.8 |
| `EnhancedAnalysis.EnhancedResultsExact` | parser-enhanced.js:114-138 | one result per detail in order; an empty text makes every result config-only |
| `EnhancedAnalysis.EnhancedSplit` | parser-enhanced.js:114-138 | enhanced results are never privacy-only: compliant and config-only ones make up all |
| `EnhancedAnalysis.WarningIffConfigOnly` | parser-enhanced.js:202-264 | a warning iff some result is config-only |
| `EnhancedAnalysis.SuccessIffAllCompliant` | parser-enhanced.js:202-264 | a success iff there are results and all are compliant |
| `EnhancedAnalysis.PlatformAdvice` | parser-enhanced.js:202-264 | the iOS advice iff some result is on iOS or iOS/macOS; the Android advice iff some is on Android |
| `EnhancedAnalysis.GenerateEnhancedReport` | parser-enhanced.js:177-199 | on the corrected analysis `EnhancedResultsOf`: each count is the number of results with its status and they sum to the total, the rate is the rounded percentage of compliant results, the sensitive count, the details' platforms de-duplicated in order, and the detailed recommendations |
| `InfoCollection.Snippet` | info-collector.js:214-254 | the window from 50 characters before the first occurrence to 50 after its end, both clipped to the text, with the keyword at its place inside |
| `InfoCollection.HitsMentions` | info-collector.js:214-254 | the confidence is positive iff some keyword occurs |
| `InfoCollection.FindInfoTypeInText` | info-collector.js:214-254 | the loops compute exactly the match specification |
| `InfoCollection.InfoMatchFacts` | info-collector.js:214-254 | found iff a keyword occurs; confidence min(1, hits/10); labels are in the pattern, and are either the matching ones or the first two by default |
| `InfoCollection.ExtractCollectionMethods` | info-collector.js:257-271 | the loop computes exactly the method list |
| `InfoCollection.MatchingCategoriesExact` | info-collector.js:257-271 | a category matches iff one of its keywords occurs in the text |
| `InfoCollection.CollectionMethodsFacts` | info-collector.js:257-271 | never empty; `系统获取` iff no category matches; otherwise the matching categories' names, one each and in category order, and no other name |
| `InfoCollection.AnalyzePrivacyPolicy` | info-collector.js:163-184 | the loop builds exactly the privacy-record specification |
| `InfoCollection.FoundPatternsExact` | info-collector.js:163-184 | a pattern is found iff one of its keywords occurs in the text |
| `InfoCollection.AnalyzePrivacyPolicyFacts` | info-collector.js:163-184 | the records of the found patterns, one each and in pattern order, so each type once, with confidence in (0, 1] |
| `InfoCollection.FindPattern` | info-collector.js:274-281 | the first pattern with the key, or none iff no pattern has it |
| `InfoCollection.PurposeOf` | info-collector.js:284-296 | never empty; outside the purpose table, the description or a default |
| `InfoCollection.AnalyzeConfigFile` | info-collector.js:187-211 | the loop builds exactly the config-record specification |
| `InfoCollection.MatchedPermissionsExact` | info-collector.js:187-211 | a permission is matched iff some pattern lists its key |
| `InfoCollection.ConfigCollectionsExact` | info-collector.js:187-211 | one record per matched permission, in permission order, built from its first pattern, and no other |
| `InfoCollection.NoPatternsNoRecords` | info-collector.js:187-211 | absent permissions or a platform without patterns give no records |
| `InfoCollection.FirstOfType` | info-collector.js:326-371 | `find`: the first config record of the type, or none iff there is none |
| `InfoCollection.MergeAnalysisResults` | info-collector.js:326-371 | the loops and the sort compute exactly the merge specification |
| `InfoCollection.MergeUnsortedFacts` | info-collector.js:326-371 | privacy records in order, consistent iff a config record has the type (then mean confidence and merged labels); after them every unmatched config record, config-only |
| `InfoCollection.SortByConfidenceFacts` | info-collector.js:370 | the sort is descending, a permutation, and stable |
| `InfoCollection.MergeResultsFacts` | info-collector.js:326-371 | the merged list is the unsorted one reordered by descending confidence, stably |
| `InfoCollection.StatusPartition` | info-collector.js:374-404 | the three status groups make up the merged list |
| `InfoCollection.CollectionRecommendationsFacts` | info-collector.js:452-490 | at most three advices, none iff the list is empty, each kind iff its status group is non-empty |
| `InfoCollection.CollectionRecommendationsOrder` | info-collector.js:452-490 | the advices come in the order warning, info, success, each present iff its group is |
| `InfoCollection.CollectionRecommendationItems` | info-collector.js:452-490 | warning has priority medium and the privacy-only types, info high and the config-only types, success low and the consistent types |
| `InfoCollection.ExtractKeywordsFromText` | info-collector.js:407-421 | the loops compute exactly the keyword list |
| `InfoCollection.KeywordsFoundFlat` | info-collector.js:407-421 | the nested loops are one ordered filter over the table's keywords, row after row |
| `InfoCollection.KeywordsFromTextFacts` | info-collector.js:407-421 | the first five table keywords, in table order, found in the lower-cased text; all of them when fewer than five are found |
| `InfoCollection.KeywordsFromEmptyText` | info-collector.js:407-421 | the empty text yields no keyword |
| `InfoCollection.PlatformOfPermission` | info-collector.js:440-449 | the platform named by the key's prefix; no key gives Unknown |
| `InfoCollection.GenerateCollectionReport` | info-collector.js:374-404 | each count is the size of its status group and they partition the merged list; the recommendations; the details keep the input records with their added fields |
| `ScriptHelpers.AllowedFileExtensions` | script.js:545-564 | a file is accepted iff the parser's extension dispatch handles its extension |
| `ScriptHelpers.DotlessExtension` | script.js:545-564 | a name without a dot is its own extension |
| `ScriptHelpers.FindByName` | script.js:545-564 | `findIndex`: the first index with the name, or -1 iff none has it |
| `ScriptHelpers.AddedFiles` | script.js:545-564 | rejected files leave the list unchanged; a same-named file is replaced in place; otherwise appended; unique names are kept |
| `ScriptHelpers.SpliceStart` | script.js:613-617 | the start index `splice` uses: negatives count from the end, and both ends clamp |
| `ScriptHelpers.RemoveAt` | script.js:613-617 | one element fewer, the others in order, the same multiset less the removed one |
| `ScriptHelpers.Removed` | script.js:613-617 | the list `splice(index, 1)` leaves for every index, including negative and out-of-range ones |
| `ScriptHelpers.UploadList.constructor` | script.js:44 | an empty list |
| `ScriptHelpers.UploadList.AddFile` | script.js:545-564 | the new list is the added list; the outcome is the notification shown; unique names are preserved |
| `ScriptHelpers.UploadList.RemoveFile` | script.js:613-617 | the new list is what `splice` leaves; unique names are preserved |
| `ScriptHelpers.PlatformKey` | script.js:1982-1991 | ios iff iOS or macOS, windows, harmonyos, and android for every other name |
| `ScriptHelpers.UnmarkedPlistKeyedAsAndroid` | script.js:1982-1991 | an unmarked Info.plist is reported as iOS/macOS, keyed `android`, and its iOS permission then finds no pattern |
| `ScriptHelpers.PlatformKeyCorrected` | script.js:1982-1991 | ios iff an Apple platform the Info.plist parser reports; otherwise as written |
| `ScriptHelpers.PlistKeyedAsIos` | script.js:1982-1991 | with the correction, every parsed Info.plist is keyed `ios` |
| `ScriptHelpers.ComplianceLevel` | script.js:2773-2779 | the five levels, each iff the rate is in its band |
| `ScriptHelpers.ComplianceLevelMonotone` | script.js:2773-2779 | a higher rate never gives a lower level |
| `ScriptHelpers.FirstKeyIn` | script.js:2799 | the first table key the text contains, or none iff it contains none |
| `ScriptHelpers.ScanTable` | script.js:2799 | the loop with early return finds exactly that first key |
| `ScriptHelpers.DescriptionFacts` | script.js:2782-2806 | the default text iff no key matches the upper-cased name; otherwise the first matching key's text |
| `ScriptHelpers.GetPermissionDescription` | script.js:2782-2806 | the loop computes exactly the description |
| `ScriptHelpers.RiskFacts` | script.js:2809-2841 | with no key in the upper-cased name, the config-only text for config-only and the privacy-only text otherwise; else the first matching key's text for the status, and the unrated text for compliant |
| `ScriptHelpers.GetRiskAssessment` | script.js:2809-2841 | the loop computes exactly the risk text |
| `ScriptHelpers.FixSuggestion` | script.js:2844-2850 | the suggestion quotes the name and opens with the config-only or the privacy-only prefix |
| `ScriptHelpers.FixSuggestionByStatus` | script.js:2844-2850 | the two suggestions differ |
| `ScriptHelpers.InferScenarios` | script.js:1994-2017 | never empty; unknown types give `功能使用` |
| `ScriptHelpers.ScenarioTablesAgree` | script.js:1994-2017 | the script's table agrees with the enhanced parser's except on media, motion, reminders and speech |
| `ScriptHelpers.EnhancedRecommendationsFacts` | script.js:2853-2921 | error iff something is config-only, warning iff privacy-only, success iff compliant, info iff there are permissions and the rate is below 80, in that order |
| `ScriptHelpers.EnhancedRecommendationItems` | script.js:2853-2921 | the error entry (high) lists every config-only permission, the warning entry (medium) every privacy-only one, the success entry (low) the first five compliant ones at most |
| `ScriptHelpers.EnhancedRecommendationsEdges` | script.js:2853-2921 | no permissions give no recommendations; all compliant give the single success |
| `ScriptHelpers.LexLessTotal` | script.js:188 | the default sort order is total on distinct strings |
| `ScriptHelpers.LexLessTransitive` | script.js:188 | the default sort order is transitive |
| `ScriptHelpers.SortStrings` | script.js:188 | a strictly sorted arrangement of the same elements |
| `ScriptHelpers.PresetAppList` | script.js:183-203 | strictly sorted, exactly the applications of `all` and the platform, each once |
| `ScriptHelpers.SortedByElements` | script.js:183-203 | a strictly sorted list is determined by its elements, so the contract above fixes the list |
| `ScriptHelpers.PresetPlatforms` | script.js:2-24 | an unlisted platform shows the `all` list, and every platform's list contains it |

## Left out

- Reading files (FileReader), DOMParser and `JSON.parse` are not modelled. Their outputs
  are inputs to the model: a file's text, its element lists by tag, and the JSON value
  or the syntax-error message.
- Info.plist's key/string regular expression is modelled as an explicit scanner, for
  ASCII case-insensitive matching. The other regular expressions are not modelled.
- Case mapping covers ASCII only. The source's `toLowerCase` and `toUpperCase` also
  fold other scripts.
- The sort order compares whole `char`s. Strings with characters outside the Basic
  Multilingual Plane are compared by code point rather than by UTF-16 code unit.
- Floating point is not modelled. Confidences are exact reals, rates are exact
  rational rounding, and confidence accumulates as hits/10 rather than as repeated
  additions of 0.1.
- Timestamps, parse times and `getStats`' `toFixed` formatting are not modelled.
- `readFileContent` is not modelled (browser I/O).
- `isSensitivePermission`, `extractCapabilities` and `extractBackgroundModes` are not
  modelled. They feed only display fields.
- The `summary`, `rawContent`, `sensitive` and `dangerous` fields are not modelled.
  The extractors never set `sensitive`, `dangerous` or a user description, so the
  enhanced records carry `false` and `""` there.
- `generateDescriptionFromContext` is modelled only for an empty context, the only one
  its caller passes.
- The `showNotification` and `updateFileList` calls in `addFile` and `removeFile`, the
  HTML rendering of recommendations, and the other DOM updates are not modelled. The
  resets of `uploadedFiles = []` by UI actions are not modelled either.
- The `originalRecommendations` parameter of `generateEnhancedRecommendations` is not
  modelled. The source never reads it.
- File objects are reduced to their name and size.
- Statuses are a three-valued datatype. The source uses strings, and any other string
  would receive the fallback texts.
- app-detector.js, app-detector-enhanced.js, llm-analyzer.js and the orchestration in
  script.js are not part of this model.
- Keys that collide with `Object.prototype` names are not modelled: tables are looked
  up only among their own entries.

## Findings

| source | as written | input that shows it | evidently intended | confidence | as-written member | corrected member |
|---|---|---|---|---|---|---|
| parser-enhanced.js:114-138 | the privacy check is handed the detail itself and reads its `type`, which details do not have, so the keyword list is empty and no detail is ever compliant | a camera detail and the privacy text 相机 | check the words of the type the result reports | high, not executed | `EnhancedAnalysis.CameraCounterexample` | `EnhancedAnalysis.EnhancedResultFacts` |
| parser-enhanced.js:141-174 | the table is declared as `typemap` but read as `typeMap`, so inferring a type throws a ReferenceError; every detail `generateConfigDetails` makes lacks `infoType` and takes this path | any non-empty list of generated details | look the name's words up in the declared table | high, not executed | `EnhancedAnalysis.AsWrittenRejectsConfigDetails` | `EnhancedAnalysis.InferTypeFacts` |
| script.js:1982-1991 | the Info.plist parser reports `iOS/macOS`, `tvOS` or `watchOS` when it finds no iPhone or Mac marker, and these are keyed `android`, so iOS permission keys find no configuration pattern | an Info.plist without platform markers, declaring NSCameraUsageDescription | key every Apple platform as `ios` | medium, not executed | `ScriptHelpers.UnmarkedPlistKeyedAsAndroid` | `ScriptHelpers.PlistKeyedAsIos` |
