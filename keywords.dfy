/**
 * The keyword test both analyzers are built on: does any word of a list, lower-cased,
 * occur in a text (`keywords.some(k => text.includes(k.toLowerCase()))`, written as a
 * loop that stops at the first hit).
 */
module Keywords {
  import opened Text

  /** Some word of `keywords`, lower-cased, occurs in `text`. */
  predicate MentionsAny(text: string, keywords: seq<string>) {
    exists k :: 0 <= k < |keywords| && Contains(text, ToLower(keywords[k]))
  }

  /** The keyword loop: scan the words in order and stop at the first that occurs in the text. */
  method ScanKeywords(text: string, keywords: seq<string>) returns (found: bool)
    ensures found <==> MentionsAny(text, keywords)
  {
    var i := 0;
    while i < |keywords|
      invariant 0 <= i <= |keywords|
      invariant forall k :: 0 <= k < i ==> !Contains(text, ToLower(keywords[k]))
    {
      if Contains(text, ToLower(keywords[i])) {
        return true;
      }
      i := i + 1;
    }
    return false;
  }
}
