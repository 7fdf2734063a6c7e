/** Recovery of the JSON object from the accumulated model text: the slice from
    the first `{` to the last `}` (App.tsx, handleGeneratePlan). */
module JsonSpan {
  import opened Wrappers
  import opened Text

  const NoJsonObjectMessage: string := "Could not find a valid JSON object in the response."

  /** `text.substring(text.indexOf('{'), text.lastIndexOf('}') + 1)`, or the
      error the handler throws when either brace is missing or the last `}`
      comes before the first `{`. */
  function ExtractJsonSpan(text: string): (r: Result<string, string>)
    ensures r.Failure? ==> r.error == NoJsonObjectMessage
    ensures r.Success? ==> |r.value| >= 2 && r.value[0] == '{' && r.value[|r.value| - 1] == '}'
  {
    var start := IndexOf(text, '{');
    var end := LastIndexOf(text, '}');
    if start == -1 || end == -1 || end < start then Failure(NoJsonObjectMessage)
    else Success(text[start..end + 1])
  }

  /** Some `{` comes before some `}` in `text`. */
  predicate HasBracePair(text: string) {
    exists i, j | 0 <= i < j < |text| :: text[i] == '{' && text[j] == '}'
  }

  /** Extraction fails exactly when no `{` precedes a `}`: there is no `{`,
      there is no `}`, or every `}` comes before the first `{`. */
  lemma ExtractFailsIffNoBracePair(text: string)
    ensures ExtractJsonSpan(text).Failure? <==> !HasBracePair(text)
  {
    var start := IndexOf(text, '{');
    var end := LastIndexOf(text, '}');
    if HasBracePair(text) {
      var i, j :| 0 <= i < j < |text| && text[i] == '{' && text[j] == '}';
      assert text[i] in text && text[j] in text;
    }
  }

  /** The extracted slice sits in `text` with no `{` before it and no `}`
      after it. */
  lemma ExtractedSpanIsOutermost(text: string)
    requires ExtractJsonSpan(text).Success?
    ensures var span := ExtractJsonSpan(text).value;
      exists p | 0 <= p <= |text| - |span| ::
        text[p..p + |span|] == span && '{' !in text[..p] && '}' !in text[p + |span|..]
  {
    var span := ExtractJsonSpan(text).value;
    var p := IndexOf(text, '{');
    var after := text[p + |span|..];
    assert text[p..p + |span|] == span;
    assert forall q :: 0 <= q < p ==> text[..p][q] != '{';
    assert forall q :: 0 <= q < |after| ==> after[q] == text[p + |span| + q] != '}';
    assert '{' !in text[..p] && '}' !in after;
  }

  /** Prose around one JSON object is ignored: with no `{` in the prefix and
      no `}` in the suffix, the object itself is extracted, whatever braces
      it contains. */
  lemma ExtractIgnoresSurroundingProse(prefix: string, obj: string, suffix: string)
    requires '{' !in prefix && '}' !in suffix
    requires |obj| >= 2 && obj[0] == '{' && obj[|obj| - 1] == '}'
    ensures ExtractJsonSpan(prefix + obj + suffix) == Success(obj)
  {
    var text := prefix + obj + suffix;
    var start := IndexOf(text, '{');
    var end := LastIndexOf(text, '}');
    var a := |prefix|;
    var b := |prefix| + |obj| - 1;
    assert text[a] == '{' && text[b] == '}';
    assert text[a] in text && text[b] in text;
    assert forall p :: 0 <= p < a ==> text[p] == prefix[p];
    assert forall p :: b < p < |text| ==> text[p] == suffix[p - b - 1];
    assert start == a && end == b;
    assert text[a..b + 1] == obj;
  }
}
