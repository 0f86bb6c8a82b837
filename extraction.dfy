/**
 * Result extraction shared by both generation routes: the greedy pattern
 * `/\{[\s\S]*\}/` picks the text from the first `{` to the last `}` after it;
 * if that span parses as JSON the parsed value is the result, otherwise (no
 * span, or a span that does not parse) the result is `{ textResponse: text }`
 * carrying the whole text.
 */
module Extraction {
  import opened Wrappers
  import opened JsonValue

  /** Position of the first `c` in `s`. */
  function IndexOf(s: string, c: char): (r: Option<nat>)
    ensures r.Some? ==> r.value < |s| && s[r.value] == c
    ensures r.Some? ==> forall k :: 0 <= k < r.value ==> s[k] != c
    ensures r.None? ==> forall k :: 0 <= k < |s| ==> s[k] != c
  {
    if s == [] then None
    else if s[0] == c then Some(0)
    else match IndexOf(s[1..], c)
      case None => None
      case Some(k) => Some(k + 1)
  }

  /** Position of the last `c` in `s`. */
  function LastIndexOf(s: string, c: char): (r: Option<nat>)
    ensures r.Some? ==> r.value < |s| && s[r.value] == c
    ensures r.Some? ==> forall k :: r.value < k < |s| ==> s[k] != c
    ensures r.None? ==> forall k :: 0 <= k < |s| ==> s[k] != c
  {
    if s == [] then None
    else if s[|s| - 1] == c then Some(|s| - 1)
    else LastIndexOf(s[..|s| - 1], c)
  }

  /** Some `{` comes before some `}`: exactly when the pattern matches. */
  ghost predicate HasBracePair(s: string) {
    exists i, j :: 0 <= i < j < |s| && s[i] == '{' && s[j] == '}'
  }

  /**
   * Bounds `[lo, hi)` of the match of `/\{[\s\S]*\}/`: the leftmost start
   * that can match is the first `{`, and the greedy body runs to the last `}`.
   */
  function BraceSpan(s: string): (r: Option<(nat, nat)>)
    ensures r.Some? <==> HasBracePair(s)
    ensures r.Some? ==> r.value.0 + 2 <= r.value.1 <= |s|
    ensures r.Some? ==> s[r.value.0] == '{' && s[r.value.1 - 1] == '}'
    ensures r.Some? ==> forall k :: 0 <= k < r.value.0 ==> s[k] != '{'
    ensures r.Some? ==> forall k :: r.value.1 <= k < |s| ==> s[k] != '}'
  {
    match IndexOf(s, '{')
    case None => None
    case Some(lo) =>
      match LastIndexOf(s, '}')
      case None => None
      case Some(j) => if lo < j then Some((lo, j + 1)) else None
  }

  /** The matched text `jsonMatch[0]`, when there is a match. */
  function Match(s: string): (m: Option<string>)
    ensures m.Some? <==> HasBracePair(s)
    ensures m.Some? ==> |m.value| >= 2 && m.value[0] == '{' && m.value[|m.value| - 1] == '}'
    ensures m.Some? ==> m.value == s[BraceSpan(s).value.0..BraceSpan(s).value.1]
  {
    match BraceSpan(s)
    case None => None
    case Some((lo, hi)) => Some(s[lo..hi])
  }

  /** The payload recorded for generated text `text`. */
  function Extract(text: string, parse: Parser): (r: Json)
    ensures !HasBracePair(text) ==> r == TextResponse(text)
    ensures HasBracePair(text) ==> r == parse(Match(text).value).GetOr(TextResponse(text))
  {
    match Match(text)
    case None => TextResponse(text)
    case Some(span) =>
      match parse(span)
      case Some(v) => v
      case None => TextResponse(text)
  }

  /**
   * The round trip: a single JSON object embedded in prose (no `{` before it,
   * no `}` after it) is extracted and parsed back to the embedded value.
   */
  lemma ExtractEmbedded(prefix: string, body: string, suffix: string, parse: Parser, v: Json)
    requires forall k :: 0 <= k < |prefix| ==> prefix[k] != '{'
    requires forall k :: 0 <= k < |suffix| ==> suffix[k] != '}'
    requires |body| >= 2 && body[0] == '{' && body[|body| - 1] == '}'
    requires parse(body) == Some(v)
    ensures Extract(prefix + body + suffix, parse) == v
  {
    var text := prefix + body + suffix;
    var lo, hi := |prefix|, |prefix| + |body|;
    assert text[lo] == '{' && text[hi - 1] == '}';
    var span := BraceSpan(text);
    assert span.Some?;
    assert span.value.0 == lo by {
      assert text[lo] == '{';
      forall k | 0 <= k < lo ensures text[k] != '{' {
        assert text[k] == prefix[k];
      }
    }
    assert span.value.1 == hi by {
      assert text[hi - 1] == '}';
      forall k | hi <= k < |text| ensures text[k] != '}' {
        assert text[k] == suffix[k - hi];
      }
    }
    assert text[lo..hi] == body;
  }
}
