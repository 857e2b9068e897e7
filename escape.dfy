/**
 * The HTML escaper the pages use before putting text into markup
 * (utils.js, auth.js and provider-dashboard.js): each of `& < > " '` becomes
 * its entity and every other character stays as it is.
 */
module Escape {
  import opened Wrappers
  import opened Js

  /** The five characters the escaper replaces. */
  predicate IsSpecial(c: char) {
    c == '&' || c == '<' || c == '>' || c == '"' || c == '\''
  }

  /** What one character becomes. */
  function EntityOf(c: char): (r: string)
    ensures !IsSpecial(c) ==> r == [c]
    ensures IsSpecial(c) ==> |r| >= 4 && r[0] == '&' && r[|r| - 1] == ';'
  {
    if c == '&' then "&amp;"
    else if c == '<' then "&lt;"
    else if c == '>' then "&gt;"
    else if c == '"' then "&quot;"
    else if c == '\'' then "&#39;"
    else [c]
  }

  /** `s.replace(/[&<>"']/g, …)`: every character replaced by `EntityOf`. */
  function EscapeText(s: string): (r: string)
    ensures |r| >= |s|
  {
    if s == [] then "" else EntityOf(s[0]) + EscapeText(s[1..])
  }

  /** utils.js and auth.js `escapeHtml(str)`: a missing input (`None`) gives "". */
  function EscapeHtml(str: Option<string>): (r: string)
    ensures str.None? ==> r == ""
    ensures str.Some? ==> r == EscapeText(str.value)
  {
    match str
    case None => ""
    case Some(s) => EscapeText(s)
  }

  /** provider-dashboard.js `escapeHtml(str)`: a falsy input gives "", anything else is `String(str)` escaped. */
  function EscapeValue(v: Value): (r: string)
    ensures !Truthy(v) ==> r == ""
    ensures Truthy(v) ==> r == EscapeText(ToStr(v))
  {
    if !Truthy(v) then "" else EscapeText(ToStr(v))
  }

  /** Markup characters: the ones an escaped text never contains. */
  predicate IsMarkup(c: char) {
    c == '<' || c == '>' || c == '"' || c == '\''
  }

  /** No markup character survives the escaper. */
  lemma {:induction false} EscapeHasNoMarkup(s: string)
    ensures forall i :: 0 <= i < |EscapeText(s)| ==> !IsMarkup(EscapeText(s)[i])
  {
    if s != [] {
      EscapeHasNoMarkup(s[1..]);
      var head := EntityOf(s[0]);
      var tail := EscapeText(s[1..]);
      assert EscapeText(s) == head + tail;
      forall i | 0 <= i < |head + tail|
        ensures !IsMarkup((head + tail)[i])
      {
        if i >= |head| {
          assert (head + tail)[i] == tail[i - |head|];
        }
      }
    }
  }

  /** The escaper works character by character, so it distributes over concatenation. */
  lemma {:induction false} EscapeAppend(a: string, b: string)
    ensures EscapeText(a + b) == EscapeText(a) + EscapeText(b)
  {
    if a != [] {
      assert (a + b)[1..] == a[1..] + b;
      EscapeAppend(a[1..], b);
    } else {
      assert a + b == b;
    }
  }

  /** A text without any of the five special characters comes back unchanged. */
  lemma {:induction false} EscapePlain(s: string)
    requires forall i :: 0 <= i < |s| ==> !IsSpecial(s[i])
    ensures EscapeText(s) == s
  {
    if s != [] {
      EscapePlain(s[1..]);
    }
  }

  /** Both versions of the escaper agree on text. */
  lemma EscapeVersionsAgree(s: string)
    ensures EscapeValue(Str(s)) == EscapeHtml(Some(s))
  {
  }

  // ---------------------------------------------------------------- decoding

  /** Reading the five entities back as the characters they stand for. */
  function Unescape(s: string): string
    decreases |s|
  {
    if s == [] then ""
    else if "&amp;" <= s then "&" + Unescape(s[5..])
    else if "&lt;" <= s then "<" + Unescape(s[4..])
    else if "&gt;" <= s then ">" + Unescape(s[4..])
    else if "&quot;" <= s then "\"" + Unescape(s[6..])
    else if "&#39;" <= s then "'" + Unescape(s[5..])
    else [s[0]] + Unescape(s[1..])
  }

  /** A text that differs from `p` at position `k` does not start with `p`. */
  lemma NotPrefixAt(p: string, t: string, k: nat)
    requires k < |p| && k < |t| && p[k] != t[k]
    ensures !(p <= t)
  {
  }

  lemma UnescapeEntity(c: char, rest: string)
    ensures Unescape(EntityOf(c) + rest) == [c] + Unescape(rest)
  {
    var e := EntityOf(c);
    var t := e + rest;
    assert e <= t && t[|e|..] == rest;
    if !IsSpecial(c) {
      assert t[0] == c && t[1..] == rest;
      NotPrefixAt("&amp;", t, 0);
      NotPrefixAt("&lt;", t, 0);
      NotPrefixAt("&gt;", t, 0);
      NotPrefixAt("&quot;", t, 0);
      NotPrefixAt("&#39;", t, 0);
    } else if c != '&' {
      NotPrefixAt("&amp;", t, 1);
      if c != '<' {
        NotPrefixAt("&lt;", t, 1);
        if c != '>' {
          NotPrefixAt("&gt;", t, 1);
          if c != '"' {
            NotPrefixAt("&quot;", t, 1);
          }
        }
      }
    }
  }

  /** Escaping loses nothing: the entities read back to the original text. */
  lemma {:induction false} UnescapeEscape(s: string)
    ensures Unescape(EscapeText(s)) == s
  {
    if s != [] {
      UnescapeEntity(s[0], EscapeText(s[1..]));
      UnescapeEscape(s[1..]);
    }
  }
}
