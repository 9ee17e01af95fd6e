/**
 * String helpers of the bookmark parser: the JavaScript built-ins it relies on
 * (String.prototype.trim, startsWith, a global literal replace, Array.prototype.join)
 * and the three sanitising helpers built from them.
 *
 * The functions carry no postconditions of their own, so that the parser's proofs do not
 * drag their properties along; each property is a lemma, called where it is needed.
 *
 * Lengths are counted in Unicode scalar values; JavaScript counts UTF-16 code units.
 */
module Strings {

  /** Longest title or folder name kept by SanitizeString. */
  const MaxTextLength: nat := 500
  /** Longest URL kept by SanitizeUrl. */
  const MaxUrlLength: nat := 2048

  function Min(a: nat, b: nat): nat { if a <= b then a else b }

  /** The ECMAScript WhiteSpace and LineTerminator code points, which trim() strips. */
  predicate IsJsWhitespace(c: char) {
    || c == '\t' || c == '\n' || c == '\U{000B}' || c == '\U{000C}' || c == '\r'
    || c == ' ' || c == '\U{00A0}' || c == '\U{1680}' || ('\U{2000}' <= c <= '\U{200A}')
    || c == '\U{2028}' || c == '\U{2029}' || c == '\U{202F}' || c == '\U{205F}'
    || c == '\U{3000}' || c == '\U{FEFF}'
  }

  predicate AllWhitespace(s: string) {
    forall k :: 0 <= k < |s| ==> IsJsWhitespace(s[k])
  }

  /** A string with no whitespace at either end. */
  predicate IsTrimmed(s: string) {
    s == [] || (!IsJsWhitespace(s[0]) && !IsJsWhitespace(s[|s| - 1]))
  }

  function TrimStart(s: string): string {
    if |s| > 0 && IsJsWhitespace(s[0]) then TrimStart(s[1..]) else s
  }

  function TrimEnd(s: string): string {
    if |s| > 0 && IsJsWhitespace(s[|s| - 1]) then TrimEnd(s[..|s| - 1]) else s
  }

  /** String.prototype.trim. */
  function Trim(s: string): string {
    TrimEnd(TrimStart(s))
  }

  predicate StartsWith(s: string, prefix: string) {
    |prefix| <= |s| && s[..|prefix|] == prefix
  }

  predicate HasHttpScheme(s: string) {
    StartsWith(s, "http://") || StartsWith(s, "https://")
  }

  /** sanitizeString. */
  function SanitizeString(s: string): string {
    if s == "" then ""
    else
      var trimmed := Trim(s);
      if |trimmed| <= MaxTextLength then trimmed else trimmed[..MaxTextLength]
  }

  /** sanitizeUrl. */
  function SanitizeUrl(url: string): string {
    if url == "" then ""
    else
      var trimmed := Trim(url);
      if !HasHttpScheme(trimmed) then ""
      else if |trimmed| <= MaxUrlLength then trimmed
      else trimmed[..MaxUrlLength]
  }

  /**
   * A global replace of the literal pattern `pat` by `rep`, as String.prototype.replace
   * with a /g regular expression does: leftmost matches, scanning on after each match.
   */
  function ReplaceAll(s: string, pat: string, rep: string): string
    requires |pat| > 0
    decreases |s|
  {
    if |s| < |pat| then s
    else if s[..|pat|] == pat then rep + ReplaceAll(s[|pat|..], pat, rep)
    else [s[0]] + ReplaceAll(s[1..], pat, rep)
  }

  /** decodeHtmlEntities: the six entity replacements, one after another over the whole text. */
  function DecodeHtmlEntities(text: string): string {
    if text == "" then ""
    else
      var amp := ReplaceAll(text, "&amp;", "&");
      var lt := ReplaceAll(amp, "&lt;", "<");
      var gt := ReplaceAll(lt, "&gt;", ">");
      var quot := ReplaceAll(gt, "&quot;", "\"");
      var apos := ReplaceAll(quot, "&#39;", "'");
      ReplaceAll(apos, "&nbsp;", " ")
  }

  /**
   * The decoding decodeHtmlEntities is meant to perform: one scan from the left, in which
   * each of the six entities stands for its character and a '&' that starts none of them
   * stands for itself. The text a scan produces is never scanned again.
   */
  function DecodeEntitiesOnce(text: string): string
    decreases |text|
  {
    if text == "" then ""
    else
      var (decoded, used) := EntityAt(text);
      decoded + DecodeEntitiesOnce(text[used..])
  }

  /**
   * What the scan makes of the start of the text: the character an entity there stands
   * for and the entity's length, or the first character itself.
   */
  function EntityAt(text: string): (r: (string, nat))
    requires text != ""
    ensures 1 <= r.1 <= |text| && |r.0| == 1
    ensures text[0] != '&' ==> r == ([text[0]], 1)
  {
    if text[0] != '&' then ([text[0]], 1)
    else if StartsWith(text, "&amp;") then ("&", 5)
    else if StartsWith(text, "&lt;") then ("<", 4)
    else if StartsWith(text, "&gt;") then (">", 4)
    else if StartsWith(text, "&quot;") then ("\"", 6)
    else if StartsWith(text, "&#39;") then ("'", 5)
    else if StartsWith(text, "&nbsp;") then (" ", 6)
    else ("&", 1)
  }

  /** How an exporter writes one character of a title into the HTML file. */
  function EscapeChar(c: char): string {
    if c == '&' then "&amp;"
    else if c == '<' then "&lt;"
    else if c == '>' then "&gt;"
    else if c == '"' then "&quot;"
    else if c == '\'' then "&#39;"
    else [c]
  }

  /** How an exporter writes a title into the HTML file. */
  function EscapeHtml(s: string): string {
    if s == "" then "" else EscapeChar(s[0]) + EscapeHtml(s[1..])
  }

  /** Array.prototype.join. */
  function Join(parts: seq<string>, sep: string): string {
    if |parts| == 0 then ""
    else if |parts| == 1 then parts[0]
    else parts[0] + sep + Join(parts[1..], sep)
  }

  // ----- Properties -----

  /** TrimStart drops exactly the leading whitespace. */
  lemma {:induction false} TrimStartDropsLeadingWhitespace(s: string)
    ensures var r := TrimStart(s);
      && |r| <= |s| && r == s[|s| - |r|..]
      && (r == [] || !IsJsWhitespace(r[0]))
      && forall k :: 0 <= k < |s| - |r| ==> IsJsWhitespace(s[k])
  {
    if |s| > 0 && IsJsWhitespace(s[0]) {
      TrimStartDropsLeadingWhitespace(s[1..]);
    }
  }

  /** TrimEnd drops exactly the trailing whitespace. */
  lemma {:induction false} TrimEndDropsTrailingWhitespace(s: string)
    ensures var r := TrimEnd(s);
      && |r| <= |s| && r == s[..|r|]
      && (r == [] || !IsJsWhitespace(r[|r| - 1]))
      && forall k :: |r| <= k < |s| ==> IsJsWhitespace(s[k])
  {
    if |s| > 0 && IsJsWhitespace(s[|s| - 1]) {
      TrimEndDropsTrailingWhitespace(s[..|s| - 1]);
    }
  }

  /**
   * trim() yields a string with no whitespace at either end, empty exactly when the input
   * is all whitespace, and leaves an already trimmed string as it is.
   */
  lemma TrimSpec(s: string)
    ensures |Trim(s)| <= |s|
    ensures IsTrimmed(Trim(s))
    ensures Trim(s) == [] <==> AllWhitespace(s)
    ensures IsTrimmed(s) ==> Trim(s) == s
  {
    var t := TrimStart(s);
    TrimStartDropsLeadingWhitespace(s);
    TrimEndDropsTrailingWhitespace(t);
  }

  /** trim() is idempotent. */
  lemma TrimIdempotent(s: string)
    ensures Trim(Trim(s)) == Trim(s)
  {
    TrimSpec(s);
    TrimSpec(Trim(s));
  }

  /**
   * sanitizeString: "" for an empty (or all-whitespace) input; otherwise the trimmed input cut
   * to at most MaxTextLength characters.
   */
  lemma SanitizeStringSpec(s: string)
    ensures var r := SanitizeString(s);
      && |r| == Min(|Trim(s)|, MaxTextLength)
      && r == Trim(s)[..|r|]
      && (r == "" <==> AllWhitespace(s))
      && (r != "" ==> !IsJsWhitespace(r[0]))
  {
    TrimSpec(s);
  }

  /**
   * sanitizeUrl: "" unless the trimmed input starts with http:// or https://; otherwise a
   * prefix of the trimmed input of at most MaxUrlLength characters that keeps the scheme.
   */
  lemma SanitizeUrlSpec(url: string)
    ensures var r := SanitizeUrl(url);
      && (r == "" <==> !HasHttpScheme(Trim(url)))
      && (r != "" ==> HasHttpScheme(r) && !IsJsWhitespace(r[0]))
      && (r != "" ==> |r| == Min(|Trim(url)|, MaxUrlLength) && r == Trim(url)[..|r|])
  {
    TrimSpec(url);
  }

  /** Replacing by something no longer than the pattern never lengthens the text. */
  lemma {:induction false} ReplaceAllShrinks(s: string, pat: string, rep: string)
    requires |pat| > 0 && |rep| <= |pat|
    ensures |ReplaceAll(s, pat, rep)| <= |s|
    decreases |s|
  {
    if |s| < |pat| {
    } else if s[..|pat|] == pat {
      ReplaceAllShrinks(s[|pat|..], pat, rep);
    } else {
      ReplaceAllShrinks(s[1..], pat, rep);
    }
  }

  /** A text in which the pattern's first character never occurs is left as it is. */
  lemma {:induction false} ReplaceAllWithoutLead(s: string, pat: string, rep: string)
    requires |pat| > 0
    requires pat[0] !in s
    ensures ReplaceAll(s, pat, rep) == s
    decreases |s|
  {
    if |s| < |pat| {
    } else {
      assert s[..|pat|][0] == s[0];
      ReplaceAllWithoutLead(s[1..], pat, rep);
    }
  }

  /** decodeHtmlEntities never lengthens the text and leaves a text without '&' as it is. */
  lemma DecodeHtmlEntitiesSpec(text: string)
    ensures |DecodeHtmlEntities(text)| <= |text|
    ensures '&' !in text ==> DecodeHtmlEntities(text) == text
  {
    if text != "" {
      var amp := ReplaceAll(text, "&amp;", "&");
      var lt := ReplaceAll(amp, "&lt;", "<");
      var gt := ReplaceAll(lt, "&gt;", ">");
      var quot := ReplaceAll(gt, "&quot;", "\"");
      var apos := ReplaceAll(quot, "&#39;", "'");
      ReplaceAllShrinks(text, "&amp;", "&");
      ReplaceAllShrinks(amp, "&lt;", "<");
      ReplaceAllShrinks(lt, "&gt;", ">");
      ReplaceAllShrinks(gt, "&quot;", "\"");
      ReplaceAllShrinks(quot, "&#39;", "'");
      ReplaceAllShrinks(apos, "&nbsp;", " ");
      if '&' !in text {
        ReplaceAllWithoutLead(text, "&amp;", "&");
        ReplaceAllWithoutLead(amp, "&lt;", "<");
        ReplaceAllWithoutLead(lt, "&gt;", ">");
        ReplaceAllWithoutLead(gt, "&quot;", "\"");
        ReplaceAllWithoutLead(quot, "&#39;", "'");
        ReplaceAllWithoutLead(apos, "&nbsp;", " ");
      }
    }
  }

  /**
   * Because the replacements run in sequence, the text a title "&lt;" is exported as comes
   * back as "<": decodeHtmlEntities does not invert the escaping.
   */
  lemma DecodeIsNotSinglePass()
    ensures EscapeHtml("&lt;") == "&amp;lt;"
    ensures DecodeHtmlEntities(EscapeHtml("&lt;")) == "<" != "&lt;"
  {
    assert EscapeHtml("&lt;") == "&amp;" + "lt;" by {
      assert EscapeHtml("&lt;") == EscapeChar('&') + EscapeHtml("lt;");
      assert EscapeHtml("lt;") == "l" + EscapeHtml("t;");
      assert EscapeHtml("t;") == "t" + EscapeHtml(";");
      assert EscapeHtml(";") == ";" + EscapeHtml("");
    }
  }

  /** One escaped character is decoded back to itself, whatever follows it. */
  lemma DecodeEscapedChar(c: char, rest: string)
    ensures DecodeEntitiesOnce(EscapeChar(c) + rest) == [c] + DecodeEntitiesOnce(rest)
  {
    var t := EscapeChar(c) + rest;
    if c == '&' {
      assert t[..5] == "&amp;";
    } else if c == '<' {
      assert t[1] == 'l' && t[..4] == "&lt;";
    } else if c == '>' {
      assert t[1] == 'g' && t[..4] == "&gt;";
    } else if c == '"' {
      assert t[1] == 'q' && t[..6] == "&quot;";
    } else if c == '\'' {
      assert t[1] == '#' && t[..5] == "&#39;";
    }
    assert EntityAt(t) == ([c], |EscapeChar(c)|);
    assert t[|EscapeChar(c)|..] == rest;
  }

  /** Decoding in one scan inverts the exporter's escaping, for every title. */
  lemma {:induction false} DecodeEscapeRoundTrip(s: string)
    ensures DecodeEntitiesOnce(EscapeHtml(s)) == s
  {
    if s != "" {
      DecodeEscapedChar(s[0], EscapeHtml(s[1..]));
      DecodeEscapeRoundTrip(s[1..]);
    }
  }

  /** The one-scan decoding never lengthens the text and leaves a text without '&' as it is. */
  lemma {:induction false} DecodeEntitiesOnceSpec(text: string)
    ensures |DecodeEntitiesOnce(text)| <= |text|
    ensures '&' !in text ==> DecodeEntitiesOnce(text) == text
    decreases |text|
  {
    if text != "" {
      var used := EntityAt(text).1;
      assert '&' !in text ==> '&' !in text[used..];
      DecodeEntitiesOnceSpec(text[used..]);
      if '&' !in text {
        assert text == [text[0]] + text[1..];
      }
    }
  }

}
