/** The HTML escaper of the export renderer, and the character-reference decoder that undoes it. */
module HtmlEscape {

  /** The characters the escaper's character class matches. */
  predicate IsSpecial(c: char) {
    c == '&' || c == '<' || c == '>' || c == '"' || c == '\''
  }

  /** Replacement text for one character: the entity table, or the character itself. */
  function EscapeChar(c: char): string {
    match c
    case '&' => "&amp;"
    case '<' => "&lt;"
    case '>' => "&gt;"
    case '"' => "&quot;"
    case '\'' => "&#39;"
    case _ => [c]
  }

  /** A single left-to-right pass: the text a replacement inserts is never scanned again. */
  function EscapeHtml(text: string): string {
    if text == "" then "" else EscapeChar(text[0]) + EscapeHtml(text[1..])
  }

  // ---------------------------------------------------------------------------------------------
  // The partner: decoding character references (HTML Living Standard, section 13.1.4)
  // ---------------------------------------------------------------------------------------------

  /** The named references a decoder knows: name without the ampersand and the semicolon. */
  type Names = map<string, string>

  /** Any table that knows the four names the escaper uses; it may know any number of others. */
  ghost predicate KnowsBasicNames(names: Names) {
    && "amp" in names && names["amp"] == "&"
    && "lt" in names && names["lt"] == "<"
    && "gt" in names && names["gt"] == ">"
    && "quot" in names && names["quot"] == "\""
  }

  predicate IsDigit(c: char) { '0' <= c <= '9' }

  predicate AllDigits(s: string) { forall i :: 0 <= i < |s| ==> IsDigit(s[i]) }

  function DecimalValue(s: string): nat
    requires AllDigits(s)
  {
    if s == "" then 0 else 10 * DecimalValue(s[..|s| - 1]) + (s[|s| - 1] - '0') as nat
  }

  /** Code points a decimal reference may name here: below the surrogates. */
  const FIRST_SURROGATE: nat := 0xD800

  datatype Match = NoMatch | Reference(text: string)

  /** Meaning of the text between an ampersand and its semicolon. */
  function Resolve(names: Names, body: string): Match {
    if |body| > 1 && body[0] == '#' && AllDigits(body[1..]) then
      var code := DecimalValue(body[1..]);
      if code < FIRST_SURROGATE then Reference([code as char]) else NoMatch
    else if body in names then Reference(names[body])
    else NoMatch
  }

  /** Position of the first semicolon, or |s| when there is none. */
  function SemicolonAt(s: string): (n: nat)
    ensures n <= |s|
    ensures n < |s| ==> s[n] == ';'
    ensures forall i :: 0 <= i < n ==> s[i] != ';'
  {
    if s == "" then 0 else if s[0] == ';' then 0 else 1 + SemicolonAt(s[1..])
  }

  /** Decode every reference of a text; an ampersand that starts none stands for itself. */
  function Decode(names: Names, s: string): string
    decreases |s|
  {
    if s == "" then ""
    else if s[0] != '&' then [s[0]] + Decode(names, s[1..])
    else
      var n := SemicolonAt(s[1..]);
      if n == |s[1..]| then ['&'] + Decode(names, s[1..])
      else match Resolve(names, s[1..][..n])
        case NoMatch => ['&'] + Decode(names, s[1..])
        case Reference(text) => text + Decode(names, s[1..][n + 1..])
  }

  // ---------------------------------------------------------------------------------------------
  // Round trip
  // ---------------------------------------------------------------------------------------------

  /** The semicolon that ends a reference is found whatever text follows it. */
  lemma {:induction false} SemicolonAfter(body: string, rest: string)
    requires ';' !in body
    ensures SemicolonAt(body + ";" + rest) == |body|
  {
    var s := body + ";" + rest;
    assert s[|body|] == ';';
    assert forall i :: 0 <= i < |body| ==> s[i] == body[i];
  }

  /** A well-formed reference is decoded as a unit, whatever text follows it. */
  lemma {:induction false} DecodeReference(names: Names, body: string, text: string, rest: string)
    requires ';' !in body
    requires Resolve(names, body) == Reference(text)
    ensures Decode(names, "&" + body + ";" + rest) == text + Decode(names, rest)
  {
    var s := "&" + body + ";" + rest;
    assert s[1..] == body + ";" + rest;
    SemicolonAfter(body, rest);
    assert s[1..][..|body|] == body;
    assert s[1..][|body| + 1..] == rest;
  }

  lemma ApostropheReference(names: Names)
    ensures Resolve(names, "#39") == Reference("'")
  {
    assert "#39"[1..] == "39";
    assert "39"[..1] == "3";
    assert "3"[..0] == "";
    assert DecimalValue("3") == 3;
    assert DecimalValue("39") == 39;
  }

  /** The same for a reference written out. */
  lemma DecodeWritten(names: Names, body: string, text: string, written: string, rest: string)
    requires ';' !in body && written == "&" + body + ";"
    requires Resolve(names, body) == Reference(text)
    ensures Decode(names, written + rest) == text + Decode(names, rest)
  {
    DecodeReference(names, body, text, rest);
  }

  lemma DecodeMarkup(names: Names, c: char, rest: string)
    requires KnowsBasicNames(names) && (c == '&' || c == '<' || c == '>')
    ensures Decode(names, EscapeChar(c) + rest) == [c] + Decode(names, rest)
  {
    if c == '&' {
      DecodeWritten(names, "amp", "&", "&amp;", rest);
    } else if c == '<' {
      DecodeWritten(names, "lt", "<", "&lt;", rest);
    } else {
      DecodeWritten(names, "gt", ">", "&gt;", rest);
    }
  }

  lemma DecodeQuote(names: Names, rest: string)
    requires KnowsBasicNames(names)
    ensures Decode(names, EscapeChar('"') + rest) == "\"" + Decode(names, rest)
  {
    DecodeWritten(names, "quot", "\"", "&quot;", rest);
  }

  lemma DecodeApostrophe(names: Names, rest: string)
    ensures Decode(names, EscapeChar('\'') + rest) == "'" + Decode(names, rest)
  {
    ApostropheReference(names);
    DecodeWritten(names, "#39", "'", "&#39;", rest);
  }

  /** One escaped character decodes to that character, whatever follows it. */
  lemma DecodeEscapedChar(names: Names, c: char, rest: string)
    requires KnowsBasicNames(names)
    ensures Decode(names, EscapeChar(c) + rest) == [c] + Decode(names, rest)
  {
    if c == '&' || c == '<' || c == '>' {
      DecodeMarkup(names, c, rest);
    } else if c == '"' {
      DecodeQuote(names, rest);
    } else if c == '\'' {
      DecodeApostrophe(names, rest);
    } else {
      assert (EscapeChar(c) + rest)[1..] == rest;
    }
  }

  /** Decoding undoes escaping for every text, including text that already holds references. */
  lemma {:induction false} DecodeEscape(names: Names, text: string)
    requires KnowsBasicNames(names)
    ensures Decode(names, EscapeHtml(text)) == text
  {
    if text == "" {
    } else {
      DecodeEscapedChar(names, text[0], EscapeHtml(text[1..]));
      DecodeEscape(names, text[1..]);
    }
  }

  /** No markup delimiter survives: an escaped text stays inside its element or attribute value. */
  lemma {:induction false} EscapeLeavesNoDelimiter(text: string)
    ensures forall c :: c in EscapeHtml(text) && IsSpecial(c) ==> c == '&'
  {
    if text == "" {
    } else {
      EscapeLeavesNoDelimiter(text[1..]);
      forall c | c in EscapeHtml(text) && IsSpecial(c)
        ensures c == '&'
      {
        assert c in EscapeChar(text[0]) || c in EscapeHtml(text[1..]);
      }
    }
  }

  /** Escaping is injective: two texts with one rendering are one text. */
  lemma EscapeInjective(a: string, b: string)
    requires EscapeHtml(a) == EscapeHtml(b)
    ensures a == b
  {
    var names := map["amp" := "&", "lt" := "<", "gt" := ">", "quot" := "\""];
    DecodeEscape(names, a);
    DecodeEscape(names, b);
  }

  lemma {:induction false} EscapeNeverShrinks(text: string)
    ensures |EscapeHtml(text)| >= |text|
  {
    if text == "" {
    } else {
      EscapeNeverShrinks(text[1..]);
    }
  }

  ghost predicate IsPlain(text: string) {
    forall i :: 0 <= i < |text| ==> !IsSpecial(text[i])
  }

  /** The escaper changes nothing exactly when there is nothing to escape. */
  lemma {:induction false} FixedIffPlain(text: string)
    ensures EscapeHtml(text) == text <==> IsPlain(text)
  {
    if text == "" {
    } else {
      var rest := text[1..];
      FixedIffPlain(rest);
      EscapeNeverShrinks(rest);
      assert text == [text[0]] + rest;
      assert IsPlain(text) ==> IsPlain(rest);
      assert IsPlain(rest) && !IsSpecial(text[0]) ==> IsPlain(text);
      if EscapeHtml(text) == text {
        assert |EscapeChar(text[0])| == 1;
        assert EscapeHtml(text)[1..] == EscapeHtml(rest);
      }
    }
  }

  /** Escaping twice is escaping once exactly for the texts that need no escaping at all. */
  lemma EscapeTwice(text: string)
    ensures EscapeHtml(EscapeHtml(text)) == EscapeHtml(text) <==> IsPlain(text)
  {
    FixedIffPlain(text);
    if EscapeHtml(EscapeHtml(text)) == EscapeHtml(text) {
      EscapeInjective(EscapeHtml(text), text);
    }
  }
}
