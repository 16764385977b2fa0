/**
 * `escapeXml` of the XML route: five global replacements, ampersand first,
 * which together replace the five predefined entities of section 4.6 of the
 * W3C XML 1.0 Recommendation.
 */
module XmlEscape {

  /** `s.replace(/c/g, rep)` for a one-character pattern: every `c` becomes `rep`. */
  function ReplaceAll(s: string, c: char, rep: string): (r: string)
    decreases |s|
  {
    if s == [] then [] else (if s[0] == c then rep else [s[0]]) + ReplaceAll(s[1..], c, rep)
  }

  /** The chain of replacements exactly as the route writes it. */
  function EscapeXml(v: string): string {
    ReplaceAll(ReplaceAll(ReplaceAll(ReplaceAll(ReplaceAll(
      v, '&', "&amp;"), '<', "&lt;"), '>', "&gt;"), '"', "&quot;"), '\'', "&apos;")
  }

  predicate IsSpecial(c: char) {
    c == '&' || c == '<' || c == '>' || c == '"' || c == '\''
  }

  /** The entity that stands for one character (the character itself when it is not special). */
  function EscapeChar(c: char): string {
    if c == '&' then "&amp;"
    else if c == '<' then "&lt;"
    else if c == '>' then "&gt;"
    else if c == '"' then "&quot;"
    else if c == '\'' then "&apos;"
    else [c]
  }

  /** The reference definition: escape each character on its own. */
  function EscapeEach(s: string): string
    decreases |s|
  {
    if s == [] then [] else EscapeChar(s[0]) + EscapeEach(s[1..])
  }

  /** `r` has none of the four characters that escaping must remove outright. */
  predicate NoMarkup(r: string) {
    forall i :: 0 <= i < |r| ==> r[i] != '<' && r[i] != '>' && r[i] != '"' && r[i] != '\''
  }

  /** Every ampersand of `r` begins an entity reference. */
  predicate AmpersandsAreEntities(r: string) {
    forall i :: 0 <= i < |r| && r[i] == '&' ==> StartsWithEntity(r[i..])
  }

  /** `t` begins with one of the five entity references. */
  predicate StartsWithEntity(t: string) {
    "&amp;" <= t || "&lt;" <= t || "&gt;" <= t || "&quot;" <= t || "&apos;" <= t
  }

  /** Decodes the five entity references; every other character stands for itself. */
  function Unescape(s: string): string
    decreases |s|
  {
    if s == [] then []
    else if "&amp;" <= s then "&" + Unescape(s[5..])
    else if "&lt;" <= s then "<" + Unescape(s[4..])
    else if "&gt;" <= s then ">" + Unescape(s[4..])
    else if "&quot;" <= s then "\"" + Unescape(s[6..])
    else if "&apos;" <= s then "'" + Unescape(s[6..])
    else [s[0]] + Unescape(s[1..])
  }

  lemma {:induction false} ReplaceAllConcat(a: string, b: string, c: char, rep: string)
    ensures ReplaceAll(a + b, c, rep) == ReplaceAll(a, c, rep) + ReplaceAll(b, c, rep)
    decreases |a|
  {
    if a == [] {
      assert a + b == b;
    } else {
      assert (a + b)[0] == a[0];
      assert (a + b)[1..] == a[1..] + b;
      ReplaceAllConcat(a[1..], b, c, rep);
      var h := if a[0] == c then rep else [a[0]];
      calc {
        ReplaceAll(a + b, c, rep);
        h + ReplaceAll(a[1..] + b, c, rep);
        h + (ReplaceAll(a[1..], c, rep) + ReplaceAll(b, c, rep));
        (h + ReplaceAll(a[1..], c, rep)) + ReplaceAll(b, c, rep);
      }
    }
  }

  /** Replacing a character that does not occur changes nothing. */
  lemma {:induction false} ReplaceAllAbsent(s: string, c: char, rep: string)
    requires c !in s
    ensures ReplaceAll(s, c, rep) == s
    decreases |s|
  {
    if s != [] {
      ReplaceAllAbsent(s[1..], c, rep);
    }
  }

  lemma EscapeXmlConcat(a: string, b: string)
    ensures EscapeXml(a + b) == EscapeXml(a) + EscapeXml(b)
  {
    var a1, b1 := ReplaceAll(a, '&', "&amp;"), ReplaceAll(b, '&', "&amp;");
    ReplaceAllConcat(a, b, '&', "&amp;");
    var a2, b2 := ReplaceAll(a1, '<', "&lt;"), ReplaceAll(b1, '<', "&lt;");
    ReplaceAllConcat(a1, b1, '<', "&lt;");
    var a3, b3 := ReplaceAll(a2, '>', "&gt;"), ReplaceAll(b2, '>', "&gt;");
    ReplaceAllConcat(a2, b2, '>', "&gt;");
    var a4, b4 := ReplaceAll(a3, '"', "&quot;"), ReplaceAll(b3, '"', "&quot;");
    ReplaceAllConcat(a3, b3, '"', "&quot;");
    ReplaceAllConcat(a4, b4, '\'', "&apos;");
  }

  lemma ReplaceAllSingle(c: char, d: char, rep: string)
    ensures ReplaceAll([c], d, rep) == if c == d then rep else [c]
  {
    assert [c][1..] == [];
  }

  /** The stages after the ampersand's leave alone a string they find nothing in. */
  lemma StagesFromLtAbsent(e: string)
    requires '<' !in e && '>' !in e && '"' !in e && '\'' !in e
    ensures ReplaceAll(ReplaceAll(ReplaceAll(ReplaceAll(
      e, '<', "&lt;"), '>', "&gt;"), '"', "&quot;"), '\'', "&apos;") == e
  {
    ReplaceAllAbsent(e, '<', "&lt;");
    StagesFromGtAbsent(e);
  }

  lemma StagesFromGtAbsent(e: string)
    requires '>' !in e && '"' !in e && '\'' !in e
    ensures ReplaceAll(ReplaceAll(ReplaceAll(e, '>', "&gt;"), '"', "&quot;"), '\'', "&apos;") == e
  {
    ReplaceAllAbsent(e, '>', "&gt;");
    StagesFromQuotAbsent(e);
  }

  lemma StagesFromQuotAbsent(e: string)
    requires '"' !in e && '\'' !in e
    ensures ReplaceAll(ReplaceAll(e, '"', "&quot;"), '\'', "&apos;") == e
  {
    ReplaceAllAbsent(e, '"', "&quot;");
    ReplaceAllAbsent(e, '\'', "&apos;");
  }

  /** On one character the chain yields that character's entity: no entity is processed twice. */
  lemma EscapeXmlChar(c: char)
    ensures EscapeXml([c]) == EscapeChar(c)
  {
    ReplaceAllSingle(c, '&', "&amp;");
    var s1 := ReplaceAll([c], '&', "&amp;");
    if c == '&' {
      StagesFromLtAbsent(s1);
      return;
    }
    ReplaceAllSingle(c, '<', "&lt;");
    var s2 := ReplaceAll(s1, '<', "&lt;");
    if c == '<' {
      StagesFromGtAbsent(s2);
      return;
    }
    ReplaceAllSingle(c, '>', "&gt;");
    var s3 := ReplaceAll(s2, '>', "&gt;");
    if c == '>' {
      StagesFromQuotAbsent(s3);
      return;
    }
    ReplaceAllSingle(c, '"', "&quot;");
    var s4 := ReplaceAll(s3, '"', "&quot;");
    if c == '"' {
      ReplaceAllAbsent(s4, '\'', "&apos;");
      return;
    }
    ReplaceAllSingle(c, '\'', "&apos;");
  }

  /** Because `&` is replaced first, the chain of five replacements is a per-character map. */
  lemma {:induction false} EscapeXmlIsPerCharacter(v: string)
    ensures EscapeXml(v) == EscapeEach(v)
    decreases |v|
  {
    if v != [] {
      assert v == [v[0]] + v[1..];
      EscapeXmlConcat([v[0]], v[1..]);
      EscapeXmlChar(v[0]);
      EscapeXmlIsPerCharacter(v[1..]);
    }
  }

  /** `"&lt;"` becomes `"&amp;lt;"`: the ampersand of an input entity is escaped once, nothing more. */
  lemma EscapeOfEntityText()
    ensures EscapeXml("&lt;") == "&amp;lt;"
  {
    var t := "lt;";
    EscapeEachPlain(t);
    EscapeEachConcat("&", t);
    assert "&" + t == "&lt;";
    EscapeXmlIsPerCharacter("&lt;");
  }

  lemma {:induction false} EscapeEachConcat(a: string, b: string)
    ensures EscapeEach(a + b) == EscapeEach(a) + EscapeEach(b)
    decreases |a|
  {
    if a == [] {
      assert a + b == b;
    } else {
      assert (a + b)[0] == a[0];
      assert (a + b)[1..] == a[1..] + b;
      EscapeEachConcat(a[1..], b);
      calc {
        EscapeEach(a + b);
        EscapeChar(a[0]) + EscapeEach(a[1..] + b);
        EscapeChar(a[0]) + (EscapeEach(a[1..]) + EscapeEach(b));
        (EscapeChar(a[0]) + EscapeEach(a[1..])) + EscapeEach(b);
      }
    }
  }

  /** An entity has its ampersand in front and none of the other four special characters. */
  lemma EscapeCharShape(c: char)
    ensures var e := EscapeChar(c);
      |e| > 0
      && (forall i :: 0 <= i < |e| ==> e[i] != '<' && e[i] != '>' && e[i] != '"' && e[i] != '\'')
      && (forall i :: 0 < i < |e| ==> e[i] != '&')
      && (e[0] == '&' ==> e in ["&amp;", "&lt;", "&gt;", "&quot;", "&apos;"])
  {
  }

  lemma {:induction false} EscapeEachShape(s: string)
    ensures NoMarkup(EscapeEach(s)) && AmpersandsAreEntities(EscapeEach(s))
    decreases |s|
  {
    if s != [] {
      EscapeEachShape(s[1..]);
      EscapeCharShape(s[0]);
      var e, rest := EscapeChar(s[0]), EscapeEach(s[1..]);
      var r := e + rest;
      assert EscapeEach(s) == r;
      forall i | 0 <= i < |r| && r[i] == '&' ensures StartsWithEntity(r[i..]) {
        if i < |e| {
          assert r[i] == e[i];
          assert i == 0;
          assert r[0..] == e + rest;
          assert e <= r;
        } else {
          assert r[i] == rest[i - |e|];
          assert r[i..] == rest[i - |e|..];
        }
      }
      forall i | 0 <= i < |r| ensures r[i] != '<' && r[i] != '>' && r[i] != '"' && r[i] != '\'' {
        if i >= |e| {
          assert r[i] == rest[i - |e|];
        } else {
          assert r[i] == e[i];
        }
      }
    }
  }

  /**
   * The output never contains `<`, `>`, `"` or `'`, and every `&` in it begins
   * one of the five entity references.
   */
  lemma EscapeXmlOutputIsSafe(v: string)
    ensures NoMarkup(EscapeXml(v)) && AmpersandsAreEntities(EscapeXml(v))
  {
    EscapeXmlIsPerCharacter(v);
    EscapeEachShape(v);
  }

  lemma {:induction false} UnescapeEscapeEach(s: string)
    ensures Unescape(EscapeEach(s)) == s
    decreases |s|
  {
    if s != [] {
      var e, rest := EscapeChar(s[0]), EscapeEach(s[1..]);
      var r := e + rest;
      assert r[|e|..] == rest;
      UnescapeEscapeEach(s[1..]);
      assert e <= r;
      if s[0] == '&' {
      } else if s[0] == '<' {
        assert r[1] == 'l';
      } else if s[0] == '>' {
        assert r[1] == 'g';
      } else if s[0] == '"' {
        assert r[1] == 'q';
      } else if s[0] == '\'' {
        assert r[1] == 'a' && r[2] == 'p';
      } else {
        assert r[0] == s[0];
      }
    }
  }

  /** Round trip: decoding the five entities of `escapeXml(v)` gives back `v`. */
  lemma UnescapeEscapeXml(v: string)
    ensures Unescape(EscapeXml(v)) == v
  {
    EscapeXmlIsPerCharacter(v);
    UnescapeEscapeEach(v);
  }

  lemma {:induction false} EscapeEachPlain(s: string)
    requires forall i :: 0 <= i < |s| ==> !IsSpecial(s[i])
    ensures EscapeEach(s) == s
    decreases |s|
  {
    if s != [] {
      EscapeEachPlain(s[1..]);
    }
  }

  /** A string with none of the five special characters is returned unchanged. */
  lemma EscapeXmlPlain(v: string)
    requires forall i :: 0 <= i < |v| ==> !IsSpecial(v[i])
    ensures EscapeXml(v) == v
  {
    EscapeXmlIsPerCharacter(v);
    EscapeEachPlain(v);
  }
}
