/** `escapeXml` of the CMR exporter and the five predefined entities of
    XML 1.0 (Fifth Edition), section 4.6: `&amp;` `&lt;` `&gt;` `&quot;` `&apos;`. */
module XmlEscape {
  import opened Common

  /** JavaScript's `s.replace(/c/g, r)` for a single character `c`. */
  function ReplaceAll(s: string, c: char, r: string): string
  {
    if |s| == 0 then "" else (if s[0] == c then r else [s[0]]) + ReplaceAll(s[1..], c, r)
  }

  /** A character the replacement does not hold is missing from the result
      when it is the one replaced or is missing from `s` too. */
  lemma {:induction false} ReplaceAllWithout(s: string, c: char, r: string, x: char)
    requires x !in r && (x == c || x !in s)
    ensures x !in ReplaceAll(s, c, r)
  {
    if |s| > 0 {
      assert x != c ==> x != s[0] && x !in s[1..];
      ReplaceAllWithout(s[1..], c, r, x);
    }
  }

  /** `escapeXml` exactly as written: `&` first, then `<`, `>`, `"`, `'`. The
      result holds none of `<`, `>`, `"` and `'`. */
  function EscapeXml(s: string): (e: string)
    ensures '<' !in e && '>' !in e && '"' !in e && '\'' !in e
  {
    var s1 := ReplaceAll(s, '&', "&amp;");
    var s2 := ReplaceAll(s1, '<', "&lt;");
    var s3 := ReplaceAll(s2, '>', "&gt;");
    var s4 := ReplaceAll(s3, '"', "&quot;");
    ReplaceAllWithout(s1, '<', "&lt;", '<');
    ReplaceAllWithout(s2, '>', "&gt;", '<');
    ReplaceAllWithout(s2, '>', "&gt;", '>');
    ReplaceAllWithout(s3, '"', "&quot;", '<');
    ReplaceAllWithout(s3, '"', "&quot;", '>');
    ReplaceAllWithout(s3, '"', "&quot;", '"');
    ReplaceAllWithout(s4, '\'', "&apos;", '<');
    ReplaceAllWithout(s4, '\'', "&apos;", '>');
    ReplaceAllWithout(s4, '\'', "&apos;", '"');
    ReplaceAllWithout(s4, '\'', "&apos;", '\'');
    ReplaceAll(s4, '\'', "&apos;")
  }

  predicate IsSpecial(c: char)
  {
    c == '&' || c == '<' || c == '>' || c == '"' || c == '\''
  }

  /** The entity that stands for one character, or the character itself. */
  function EscapeChar(c: char): string
  {
    match c
    case '&' => "&amp;"
    case '<' => "&lt;"
    case '>' => "&gt;"
    case '"' => "&quot;"
    case '\'' => "&apos;"
    case _ => [c]
  }

  /** The reference definition: every character replaced by its entity in one pass. */
  function EscapeEach(s: string): string
  {
    if |s| == 0 then "" else EscapeChar(s[0]) + EscapeEach(s[1..])
  }

  lemma {:induction false} ReplaceAllAppend(a: string, b: string, c: char, r: string)
    ensures ReplaceAll(a + b, c, r) == ReplaceAll(a, c, r) + ReplaceAll(b, c, r)
  {
    if |a| > 0 {
      assert (a + b)[1..] == a[1..] + b;
      ReplaceAllAppend(a[1..], b, c, r);
    } else {
      assert a + b == b;
    }
  }

  lemma {:induction false} ReplaceAllAbsent(s: string, c: char, r: string)
    requires !Contains(s, c)
    ensures ReplaceAll(s, c, r) == s
  {
    if |s| > 0 {
      assert forall i :: 0 <= i < |s[1..]| ==> s[1..][i] == s[i + 1];
      ReplaceAllAbsent(s[1..], c, r);
    }
  }

  lemma ReplaceAllSingle(c: char, d: char, r: string)
    ensures ReplaceAll([c], d, r) == if c == d then r else [c]
  {
    assert [c][1..] == "";
  }

  /** The chain of replacements escapes one character as its entity: no later
      replacement touches the `&` that an earlier one introduced. */
  lemma EscapeXmlChar(c: char)
    ensures EscapeXml([c]) == EscapeChar(c)
  {
    var s4 := ReplaceAll(ReplaceAll(ReplaceAll(ReplaceAll([c], '&', "&amp;"), '<', "&lt;"), '>', "&gt;"), '"', "&quot;");
    AfterQuot(c);
    ReplaceAllAbsentOrSingle(s4, c, '\'', "&apos;");
  }

  /** The first four replacements of the chain on a single character. */
  lemma AfterAmp(c: char)
    ensures ReplaceAll([c], '&', "&amp;") == (if c == '&' then "&amp;" else [c])
  {
    ReplaceAllSingle(c, '&', "&amp;");
  }

  lemma AfterLt(c: char)
    ensures var s1 := ReplaceAll([c], '&', "&amp;");
      ReplaceAll(s1, '<', "&lt;") == (if c == '&' then "&amp;" else if c == '<' then "&lt;" else [c])
  {
    AfterAmp(c);
    ReplaceAllAbsentOrSingle(ReplaceAll([c], '&', "&amp;"), c, '<', "&lt;");
  }

  lemma AfterGt(c: char)
    ensures var s2 := ReplaceAll(ReplaceAll([c], '&', "&amp;"), '<', "&lt;");
      ReplaceAll(s2, '>', "&gt;")
      == (if c == '&' then "&amp;" else if c == '<' then "&lt;" else if c == '>' then "&gt;" else [c])
  {
    AfterLt(c);
    ReplaceAllAbsentOrSingle(ReplaceAll(ReplaceAll([c], '&', "&amp;"), '<', "&lt;"), c, '>', "&gt;");
  }

  lemma AfterQuot(c: char)
    ensures var s3 := ReplaceAll(ReplaceAll(ReplaceAll([c], '&', "&amp;"), '<', "&lt;"), '>', "&gt;");
      ReplaceAll(s3, '"', "&quot;")
      == (if c == '&' then "&amp;" else if c == '<' then "&lt;" else if c == '>' then "&gt;"
          else if c == '"' then "&quot;" else [c])
  {
    AfterGt(c);
    ReplaceAllAbsentOrSingle(ReplaceAll(ReplaceAll(ReplaceAll([c], '&', "&amp;"), '<', "&lt;"), '>', "&gt;"),
                             c, '"', "&quot;");
  }

  /** A step of the chain either meets the original character (still alone)
      or meets an entity that does not contain the character being replaced. */
  lemma ReplaceAllAbsentOrSingle(s: string, c: char, d: char, r: string)
    requires s == [c] || !Contains(s, d)
    ensures s == [c] ==> ReplaceAll(s, d, r) == (if c == d then r else [c])
    ensures s != [c] ==> ReplaceAll(s, d, r) == s
  {
    if s == [c] { ReplaceAllSingle(c, d, r); } else { ReplaceAllAbsent(s, d, r); }
  }

  lemma EscapeXmlAppend(a: string, b: string)
    ensures EscapeXml(a + b) == EscapeXml(a) + EscapeXml(b)
  {
    var s1a, s1b := ReplaceAll(a, '&', "&amp;"), ReplaceAll(b, '&', "&amp;");
    ReplaceAllAppend(a, b, '&', "&amp;");
    var s2a, s2b := ReplaceAll(s1a, '<', "&lt;"), ReplaceAll(s1b, '<', "&lt;");
    ReplaceAllAppend(s1a, s1b, '<', "&lt;");
    var s3a, s3b := ReplaceAll(s2a, '>', "&gt;"), ReplaceAll(s2b, '>', "&gt;");
    ReplaceAllAppend(s2a, s2b, '>', "&gt;");
    var s4a, s4b := ReplaceAll(s3a, '"', "&quot;"), ReplaceAll(s3b, '"', "&quot;");
    ReplaceAllAppend(s3a, s3b, '"', "&quot;");
    ReplaceAllAppend(s4a, s4b, '\'', "&apos;");
  }

  /** Replacing `&` first makes the five chained replacements equal to a
      single pass that escapes each character independently. */
  lemma {:induction false} EscapeXmlIsEscapeEach(s: string)
    ensures EscapeXml(s) == EscapeEach(s)
  {
    if |s| > 0 {
      assert s == [s[0]] + s[1..];
      EscapeXmlAppend([s[0]], s[1..]);
      EscapeXmlChar(s[0]);
      EscapeXmlIsEscapeEach(s[1..]);
    }
  }

  // ---- Reading entities back --------------------------------------------------

  predicate StartsWith(t: string, p: string)
  {
    |p| <= |t| && t[..|p|] == p
  }

  /** What a markup parser reports for character data: the five entities
      become their characters again. */
  function Unescape(t: string): string
    decreases |t|
  {
    if |t| == 0 then ""
    else if StartsWith(t, "&amp;") then "&" + Unescape(t[5..])
    else if StartsWith(t, "&lt;") then "<" + Unescape(t[4..])
    else if StartsWith(t, "&gt;") then ">" + Unescape(t[4..])
    else if StartsWith(t, "&quot;") then "\"" + Unescape(t[6..])
    else if StartsWith(t, "&apos;") then "'" + Unescape(t[6..])
    else [t[0]] + Unescape(t[1..])
  }

  lemma UnescapeStep(c: char, rest: string)
    ensures Unescape(EscapeChar(c) + rest) == [c] + Unescape(rest)
  {
    var e := EscapeChar(c);
    var t := e + rest;
    assert t[..|e|] == e;
    assert t[|e|..] == rest;
    if IsSpecial(c) {
      assert t[1] == e[1] && t[2] == e[2];
      match c
      case '&' => assert StartsWith(t, "&amp;");
      case '<' => assert !StartsWith(t, "&amp;") && StartsWith(t, "&lt;");
      case '>' =>
        assert !StartsWith(t, "&amp;") && !StartsWith(t, "&lt;");
        assert StartsWith(t, "&gt;");
      case '"' =>
        assert !StartsWith(t, "&amp;") && !StartsWith(t, "&lt;") && !StartsWith(t, "&gt;");
        assert StartsWith(t, "&quot;");
      case '\'' =>
        assert !StartsWith(t, "&amp;") && !StartsWith(t, "&lt;") && !StartsWith(t, "&gt;");
        assert !StartsWith(t, "&quot;") && StartsWith(t, "&apos;");
    } else {
      assert t[0] == c && t[1..] == rest;
      assert !StartsWith(t, "&amp;") && !StartsWith(t, "&lt;") && !StartsWith(t, "&gt;");
      assert !StartsWith(t, "&quot;") && !StartsWith(t, "&apos;");
    }
  }

  /** Unescaping undoes escaping for every string. */
  lemma {:induction false} UnescapeEscapeXml(s: string)
    ensures Unescape(EscapeXml(s)) == s
  {
    EscapeXmlIsEscapeEach(s);
    UnescapeEscapeEach(s);
  }

  lemma {:induction false} UnescapeEscapeEach(s: string)
    ensures Unescape(EscapeEach(s)) == s
  {
    if |s| > 0 {
      UnescapeStep(s[0], EscapeEach(s[1..]));
      UnescapeEscapeEach(s[1..]);
      assert s == [s[0]] + s[1..];
    }
  }

  // ---- Safety of the escaped text ---------------------------------------------

  /** `t` starts, at index `i`, one of the five entity references. */
  predicate EntityAt(t: string, i: nat)
    requires i < |t|
  {
    var rest := t[i..];
    StartsWith(rest, "&amp;") || StartsWith(rest, "&lt;") || StartsWith(rest, "&gt;")
    || StartsWith(rest, "&quot;") || StartsWith(rest, "&apos;")
  }

  /** Character data that a parser accepts and reads as intended: no raw
      `<`, `>`, `"` or `'`, and every `&` begins a predefined entity. */
  predicate Safe(t: string)
  {
    (forall i :: 0 <= i < |t| ==> t[i] != '<' && t[i] != '>' && t[i] != '"' && t[i] != '\'')
    && (forall i :: 0 <= i < |t| && t[i] == '&' ==> EntityAt(t, i))
  }

  lemma SafeAppend(a: string, b: string)
    requires Safe(a) && Safe(b)
    ensures Safe(a + b)
  {
    var t := a + b;
    forall i | 0 <= i < |t| && t[i] == '&' ensures EntityAt(t, i) {
      if i < |a| {
        assert a[i] == '&' && EntityAt(a, i);
        var rest := a[i..];
        assert t[i..] == rest + b;
        EntityOfAppend(rest, b);
      } else {
        assert b[i - |a|] == '&' && EntityAt(b, i - |a|);
        assert t[i..] == b[i - |a|..];
      }
    }
  }

  lemma PrefixOfAppend(a: string, b: string, p: string)
    requires StartsWith(a, p)
    ensures StartsWith(a + b, p)
  {
    assert (a + b)[..|p|] == a[..|p|];
  }

  lemma EntityOfAppend(a: string, b: string)
    requires |a| > 0 && EntityAt(a, 0)
    ensures EntityAt(a + b, 0)
  {
    assert a[0..] == a && (a + b)[0..] == a + b;
    if StartsWith(a, "&amp;") { PrefixOfAppend(a, b, "&amp;"); }
    else if StartsWith(a, "&lt;") { PrefixOfAppend(a, b, "&lt;"); }
    else if StartsWith(a, "&gt;") { PrefixOfAppend(a, b, "&gt;"); }
    else if StartsWith(a, "&quot;") { PrefixOfAppend(a, b, "&quot;"); }
    else { PrefixOfAppend(a, b, "&apos;"); }
  }

  lemma SafeEscapeChar(c: char)
    ensures Safe(EscapeChar(c))
  {
    var t := EscapeChar(c);
    if IsSpecial(c) {
      assert t[0] == '&' && t[0..] == t;
      assert forall i :: 1 <= i < |t| ==> t[i] != '&';
      assert EntityAt(t, 0);
    }
  }

  lemma {:induction false} SafeEscapeEach(s: string)
    ensures Safe(EscapeEach(s))
  {
    if |s| > 0 {
      SafeEscapeChar(s[0]);
      SafeEscapeEach(s[1..]);
      SafeAppend(EscapeChar(s[0]), EscapeEach(s[1..]));
    }
  }

  /** The output of `escapeXml` contains none of `<`, `>`, `"`, `'`, and every
      `&` in it starts one of the five entities. */
  lemma SafeEscapeXml(s: string)
    ensures Safe(EscapeXml(s))
  {
    EscapeXmlIsEscapeEach(s);
    SafeEscapeEach(s);
  }

  predicate NoSpecial(s: string)
  {
    forall i :: 0 <= i < |s| ==> !IsSpecial(s[i])
  }

  lemma NoSpecialAppend(a: string, b: string)
    requires NoSpecial(a) && NoSpecial(b)
    ensures NoSpecial(a + b)
  {
    assert forall i :: 0 <= i < |a + b| ==> (a + b)[i] == if i < |a| then a[i] else b[i - |a|];
  }

  lemma NoSpecialSafe(s: string)
    requires NoSpecial(s)
    ensures Safe(s)
  {
  }

  lemma {:induction false} EscapeEachLength(s: string)
    ensures |EscapeEach(s)| >= |s|
    ensures |EscapeEach(s)| == |s| <==> NoSpecial(s)
    ensures NoSpecial(s) ==> EscapeEach(s) == s
  {
    if |s| > 0 {
      EscapeEachLength(s[1..]);
      assert NoSpecial(s) <==> !IsSpecial(s[0]) && NoSpecial(s[1..]) by {
        if !IsSpecial(s[0]) && NoSpecial(s[1..]) {
          forall i | 0 <= i < |s| ensures !IsSpecial(s[i]) {
            if i > 0 { assert s[i] == s[1..][i - 1]; }
          }
        }
      }
      if NoSpecial(s) { assert s == [s[0]] + s[1..]; }
    }
  }

  /** `escapeXml` leaves a string unchanged exactly when it contains none of
      the five special characters. */
  lemma EscapeXmlIdentity(s: string)
    ensures EscapeXml(s) == s <==> NoSpecial(s)
  {
    EscapeXmlIsEscapeEach(s);
    EscapeEachLength(s);
  }

  lemma {:induction false} EscapeEachHasAmpersand(s: string)
    requires !NoSpecial(s)
    ensures Contains(EscapeEach(s), '&')
  {
    var t := EscapeEach(s);
    if IsSpecial(s[0]) {
      assert t[0] == EscapeChar(s[0])[0] == '&';
    } else {
      assert !NoSpecial(s[1..]) by {
        var i :| 0 <= i < |s| && IsSpecial(s[i]);
        assert s[1..][i - 1] == s[i];
      }
      EscapeEachHasAmpersand(s[1..]);
      var j :| 0 <= j < |EscapeEach(s[1..])| && EscapeEach(s[1..])[j] == '&';
      assert t[j + 1] == '&';
    }
  }

  /** Escaping is a single pass, not idempotent: escaping the output again
      changes it exactly when the input had a special character. */
  lemma EscapeXmlTwice(s: string)
    ensures EscapeXml(EscapeXml(s)) == EscapeXml(s) <==> NoSpecial(s)
  {
    EscapeXmlIdentity(s);
    EscapeXmlIdentity(EscapeXml(s));
    EscapeXmlIsEscapeEach(s);
    if !NoSpecial(s) {
      EscapeEachHasAmpersand(s);
      var j :| 0 <= j < |EscapeXml(s)| && EscapeXml(s)[j] == '&';
      assert !NoSpecial(EscapeXml(s));
    }
  }
}
