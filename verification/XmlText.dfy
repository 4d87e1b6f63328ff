/** Text inside XML attributes: what the writer escapes and what a reader gives back. */
module XmlText {
  import opened Basics

  function EscapeChar(c: char): string {
    if c == '&' then "&amp;" else if c == '<' then "&lt;" else [c]
  }

  function Escape(s: string): string {
    if s == "" then "" else EscapeChar(s[0]) + Escape(s[1..])
  }

  /** The five references every reader knows (section 4.6 of XML 1.0). */
  function Reference(s: string): Option<(char, string)> {
    if "&amp;" <= s then Some(('&', s[5..]))
    else if "&lt;" <= s then Some(('<', s[4..]))
    else if "&gt;" <= s then Some(('>', s[4..]))
    else if "&quot;" <= s then Some(('\"', s[6..]))
    else if "&apos;" <= s then Some(('\'', s[6..]))
    else None
  }

  predicate Blank(c: char) {
    c == '\t' || c == '\n' || c == '\r'
  }

  /** A carriage return and the line feed behind it are one line end (section 2.11 of XML 1.0). */
  function FirstLength(s: string): (n: nat)
    requires s != ""
    ensures 1 <= n <= |s|
  {
    if "\r\n" <= s then 2 else 1
  }

  /** What a reader makes of the raw text of an attribute: references are resolved, line ends and
      white space are normalized (sections 2.11 and 3.3.3 of XML 1.0), and a bare '<' or '&' is an
      error (section 2.4). */
  function Unescape(raw: string): Option<string>
    decreases |raw|
  {
    if raw == "" then Some("")
    else if raw[0] == '<' then None
    else if raw[0] == '&' then
      match Reference(raw)
      case None => None
      case Some((c, rest)) =>
        var more := Unescape(rest);
        if more.None? then None else Some([c] + more.value)
    else
      var more := Unescape(raw[FirstLength(raw)..]);
      if more.None? then None
      else Some([if Blank(raw[0]) then ' ' else raw[0]] + more.value)
  }

  function Normalize(s: string): string
    decreases |s|
  {
    if s == "" then "" else [if Blank(s[0]) then ' ' else s[0]] + Normalize(s[FirstLength(s)..])
  }

  /** Reading back what was written gives the text with its white space normalized. */
  lemma {:induction false} UnescapeEscape(s: string)
    ensures Unescape(Escape(s)) == Some(Normalize(s))
    decreases |s|
  {
    if s != "" {
      var raw := Escape(s);
      UnescapeEscape(s[FirstLength(s)..]);
      if s[0] == '&' {
        assert raw[..5] == "&amp;" && raw[5..] == Escape(s[1..]);
        assert "&amp;" <= raw;
      } else if s[0] == '<' {
        assert raw[..4] == "&lt;" && raw[4..] == Escape(s[1..]);
        assert raw[1] == 'l' && "&lt;" <= raw;
      } else {
        LineEndsStay(s);
      }
    }
  }

  /** Escaping leaves line ends where they are. */
  lemma {:induction false} LineEndsStay(s: string)
    requires s != "" && s[0] != '&' && s[0] != '<'
    ensures Escape(s) != "" && Escape(s)[0] == s[0] && FirstLength(Escape(s)) == FirstLength(s)
    ensures Escape(s)[FirstLength(s)..] == Escape(s[FirstLength(s)..])
  {
    var raw, rest := Escape(s), Escape(s[1..]);
    assert raw[1..] == rest;
    if |s| > 1 {
      assert rest == EscapeChar(s[1]) + Escape(s[1..][1..]);
      assert raw[1] == rest[0] && (rest[0] == '\n' <==> s[1] == '\n');
      if s[1] == '\n' {
        assert s[1..][1..] == s[2..] && raw[2..] == Escape(s[2..]);
      }
    }
  }

  predicate NoBlanks(s: string) {
    forall i :: 0 <= i < |s| ==> !Blank(s[i])
  }

  lemma {:induction false} NormalizeKeeps(s: string)
    ensures Normalize(s) == s <==> NoBlanks(s)
    ensures |Normalize(s)| <= |s|
    decreases |s|
  {
    if s != "" {
      NormalizeKeeps(s[FirstLength(s)..]);
      if Normalize(s) == s || NoBlanks(s) {
        assert FirstLength(s) == 1;
        NormalizeSteps(s);
      }
    }
  }

  lemma {:induction false} NormalizeSteps(s: string)
    requires s != "" && FirstLength(s) == 1
    requires Normalize(s[1..]) == s[1..] <==> NoBlanks(s[1..])
    ensures Normalize(s) == s <==> NoBlanks(s)
  {
    assert s == [s[0]] + s[1..];
    assert Normalize(s)[1..] == Normalize(s[1..]);
    assert NoBlanks(s) <==> !Blank(s[0]) && NoBlanks(s[1..]);
  }

  /** Text survives the trip exactly if it holds no tab and no line break. */
  lemma {:induction false} TextRoundTrip(s: string)
    ensures Unescape(Escape(s)) == Some(s) <==> NoBlanks(s)
  {
    UnescapeEscape(s);
    NormalizeKeeps(s);
  }

  /** Different texts without tabs and line breaks are written differently. */
  lemma {:induction false} EscapeIsInjective(s: string, t: string)
    requires NoBlanks(s) && NoBlanks(t) && Escape(s) == Escape(t)
    ensures s == t
  {
    TextRoundTrip(s);
    TextRoundTrip(t);
  }

  /** The raw text may stand between double quotes: no '<', no '"', and every '&' begins a
      reference. */
  predicate LegalInQuotes(raw: string) {
    Unescape(raw).Some? && '\"' !in raw
  }

  lemma {:induction false} QuotesPassThrough(s: string)
    ensures '\"' in Escape(s) <==> '\"' in s
  {
    if s != "" {
      QuotesPassThrough(s[1..]);
      var e := EscapeChar(s[0]);
      assert s[0] == '&' ==> e[0] == '&' && e[1] == 'a' && e[2] == 'm' && e[3] == 'p' && e[4] == ';' && |e| == 5;
      assert s[0] == '<' ==> e[0] == '&' && e[1] == 'l' && e[2] == 't' && e[3] == ';' && |e| == 4;
      assert '\"' in e <==> s[0] == '\"';
      assert s == [s[0]] + s[1..];
    }
  }

  /** What is written may stand in an attribute exactly if the text holds no double quote. */
  lemma {:induction false} EscapedIsLegal(s: string)
    ensures LegalInQuotes(Escape(s)) <==> '\"' !in s
  {
    UnescapeEscape(s);
    QuotesPassThrough(s);
  }

  /** The writer's loop. */
  method EscapeXml(str: string) returns (result: string)
    ensures result == Escape(str)
  {
    result := "";
    assert str[0..] == str;
    for i := 0 to |str|
      invariant result + Escape(str[i..]) == Escape(str)
    {
      EscapeHead(str, i, result);
      if str[i] == '&' {
        result := result + "&amp;";
      } else if str[i] == '<' {
        result := result + "&lt;";
      } else {
        result := result + [str[i]];
      }
    }
    assert str[|str|..] == "";
  }

  lemma EscapeHead(str: string, i: nat, before: string)
    requires i < |str|
    ensures before + Escape(str[i..]) == before + EscapeChar(str[i]) + Escape(str[i + 1..])
  {
    assert str[i..][0] == str[i] && str[i..][1..] == str[i + 1..];
  }

  // -------------------------------------------------------------------------
  // What a reader does, step by step
  // -------------------------------------------------------------------------

  /** Every line end, of one or two characters, becomes a line feed (section 2.11 of XML 1.0). */
  function LineEnds(s: string): string
    decreases |s|
  {
    if s == "" then ""
    else if |s| > 1 && s[0] == '\r' && s[1] == '\n' then "\n" + LineEnds(s[2..])
    else [if s[0] == '\r' then '\n' else s[0]] + LineEnds(s[1..])
  }

  /** Every line feed and tab becomes a space (section 3.3.3 of XML 1.0). */
  function Spaces(s: string): string {
    if s == "" then "" else [if s[0] == '\n' || s[0] == '\t' then ' ' else s[0]] + Spaces(s[1..])
  }

  /** Normalizing does first the one and then the other. */
  lemma {:induction false} NormalizeInTwoSteps(s: string)
    ensures Normalize(s) == Spaces(LineEnds(s))
    decreases |s|
  {
    if s != "" {
      NormalizeInTwoSteps(s[FirstLength(s)..]);
      var first, rest := LineEnds(s)[0], LineEnds(s[FirstLength(s)..]);
      assert LineEnds(s) == [first] + rest;
      assert LineEnds(s)[1..] == rest;
    }
  }

  lemma ReferencesAreFive(rest: string)
    ensures Reference("&amp;" + rest) == Some(('&', rest)) && Reference("&lt;" + rest) == Some(('<', rest))
    ensures Reference("&gt;" + rest) == Some(('>', rest)) && Reference("&quot;" + rest) == Some(('\"', rest))
    ensures Reference("&apos;" + rest) == Some(('\'', rest))
  {
    Different("&lt;" + rest, "&amp;", 1);
    Different("&gt;" + rest, "&amp;", 1);
    Different("&gt;" + rest, "&lt;", 1);
    Different("&quot;" + rest, "&amp;", 1);
    Different("&quot;" + rest, "&lt;", 1);
    Different("&quot;" + rest, "&gt;", 1);
    Different("&apos;" + rest, "&amp;", 2);
    Different("&apos;" + rest, "&lt;", 1);
    Different("&apos;" + rest, "&gt;", 1);
    Different("&apos;" + rest, "&quot;", 1);
  }

  lemma Different(s: string, t: string, i: nat)
    requires i < |s| && i < |t| && s[i] != t[i]
    ensures !(t <= s)
  {
  }
}
