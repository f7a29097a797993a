/** The e-mail notification formatter of `src/lib/notification-format.ts`:
    subject sanitisation against header injection (header fields are
    CRLF-delimited, section 2.2 of RFC 5322), HTML escaping of five
    characters, and the contact and review e-mail templates. */
module NotificationFormat {
  import opened Text
  import opened JsValues

  const MAX_SUBJECT_LENGTH: nat := 200

  predicate IsLineBreak(c: char) {
    c == '\r' || c == '\n'
  }

  /** `s` without its leading run of characters of the class `p`. */
  function DropRun(s: string, p: char -> bool): (r: string)
    ensures |r| <= |s| && r == s[|s| - |r|..]
    ensures forall i :: 0 <= i < |s| - |r| ==> p(s[i])
    ensures r != [] ==> !p(r[0])
  {
    if s != [] && p(s[0]) then DropRun(s[1..], p) else s
  }

  /** `s.replace(/[p]+/g, ' ')`: every maximal run of characters of the
      class `p` becomes one space. Afterwards the only `p`-characters left
      are spaces, and no two of them are adjacent. */
  function CollapseRuns(s: string, p: char -> bool): (r: string)
    ensures forall i :: 0 <= i < |r| && p(r[i]) ==> r[i] == ' '
    ensures forall i :: 0 <= i < |r| - 1 ==> !(p(r[i]) && p(r[i + 1]))
    ensures s != [] ==> r != [] && r[0] == (if p(s[0]) then ' ' else s[0])
    decreases |s|
  {
    if s == [] then []
    else if p(s[0]) then [' '] + CollapseRuns(DropRun(s[1..], p), p)
    else [s[0]] + CollapseRuns(s[1..], p)
  }

  /** Collapsing leaves a string alone when its `p`-characters are already
      single spaces. */
  lemma {:induction false} CollapseRunsFixed(s: string, p: char -> bool)
    requires forall i :: 0 <= i < |s| && p(s[i]) ==> s[i] == ' '
    requires forall i :: 0 <= i < |s| - 1 ==> !(p(s[i]) && p(s[i + 1]))
    ensures CollapseRuns(s, p) == s
    decreases |s|
  {
    if s != [] {
      if p(s[0]) {
        assert s[1..] != [] ==> !p(s[1..][0]);
        assert DropRun(s[1..], p) == s[1..];
      }
      CollapseRunsFixed(s[1..], p);
    }
  }

  /** The subject text before truncation: line breaks and then all
      whitespace runs collapsed to single spaces, then trimmed. */
  function Normalize(s: string): string {
    Trim(CollapseRuns(CollapseRuns(s, IsLineBreak), IsWhitespace))
  }

  /** `sanitizeSubject`. */
  function SanitizeSubject(s: string): (r: string)
    ensures |r| <= MAX_SUBJECT_LENGTH
    ensures r <= Normalize(s)
    ensures |Normalize(s)| <= MAX_SUBJECT_LENGTH ==> r == Normalize(s)
    ensures |Normalize(s)| > MAX_SUBJECT_LENGTH ==> r == Normalize(s)[..MAX_SUBJECT_LENGTH]
  {
    Take(Normalize(s), MAX_SUBJECT_LENGTH)
  }

  /** A subject that can go into a header as it is: at most 200 long, no
      whitespace but single spaces, none at either end. */
  ghost predicate IsCleanSubject(s: string) {
    && |s| <= MAX_SUBJECT_LENGTH
    && (forall i :: 0 <= i < |s| && IsWhitespace(s[i]) ==> s[i] == ' ')
    && (forall i :: 0 <= i < |s| - 1 ==> !(s[i] == ' ' && s[i + 1] == ' '))
    && (s != [] ==> s[0] != ' ' && s[|s| - 1] != ' ')
  }

  /** Whitespace only as single spaces. */
  ghost predicate SingleSpaced(s: string) {
    && (forall i :: 0 <= i < |s| && IsWhitespace(s[i]) ==> s[i] == ' ')
    && (forall i :: 0 <= i < |s| - 1 ==> !(IsWhitespace(s[i]) && IsWhitespace(s[i + 1])))
  }

  lemma SingleSpacedSlice(s: string, a: nat, b: nat)
    requires a <= b <= |s| && SingleSpaced(s)
    ensures SingleSpaced(s[a..b])
  {
    var t := s[a..b];
    assert forall i :: 0 <= i < |t| ==> t[i] == s[a + i];
  }

  /** The sanitised subject has no CR or LF and no whitespace other than
      single spaces, and does not start with a space. */
  lemma SanitizedIsSafe(s: string)
    ensures var r := SanitizeSubject(s);
      && '\r' !in r && '\n' !in r
      && (forall i :: 0 <= i < |r| && IsWhitespace(r[i]) ==> r[i] == ' ')
      && (forall i :: 0 <= i < |r| - 1 ==> !(r[i] == ' ' && r[i + 1] == ' '))
      && (r != [] ==> r[0] != ' ')
  {
    NormalizedSingleSpaced(s);
    var n := Normalize(s);
    var r := SanitizeSubject(s);
    assert r == n[..|r|];
    SingleSpacedSlice(n, 0, |r|);
    SingleSpacedSafe(r);
    assert r != [] ==> r[0] == n[0];
  }

  lemma NormalizedSingleSpaced(s: string)
    ensures SingleSpaced(Normalize(s))
    ensures Normalize(s) != [] ==> !IsWhitespace(Normalize(s)[0])
  {
    CollapsedSingleSpaced(CollapseRuns(s, IsLineBreak));
    TrimSingleSpaced(CollapseRuns(CollapseRuns(s, IsLineBreak), IsWhitespace));
  }

  lemma TrimSingleSpaced(c: string)
    requires SingleSpaced(c)
    ensures SingleSpaced(Trim(c))
  {
    SingleSpacedSlice(c, Lead(c), Lead(c) + |Trim(c)|);
  }

  lemma CollapsedSingleSpaced(s: string)
    ensures SingleSpaced(CollapseRuns(s, IsWhitespace))
  {
  }

  lemma SingleSpacedSafe(r: string)
    requires SingleSpaced(r)
    ensures '\r' !in r && '\n' !in r
    ensures forall i :: 0 <= i < |r| && IsWhitespace(r[i]) ==> r[i] == ' '
    ensures forall i :: 0 <= i < |r| - 1 ==> !(r[i] == ' ' && r[i + 1] == ' ')
  {
    assert IsWhitespace('\r') && IsWhitespace('\n') && IsWhitespace(' ');
  }

  /** A subject that is already clean comes back unchanged. */
  lemma SanitizeCleanSubject(s: string)
    requires IsCleanSubject(s)
    ensures SanitizeSubject(s) == s
  {
    CollapseRunsFixed(s, IsLineBreak);
    CollapseRunsFixed(s, IsWhitespace);
    TrimOfTrimmed(s);
  }

  /** Dropping a leading run of `p` loses no character outside `p`. */
  lemma {:induction false} DropRunKeepsOthers(s: string, p: char -> bool, q: char -> bool)
    requires forall c :: q(c) ==> !p(c)
    ensures Filter(DropRun(s, p), q) == Filter(s, q)
  {
    if s != [] && p(s[0]) {
      DropRunKeepsOthers(s[1..], p, q);
    }
  }

  /** Collapsing runs of `p` keeps every character that is neither in `p`
      nor a space, in order. */
  lemma {:induction false} CollapseKeepsOthers(s: string, p: char -> bool, q: char -> bool)
    requires forall c :: q(c) ==> !p(c) && c != ' '
    ensures Filter(CollapseRuns(s, p), q) == Filter(s, q)
    decreases |s|
  {
    if s != [] {
      var rest := if p(s[0]) then DropRun(s[1..], p) else s[1..];
      var r := CollapseRuns(s, p);
      assert r[1..] == CollapseRuns(rest, p);
      CollapseKeepsOthers(rest, p, q);
      if p(s[0]) {
        DropRunKeepsOthers(s[1..], p, q);
      }
    }
  }

  /** Normalising a subject keeps all of its text: every character that is
      not whitespace survives, in order. */
  lemma NormalizeKeepsText(s: string, q: char -> bool)
    requires forall c :: q(c) ==> !IsWhitespace(c)
    ensures Filter(Normalize(s), q) == Filter(s, q)
  {
    assert forall c :: q(c) ==> !IsLineBreak(c) && c != ' ';
    var once := CollapseRuns(s, IsLineBreak);
    CollapseKeepsOthers(s, IsLineBreak, q);
    CollapseKeepsOthers(once, IsWhitespace, q);
    FilterTrim(CollapseRuns(once, IsWhitespace), q);
  }

  /** Text with no `p`-character passes through collapsing unchanged. */
  lemma {:induction false} CollapsePlainPrefix(a: string, b: string, p: char -> bool)
    requires forall i :: 0 <= i < |a| ==> !p(a[i])
    ensures CollapseRuns(a + b, p) == a + CollapseRuns(b, p)
    decreases |a|
  {
    if a != [] {
      ConsConcat(a, b);
      CollapsePlainPrefix(a[1..], b, p);
    } else {
      assert a + b == b;
    }
  }

  /** A whole run of `p`-characters is dropped up to the next other one. */
  lemma {:induction false} DropRunPrefix(a: string, b: string, p: char -> bool)
    requires forall i :: 0 <= i < |a| ==> p(a[i])
    requires b == [] || !p(b[0])
    ensures DropRun(a + b, p) == b
    decreases |a|
  {
    if a != [] {
      ConsConcat(a, b);
      DropRunPrefix(a[1..], b, p);
    } else {
      assert a + b == b;
    }
  }

  /** A whole run of `p`-characters becomes one space. */
  lemma CollapseRunPrefix(a: string, b: string, p: char -> bool)
    requires a != [] && forall i :: 0 <= i < |a| ==> p(a[i])
    requires b == [] || !p(b[0])
    ensures CollapseRuns(a + b, p) == [' '] + CollapseRuns(b, p)
  {
    ConsConcat(a, b);
    DropRunPrefix(a[1..], b, p);
  }

  /** Two words around a run of `p`-characters collapse to the words with
      one space between them. */
  lemma CollapseTwoWords(a: string, sep: string, b: string, p: char -> bool)
    requires forall i :: 0 <= i < |a| ==> !p(a[i])
    requires forall i :: 0 <= i < |b| ==> !p(b[i])
    requires sep != [] && forall i :: 0 <= i < |sep| ==> p(sep[i])
    ensures CollapseRuns(a + sep + b, p) == a + [' '] + b
  {
    CollapsePlainPrefix(b, [], p);
    assert b + [] == b;
    CollapseRunPrefix(sep, b, p);
    CollapsePlainPrefix(a, sep + b, p);
    assert a + sep + b == a + (sep + b);
  }

  /** A run followed by a word: one space, then the word. */
  lemma CollapseStep(r: string, a: string, t: string, p: char -> bool)
    requires r != [] && forall i :: 0 <= i < |r| ==> p(r[i])
    requires a != [] && forall i :: 0 <= i < |a| ==> !p(a[i])
    ensures CollapseRuns(r + a + t, p) == [' '] + a + CollapseRuns(t, p)
  {
    CollapsePlainPrefix(a, t, p);
    ConsConcat(a, t);
    CollapseRunPrefix(r, a + t, p);
    assert r + a + t == r + (a + t);
  }

  /** A line break between two words becomes one space. */
  lemma LineBreakBecomesSpace()
    ensures SanitizeSubject("hello\r\nworld") == "hello world"
  {
    HelloWorldBreak();
    HelloWorldSpaced();
    TrimOfTrimmed("hello world");
  }

  lemma HelloWorldBreak()
    ensures CollapseRuns("hello\r\nworld", IsLineBreak) == "hello world"
  {
    var hello, world := "hello", "world";
    assert "hello\r\nworld" == hello + "\r\n" + world;
    assert "hello world" == hello + [' '] + world;
    CollapseTwoWords(hello, "\r\n", world, IsLineBreak);
  }

  lemma HelloWorldSpaced()
    ensures CollapseRuns("hello world", IsWhitespace) == "hello world"
  {
    var hello, world := "hello", "world";
    assert "hello world" == hello + " " + world;
    assert forall i :: 0 <= i < |hello| ==> !IsWhitespace(hello[i]);
    assert forall i :: 0 <= i < |world| ==> !IsWhitespace(world[i]);
    CollapseTwoWords(hello, " ", world, IsWhitespace);
  }

  /** Three words between runs of `p`-characters: each run becomes one
      space. */
  lemma CollapseThreeWords(r1: string, a: string, r2: string, b: string, r3: string, c: string, r4: string,
                           p: char -> bool)
    requires r1 != [] && forall i :: 0 <= i < |r1| ==> p(r1[i])
    requires r2 != [] && forall i :: 0 <= i < |r2| ==> p(r2[i])
    requires r3 != [] && forall i :: 0 <= i < |r3| ==> p(r3[i])
    requires r4 != [] && forall i :: 0 <= i < |r4| ==> p(r4[i])
    requires a != [] && forall i :: 0 <= i < |a| ==> !p(a[i])
    requires b != [] && forall i :: 0 <= i < |b| ==> !p(b[i])
    requires c != [] && forall i :: 0 <= i < |c| ==> !p(c[i])
    ensures CollapseRuns(r1 + a + (r2 + b + (r3 + c + r4)), p)
         == [' '] + a + ([' '] + b + ([' '] + c + [' ']))
  {
    CollapseRunPrefix(r4, [], p);
    assert r4 + [] == r4;
    CollapseStep(r3, c, r4, p);
    CollapseStep(r2, b, r3 + c + r4, p);
    CollapseStep(r1, a, r2 + b + (r3 + c + r4), p);
  }

  /** Surrounding whitespace goes and inner runs shrink to one space. */
  lemma SpacesCollapse()
    ensures SanitizeSubject("  a   b   c  ") == "a b c"
  {
    SpacesCollapseAt("  a   b   c  ");
  }

  lemma SpacesCollapseAt(s: string)
    requires s == "  a   b   c  "
    ensures SanitizeSubject(s) == "a b c"
  {
    var c := CollapseRuns(s, IsWhitespace);
    SpacedNoBreaks(s);
    SpacedWordsCollapse(s, c);
    SpacedTrim(c);
  }

  lemma SpacedTrim(c: string)
    requires c == " a b c "
    ensures Trim(c) == "a b c"
  {
    assert c == " " + "a b c" + " ";
    TrimAround(" ", "a b c", " ");
  }

  lemma SpacedNoBreaks(s: string)
    requires s == "  a   b   c  "
    ensures CollapseRuns(s, IsLineBreak) == s
  {
    assert s + [] == s;
    assert forall i :: 0 <= i < |s| ==> !IsLineBreak(s[i]);
    CollapsePlainPrefix(s, [], IsLineBreak);
  }

  lemma SpacedWordsCollapse(s: string, c: string)
    requires s == "  a   b   c  " && c == CollapseRuns(s, IsWhitespace)
    ensures c == " a b c "
  {
    SpacedPieces(s);
    SpacedRuns();
    CollapseThreeWords("  ", "a", "   ", "b", "   ", "c", "  ", IsWhitespace);
  }

  lemma SpacedPieces(s: string)
    requires s == "  a   b   c  "
    ensures s == "  " + "a" + ("   " + "b" + ("   " + "c" + "  "))
    ensures " a b c " == [' '] + "a" + ([' '] + "b" + ([' '] + "c" + [' ']))
  {
  }

  lemma SpacedRuns()
    ensures forall i :: 0 <= i < |"  "| ==> IsWhitespace("  "[i])
    ensures forall i :: 0 <= i < |"   "| ==> IsWhitespace("   "[i])
  {
  }

  /** The entity `escapeHtml` writes for one character. */
  function EscapeChar(c: char): string {
    match c
    case '&' => "&amp;"
    case '<' => "&lt;"
    case '>' => "&gt;"
    case '"' => "&quot;"
    case '\'' => "&#39;"
    case _ => [c]
  }

  /** `escapeHtml`: five global replacements, `&` first. */
  function EscapeHtml(s: string): string {
    ReplaceAll(ReplaceAll(ReplaceAll(ReplaceAll(ReplaceAll(
      s, '&', "&amp;"), '<', "&lt;"), '>', "&gt;"), '"', "&quot;"), '\'', "&#39;")
  }

  /** Escaping character by character. */
  function EscapeEach(s: string): string {
    if s == [] then [] else EscapeChar(s[0]) + EscapeEach(s[1..])
  }

  /** The characters that delimit tags and attribute values. */
  predicate IsMarkup(c: char) {
    c == '<' || c == '>' || c == '"' || c == '\''
  }

  /** Because `&` is replaced first, the entities the later replacements
      write are never escaped again: the chain of replacements escapes each
      character on its own. */
  lemma {:induction false} EscapeHtmlPerChar(s: string)
    ensures EscapeHtml(s) == EscapeEach(s)
  {
    if s != [] {
      var c, rest := s[0], s[1..];
      assert s == [c] + rest;
      ReplaceAllConcat([c], rest, '&', "&amp;");
      var s1, t1 := ReplaceAll([c], '&', "&amp;"), ReplaceAll(rest, '&', "&amp;");
      ReplaceAllConcat(s1, t1, '<', "&lt;");
      var s2, t2 := ReplaceAll(s1, '<', "&lt;"), ReplaceAll(t1, '<', "&lt;");
      ReplaceAllConcat(s2, t2, '>', "&gt;");
      var s3, t3 := ReplaceAll(s2, '>', "&gt;"), ReplaceAll(t2, '>', "&gt;");
      ReplaceAllConcat(s3, t3, '"', "&quot;");
      var s4, t4 := ReplaceAll(s3, '"', "&quot;"), ReplaceAll(t3, '"', "&quot;");
      ReplaceAllConcat(s4, t4, '\'', "&#39;");
      EscapeHtmlPerChar(rest);
      EscapeCharByChain(c);
    }
  }

  lemma ReplaceAllOne(x: char, c: char, rep: string)
    ensures ReplaceAll([x], c, rep) == if x == c then rep else [x]
  {
    assert [x][1..] == [];
  }

  /** One replacement of the chain applied to the text so far: `t` is
      either the character itself or an entity that holds no `x`. */
  lemma ChainStep(c: char, t: string, x: char, rep: string)
    requires t == [c] || x !in t
    ensures ReplaceAll(t, x, rep) == if t == [c] && c == x then rep else t
  {
    if t == [c] {
      ReplaceAllOne(c, x, rep);
    }
  }

  /** The chain of replacements applied to one character. */
  lemma EscapeCharByChain(c: char)
    ensures EscapeHtml([c]) == EscapeChar(c)
  {
    if c == '&' {
      EscapeAmpersand();
    } else if c == '<' || c == '>' || c == '"' || c == '\'' {
      EscapeMarkupChar(c);
    } else {
      assert '&' !in [c] && '<' !in [c] && '>' !in [c] && '"' !in [c] && '\'' !in [c];
    }
  }

  lemma EscapeAmpersand()
    ensures EscapeHtml("&") == "&amp;"
  {
    ReplaceAllOne('&', '&', "&amp;");
    assert '<' !in "&amp;" && '>' !in "&amp;" && '"' !in "&amp;" && '\'' !in "&amp;";
  }

  lemma EscapeMarkupChar(c: char)
    requires c == '<' || c == '>' || c == '"' || c == '\''
    ensures EscapeHtml([c]) == EscapeChar(c)
  {
    if c == '<' {
      EscapeLessThan();
    } else if c == '>' {
      EscapeGreaterThan();
    } else if c == '"' {
      EscapeQuote();
    } else {
      EscapeApostrophe();
    }
  }

  lemma EscapeLessThan()
    ensures EscapeHtml("<") == "&lt;"
  {
    assert '&' !in "<";
    ReplaceAllOne('<', '<', "&lt;");
    assert '>' !in "&lt;" && '"' !in "&lt;" && '\'' !in "&lt;";
  }

  lemma EscapeGreaterThan()
    ensures EscapeHtml(">") == "&gt;"
  {
    assert '&' !in ">" && '<' !in ">";
    ReplaceAllOne('>', '>', "&gt;");
    assert '"' !in "&gt;" && '\'' !in "&gt;";
  }

  lemma EscapeQuote()
    ensures EscapeHtml("\"") == "&quot;"
  {
    assert '&' !in "\"" && '<' !in "\"" && '>' !in "\"";
    ReplaceAllOne('"', '"', "&quot;");
    assert '\'' !in "&quot;";
  }

  lemma EscapeApostrophe()
    ensures EscapeHtml("'") == "&#39;"
  {
    assert '&' !in "'" && '<' !in "'" && '>' !in "'" && '"' !in "'";
    ReplaceAllOne('\'', '\'', "&#39;");
  }

  lemma {:induction false} EscapeEachConcat(a: string, b: string)
    ensures EscapeEach(a + b) == EscapeEach(a) + EscapeEach(b)
  {
    if a == [] {
      assert a + b == b;
    } else {
      assert (a + b)[0] == a[0];
      assert (a + b)[1..] == a[1..] + b;
      EscapeEachConcat(a[1..], b);
    }
  }

  /** Escaping a concatenation is concatenating the escapes. */
  lemma EscapeHtmlConcat(a: string, b: string)
    ensures EscapeHtml(a + b) == EscapeHtml(a) + EscapeHtml(b)
  {
    EscapeHtmlPerChar(a + b);
    EscapeHtmlPerChar(a);
    EscapeHtmlPerChar(b);
    EscapeEachConcat(a, b);
  }

  /** A string free of the five characters is not changed. */
  lemma {:induction false} EscapeHtmlPlain(s: string)
    requires forall i :: 0 <= i < |s| ==> s[i] !in "&<>\"'"
    ensures EscapeHtml(s) == s
  {
    EscapeHtmlPerChar(s);
    EscapeEachPlain(s);
  }

  lemma {:induction false} EscapeEachPlain(s: string)
    requires forall i :: 0 <= i < |s| ==> s[i] !in "&<>\"'"
    ensures EscapeEach(s) == s
  {
    if s != [] {
      assert s[0] !in "&<>\"'";
      EscapeEachPlain(s[1..]);
    }
  }

  /** Whether `t` begins with one of the five entities `escapeHtml` writes. */
  predicate StartsWithEntity(t: string) {
    "&amp;" <= t || "&lt;" <= t || "&gt;" <= t || "&quot;" <= t || "&#39;" <= t
  }

  /** The escaped text holds no markup character, and every `&` in it
      begins one of the five entities. */
  lemma EscapeHtmlSafe(s: string)
    ensures var r := EscapeHtml(s);
      && (forall i :: 0 <= i < |r| ==> !IsMarkup(r[i]))
      && AmpersandsOpenEntities(r)
  {
    EscapeHtmlPerChar(s);
    EscapeEachNoMarkup(s);
    EscapeEachEntities(s);
  }

  /** What one escaped character looks like: no markup, at most a leading
      `&`, and that one opens an entity. */
  lemma EscapeCharFacts(c: char)
    ensures var e := EscapeChar(c);
      && |e| >= 1
      && (forall i :: 0 <= i < |e| ==> !IsMarkup(e[i]))
      && (forall i :: 0 < i < |e| ==> e[i] != '&')
      && (e[0] == '&' ==> StartsWithEntity(e))
  {
  }

  lemma EntityExtends(e: string, rest: string)
    requires StartsWithEntity(e)
    ensures StartsWithEntity(e + rest)
  {
    assert forall i :: 0 <= i < |e| ==> (e + rest)[i] == e[i];
  }

  lemma {:induction false} EscapeEachNoMarkup(s: string)
    ensures forall i :: 0 <= i < |EscapeEach(s)| ==> !IsMarkup(EscapeEach(s)[i])
  {
    if s != [] {
      EscapeEachNoMarkup(s[1..]);
      EscapeCharFacts(s[0]);
      var e, rest := EscapeChar(s[0]), EscapeEach(s[1..]);
      assert EscapeEach(s) == e + rest;
    }
  }

  /** Every `&` in `r` opens one of the five entities. */
  ghost predicate AmpersandsOpenEntities(r: string) {
    forall i :: 0 <= i < |r| && r[i] == '&' ==> StartsWithEntity(r[i..])
  }

  lemma {:induction false} EscapeEachEntities(s: string)
    ensures AmpersandsOpenEntities(EscapeEach(s))
  {
    if s != [] {
      EscapeEachEntities(s[1..]);
      EscapeCharFacts(s[0]);
      var e, rest := EscapeChar(s[0]), EscapeEach(s[1..]);
      var r := e + rest;
      assert r == EscapeEach(s);
      forall i | 0 <= i < |r| && r[i] == '&'
        ensures StartsWithEntity(r[i..])
      {
        if i < |e| {
          assert r[i] == e[i];
          assert i == 0 && r[i..] == e + rest;
          EntityExtends(e, rest);
        } else {
          var j := i - |e|;
          assert r[i] == rest[j] == '&';
          assert StartsWithEntity(rest[j..]);
          assert r[i..] == rest[j..];
        }
      }
    }
  }

  /** Decoding of the five entities; any other character stands for itself. */
  function UnescapeHtml(t: string): string
    decreases |t|
  {
    if t == [] then []
    else if "&amp;" <= t then "&" + UnescapeHtml(t[5..])
    else if "&lt;" <= t then "<" + UnescapeHtml(t[4..])
    else if "&gt;" <= t then ">" + UnescapeHtml(t[4..])
    else if "&quot;" <= t then "\"" + UnescapeHtml(t[6..])
    else if "&#39;" <= t then "'" + UnescapeHtml(t[5..])
    else [t[0]] + UnescapeHtml(t[1..])
  }

  /** Escaping loses nothing: decoding the entities gives the text back. */
  lemma EscapeHtmlRoundTrip(s: string)
    ensures UnescapeHtml(EscapeHtml(s)) == s
  {
    EscapeHtmlPerChar(s);
    EscapeEachRoundTrip(s);
  }

  /** Decoding an escaped character and then the rest. */
  lemma UnescapeEntity(c: char, rest: string)
    ensures UnescapeHtml(EscapeChar(c) + rest) == [c] + UnescapeHtml(rest)
  {
    match c
    case '&' => UnescapeOne("&amp;", rest);
    case '<' => UnescapeOne("&lt;", rest);
    case '>' => UnescapeOne("&gt;", rest);
    case '"' => UnescapeOne("&quot;", rest);
    case '\'' => UnescapeOne("&#39;", rest);
    case _ => UnescapePlain(c, rest);
  }

  /** One entity at the front is decoded and the rest follows. */
  lemma UnescapeOne(entity: string, rest: string)
    requires entity in ["&amp;", "&lt;", "&gt;", "&quot;", "&#39;"]
    ensures UnescapeHtml(entity + rest) == [Decoded(entity)] + UnescapeHtml(rest)
  {
    var t := entity + rest;
    assert t[..|entity|] == entity && t[|entity|..] == rest;
    assert t[1] == entity[1];
  }

  /** The character an entity stands for. */
  function Decoded(entity: string): char {
    if entity == "&amp;" then '&'
    else if entity == "&lt;" then '<'
    else if entity == "&gt;" then '>'
    else if entity == "&quot;" then '"'
    else '\''
  }

  /** A character other than `&` is copied as it is. */
  lemma UnescapePlain(c: char, rest: string)
    requires c != '&'
    ensures UnescapeHtml([c] + rest) == [c] + UnescapeHtml(rest)
  {
    var t := [c] + rest;
    assert t[0] == c && t[1..] == rest;
  }

  lemma {:induction false} EscapeEachRoundTrip(s: string)
    ensures UnescapeHtml(EscapeEach(s)) == s
  {
    if s != [] {
      EscapeEachRoundTrip(s[1..]);
      UnescapeEntity(s[0], EscapeEach(s[1..]));
      assert s == [s[0]] + s[1..];
    }
  }

  /** A subject and an HTML body, as returned by both formatters. */
  datatype Email = Email(subject: string, html: string)

  /** The whitespace a template line starts with in the source. */
  const INDENT: string := "\n      "
  /** The whitespace before the closing back-quote of a template. */
  const OUTDENT: string := "\n    "

  /** `${x ? `<p><strong>Label:</strong> ${escapeHtml(x)}</p>` : ''}`
      split into the literal text before and after the value: both are
      empty when the field is absent. */
  function OptOpen(present: bool, caption: string): string {
    if present then "<p><strong>" + caption + ":</strong> " else ""
  }
  function OptClose(present: bool): string {
    if present then "</p>" else ""
  }

  /** The literal text of the contact template, between its interpolated
      values, given which optional lines are present. */
  function ContactLits(projectType: bool, budget: bool, timeline: bool): (lits: seq<string>)
    ensures |lits| == 11
  {
    [ "<h2>New contact form submission</h2>" + INDENT + "<p><strong>Name:</strong> ",
      "</p>" + INDENT + "<p><strong>Email:</strong> <a href=\"mailto:",
      "\">",
      "</a></p>" + INDENT + "<p><strong>Phone:</strong> ",
      "</p>" + INDENT + "<p><strong>Preferred contact:</strong> ",
      "</p>" + INDENT + "<p><strong>Service:</strong> ",
      "</p>" + INDENT + OptOpen(projectType, "Project type"),
      OptClose(projectType) + INDENT + OptOpen(budget, "Budget"),
      OptClose(budget) + INDENT + OptOpen(timeline, "Timeline"),
      OptClose(timeline) + INDENT + "<p><strong>Message:</strong></p>" + INDENT
        + "<pre style=\"white-space:pre-wrap;font-family:inherit;\">",
      "</pre>" ]
  }

  /** The literal text of the review template, between its values. */
  function ReviewLits(): (lits: seq<string>)
    ensures |lits| == 5
  {
    [ "<h2>New review</h2>" + INDENT + "<p><strong>Name:</strong> ",
      "</p>" + INDENT + "<p><strong>Service:</strong> ",
      "</p>" + INDENT + "<p><strong>Rating:</strong> ",
      "/5</p>" + INDENT + "<p><strong>Review:</strong></p>" + INDENT
        + "<pre style=\"white-space:pre-wrap;font-family:inherit;\">",
      "</pre>" ]
  }

  /** `record.x ? String(record.x) : ''` */
  function OptText(v: JsValue): (r: string)
    ensures r != "" <==> Truthy(v)
  {
    if Truthy(v) then ToStr(v) else ""
  }

  /** The interpolated values of the contact template, in order. */
  function ContactHoles(name: string, rec: JsRecord, esc: string -> string): (holes: seq<string>)
    ensures |holes| == 10
  {
    var email := TextOf(Get(rec, "email"));
    var pt := OptText(Get(rec, "project_type"));
    var budget := OptText(Get(rec, "budget"));
    var timeline := OptText(Get(rec, "timeline"));
    [ esc(name), esc(email), esc(email), esc(TextOf(Get(rec, "phone"))),
      esc(TextOf(Get(rec, "preferred_contact"))), esc(TextOf(Get(rec, "service"))),
      if pt != "" then esc(pt) else "",
      if budget != "" then esc(budget) else "",
      if timeline != "" then esc(timeline) else "",
      esc(TextOf(Get(rec, "message"))) ]
  }

  /** The contact template's literal text for the optional fields `rec` has. */
  function ContactLitsFor(rec: JsRecord): (lits: seq<string>)
    ensures |lits| == 11
  {
    ContactLits(Truthy(Get(rec, "project_type")), Truthy(Get(rec, "budget")),
                Truthy(Get(rec, "timeline")))
  }

  /** The contact template: `name` as the formatter passes it (sanitised
      here, raw in the webhook copy) and `esc` the escaping function used. */
  function ContactEmailWith(name: string, rec: JsRecord, esc: string -> string): Email {
    Email("[JEN Site] New contact: " + name,
          Trim(INDENT + Fill(ContactLitsFor(rec), ContactHoles(name, rec, esc)) + OUTDENT))
  }

  /** The interpolated values of the review template, in order. */
  function ReviewHoles(name: string, rec: JsRecord, esc: string -> string): (holes: seq<string>)
    ensures |holes| == 4
  {
    [ esc(name), esc(TextOf(Get(rec, "service"))),
      NumberText(ToNumber(Coalesce(Get(rec, "rating"), Num(0)))),
      esc(TextOf(Get(rec, "text"))) ]
  }

  /** The review template, parameterised as `ContactEmailWith` is. */
  function ReviewEmailWith(name: string, rec: JsRecord, esc: string -> string): Email {
    Email("[JEN Site] New review from " + name,
          Trim(INDENT + Fill(ReviewLits(), ReviewHoles(name, rec, esc)) + OUTDENT))
  }

  /** `formatContactEmail`. */
  function FormatContactEmail(rec: JsRecord): (e: Email)
    ensures e.subject == "[JEN Site] New contact: " + SanitizeSubject(TextOf(Get(rec, "name")))
  {
    ContactEmailWith(SanitizeSubject(TextOf(Get(rec, "name"))), rec, EscapeHtml)
  }

  /** `formatReviewEmail`. */
  function FormatReviewEmail(rec: JsRecord): (e: Email)
    ensures e.subject == "[JEN Site] New review from " + SanitizeSubject(TextOf(Get(rec, "name")))
  {
    ReviewEmailWith(SanitizeSubject(TextOf(Get(rec, "name"))), rec, EscapeHtml)
  }

  lemma IndentIsWhitespace()
    ensures forall i :: 0 <= i < |INDENT| ==> IsWhitespace(INDENT[i])
    ensures forall i :: 0 <= i < |OUTDENT| ==> IsWhitespace(OUTDENT[i])
  {
  }

  /** `.trim()` only removes the indentation around the template: the body
      is exactly the literals and values, from the opening `<h2>` to the
      closing `</pre>`. */
  lemma TrimmedTemplate(lits: seq<string>, holes: seq<string>)
    requires |lits| == |holes| + 1
    requires lits[0] != [] && lits[0][0] == '<'
    requires lits[|lits| - 1] == "</pre>"
    ensures Trim(INDENT + Fill(lits, holes) + OUTDENT) == Fill(lits, holes)
  {
    FillStart(lits, holes);
    FillEnd(lits, holes);
    IndentIsWhitespace();
    TrimAround(INDENT, Fill(lits, holes), OUTDENT);
  }

  lemma ContactHtmlIsTemplate(name: string, rec: JsRecord, esc: string -> string)
    ensures ContactEmailWith(name, rec, esc).html == Fill(ContactLitsFor(rec), ContactHoles(name, rec, esc))
  {
    TrimmedTemplate(ContactLitsFor(rec), ContactHoles(name, rec, esc));
  }

  lemma ReviewHtmlIsTemplate(name: string, rec: JsRecord, esc: string -> string)
    ensures ReviewEmailWith(name, rec, esc).html == Fill(ReviewLits(), ReviewHoles(name, rec, esc))
  {
    TrimmedTemplate(ReviewLits(), ReviewHoles(name, rec, esc));
  }

  /** An escaped value carries no markup character. */
  lemma EscapedHasNoMarkup(s: string)
    ensures Filter(EscapeHtml(s), IsMarkup) == []
  {
    EscapeHtmlSafe(s);
    FilterNone(EscapeHtml(s), IsMarkup);
  }

  /** Two fillings of one template whose values carry no character of the
      class `p` have the same `p`-characters, also after `.trim()`. */
  lemma TemplateClassFixed(lits: seq<string>, h1: seq<string>, h2: seq<string>, p: char -> bool)
    requires |lits| == |h1| + 1 == |h2| + 1
    requires lits[0] != [] && lits[0][0] == '<'
    requires lits[|lits| - 1] == "</pre>"
    requires NoneIn(h1, p) && NoneIn(h2, p)
    ensures Filter(Trim(INDENT + Fill(lits, h1) + OUTDENT), p)
         == Filter(Trim(INDENT + Fill(lits, h2) + OUTDENT), p)
  {
    TrimmedTemplate(lits, h1);
    TrimmedTemplate(lits, h2);
    FillFilterLits(lits, h1, p);
    FillFilterLits(lits, h2, p);
  }

  lemma ContactLitsShape(rec: JsRecord)
    ensures ContactLitsFor(rec)[0] != [] && ContactLitsFor(rec)[0][0] == '<'
    ensures ContactLitsFor(rec)[10] == "</pre>"
  {
  }

  lemma ReviewLitsShape()
    ensures ReviewLits()[0] != [] && ReviewLits()[0][0] == '<'
    ensures ReviewLits()[4] == "</pre>"
  {
  }

  lemma NumberTextNoMarkup(n: Number)
    ensures Filter(NumberText(n), IsMarkup) == []
  {
    FilterNone(NumberText(n), IsMarkup);
  }

  /** An optional line's value carries no markup character. */
  lemma OptionalNoMarkup(v: JsValue)
    ensures Filter(if OptText(v) != "" then EscapeHtml(OptText(v)) else "", IsMarkup) == []
  {
    EscapedHasNoMarkup(OptText(v));
  }

  /** No value of a template carries a character of the class `p`. */
  ghost predicate NoneIn(holes: seq<string>, p: char -> bool) {
    forall i :: 0 <= i < |holes| ==> Filter(holes[i], p) == []
  }

  lemma NoneIn4(a: string, b: string, c: string, d: string, p: char -> bool)
    requires Filter(a, p) == [] && Filter(b, p) == []
    requires Filter(c, p) == [] && Filter(d, p) == []
    ensures NoneIn([a, b, c, d], p)
  {
  }

  lemma NoneIn10(a: string, b: string, c: string, d: string, e: string,
                 f: string, g: string, h: string, i: string, j: string, p: char -> bool)
    requires Filter(a, p) == [] && Filter(b, p) == []
    requires Filter(c, p) == [] && Filter(d, p) == []
    requires Filter(e, p) == [] && Filter(f, p) == []
    requires Filter(g, p) == [] && Filter(h, p) == []
    requires Filter(i, p) == [] && Filter(j, p) == []
    ensures NoneIn([a, b, c, d, e, f, g, h, i, j], p)
  {
  }

  /** The escaped values of the contact e-mail carry no markup character. */
  lemma ContactHolesNoMarkup(name: string, rec: JsRecord)
    ensures NoneIn(ContactHoles(name, rec, EscapeHtml), IsMarkup)
  {
    var email := TextOf(Get(rec, "email"));
    var pt := OptText(Get(rec, "project_type"));
    var budget := OptText(Get(rec, "budget"));
    var timeline := OptText(Get(rec, "timeline"));
    var phone, pc := TextOf(Get(rec, "phone")), TextOf(Get(rec, "preferred_contact"));
    var service, message := TextOf(Get(rec, "service")), TextOf(Get(rec, "message"));
    EscapedHasNoMarkup(name);
    EscapedHasNoMarkup(email);
    EscapedHasNoMarkup(phone);
    EscapedHasNoMarkup(pc);
    EscapedHasNoMarkup(service);
    OptionalNoMarkup(Get(rec, "project_type"));
    OptionalNoMarkup(Get(rec, "budget"));
    OptionalNoMarkup(Get(rec, "timeline"));
    EscapedHasNoMarkup(message);
    NoneIn10(EscapeHtml(name), EscapeHtml(email), EscapeHtml(email), EscapeHtml(phone),
      EscapeHtml(pc), EscapeHtml(service),
      if pt != "" then EscapeHtml(pt) else "",
      if budget != "" then EscapeHtml(budget) else "",
      if timeline != "" then EscapeHtml(timeline) else "",
      EscapeHtml(message), IsMarkup);
  }

  /** The escaped values of the review e-mail carry no markup character. */
  lemma ReviewHolesNoMarkup(name: string, rec: JsRecord)
    ensures NoneIn(ReviewHoles(name, rec, EscapeHtml), IsMarkup)
  {
    var service, text := TextOf(Get(rec, "service")), TextOf(Get(rec, "text"));
    var rating := ToNumber(Coalesce(Get(rec, "rating"), Num(0)));
    EscapedHasNoMarkup(name);
    EscapedHasNoMarkup(service);
    EscapedHasNoMarkup(text);
    NumberTextNoMarkup(rating);
    NoneIn4(EscapeHtml(name), EscapeHtml(service), NumberText(rating), EscapeHtml(text), IsMarkup);
  }

  /** The markup of the contact e-mail is the template's own: two
      submissions with the same optional fields present produce e-mails with
      the same tags and attribute quotes, whatever the fields hold. */
  lemma ContactMarkupIndependent(r1: JsRecord, r2: JsRecord)
    requires Truthy(Get(r1, "project_type")) == Truthy(Get(r2, "project_type"))
    requires Truthy(Get(r1, "budget")) == Truthy(Get(r2, "budget"))
    requires Truthy(Get(r1, "timeline")) == Truthy(Get(r2, "timeline"))
    ensures Filter(FormatContactEmail(r1).html, IsMarkup) == Filter(FormatContactEmail(r2).html, IsMarkup)
  {
    var n1, n2 := SanitizeSubject(TextOf(Get(r1, "name"))), SanitizeSubject(TextOf(Get(r2, "name")));
    SameOptionalLits(r1, r2);
    ContactMarkupFixed(n1, n2, r1, r2);
  }

  /** The same optional fields present select the same literals. */
  lemma SameOptionalLits(r1: JsRecord, r2: JsRecord)
    requires Truthy(Get(r1, "project_type")) == Truthy(Get(r2, "project_type"))
    requires Truthy(Get(r1, "budget")) == Truthy(Get(r2, "budget"))
    requires Truthy(Get(r1, "timeline")) == Truthy(Get(r2, "timeline"))
    ensures ContactLitsFor(r1) == ContactLitsFor(r2)
  {
  }

  lemma ContactMarkupFixed(n1: string, n2: string, r1: JsRecord, r2: JsRecord)
    requires ContactLitsFor(r1) == ContactLitsFor(r2)
    ensures Filter(ContactEmailWith(n1, r1, EscapeHtml).html, IsMarkup)
         == Filter(ContactEmailWith(n2, r2, EscapeHtml).html, IsMarkup)
  {
    ContactLitsShape(r1);
    ContactHolesNoMarkup(n1, r1);
    ContactHolesNoMarkup(n2, r2);
    TemplateClassFixed(ContactLitsFor(r1), ContactHoles(n1, r1, EscapeHtml), ContactHoles(n2, r2, EscapeHtml), IsMarkup);
  }

  /** Every review e-mail has the same markup, whatever the review holds. */
  lemma ReviewMarkupIndependent(r1: JsRecord, r2: JsRecord)
    ensures Filter(FormatReviewEmail(r1).html, IsMarkup) == Filter(FormatReviewEmail(r2).html, IsMarkup)
  {
    var n1, n2 := SanitizeSubject(TextOf(Get(r1, "name"))), SanitizeSubject(TextOf(Get(r2, "name")));
    ReviewLitsShape();
    ReviewHolesNoMarkup(n1, r1);
    ReviewHolesNoMarkup(n2, r2);
    TemplateClassFixed(ReviewLits(), ReviewHoles(n1, r1, EscapeHtml), ReviewHoles(n2, r2, EscapeHtml), IsMarkup);
  }

  /** The message is shown escaped inside the `<pre>` block, and decoding
      it gives back what was submitted. */
  lemma ContactShowsMessage(rec: JsRecord)
    ensures Contains(FormatContactEmail(rec).html, EscapeHtml(TextOf(Get(rec, "message"))) + "</pre>")
    ensures UnescapeHtml(EscapeHtml(TextOf(Get(rec, "message")))) == TextOf(Get(rec, "message"))
  {
    var name := SanitizeSubject(TextOf(Get(rec, "name")));
    ContactHtmlIsTemplate(name, rec, EscapeHtml);
    FillShowsHole(ContactLitsFor(rec), ContactHoles(name, rec, EscapeHtml), 9);
    EscapeHtmlRoundTrip(TextOf(Get(rec, "message")));
  }

  /** A value followed by the start of the literal after it appears in the
      template. */
  lemma HoleBeforeLiteral(lits: seq<string>, holes: seq<string>, k: nat, start: string)
    requires |lits| == |holes| + 1 && k < |holes|
    requires start <= lits[k + 1]
    ensures Contains(Fill(lits, holes), holes[k] + start)
  {
    FillShowsHole(lits, holes, k);
    var tail := lits[k + 1][|start|..];
    assert lits[k + 1] == start + tail;
    assert holes[k] + lits[k + 1] == (holes[k] + start) + tail;
    ContainsPrefix(Fill(lits, holes), holes[k] + start, tail);
  }

  lemma ReviewRatingLiteral()
    ensures "/5" <= ReviewLits()[3]
  {
  }

  /** The rating is shown out of five: `Number(record.rating ?? 0)` then
      `/5`. */
  lemma ReviewShowsRating(rec: JsRecord)
    ensures Contains(FormatReviewEmail(rec).html,
                     NumberText(ToNumber(Coalesce(Get(rec, "rating"), Num(0)))) + "/5")
  {
    var name := SanitizeSubject(TextOf(Get(rec, "name")));
    ReviewHtmlIsTemplate(name, rec, EscapeHtml);
    RatingBeforeOutOfFive(name, rec);
  }

  lemma RatingBeforeOutOfFive(name: string, rec: JsRecord)
    ensures Contains(Fill(ReviewLits(), ReviewHoles(name, rec, EscapeHtml)),
                     NumberText(ToNumber(Coalesce(Get(rec, "rating"), Num(0)))) + "/5")
  {
    var holes := ReviewHoles(name, rec, EscapeHtml);
    assert holes[2] == NumberText(ToNumber(Coalesce(Get(rec, "rating"), Num(0))));
    ReviewRatingLiteral();
    HoleBeforeLiteral(ReviewLits(), holes, 2, "/5");
  }

  /** A fixed prefix followed by a sanitised value has no line break. */
  lemma PrefixedSubject(prefix: string, s: string)
    requires '\r' !in prefix && '\n' !in prefix
    ensures '\r' !in prefix + SanitizeSubject(s) && '\n' !in prefix + SanitizeSubject(s)
  {
    SanitizedIsSafe(s);
  }

  /** The subjects carry no line break, so they cannot end the header. */
  lemma SubjectsHaveNoLineBreak(rec: JsRecord)
    ensures '\r' !in FormatContactEmail(rec).subject && '\n' !in FormatContactEmail(rec).subject
    ensures '\r' !in FormatReviewEmail(rec).subject && '\n' !in FormatReviewEmail(rec).subject
  {
    ContactSubjectSafe(rec);
    ReviewSubjectSafe(rec);
  }

  lemma ContactSubjectSafe(rec: JsRecord)
    ensures '\r' !in FormatContactEmail(rec).subject && '\n' !in FormatContactEmail(rec).subject
  {
    var prefix := "[JEN Site] New contact: ";
    assert '\r' !in prefix && '\n' !in prefix;
    PrefixedSubject(prefix, TextOf(Get(rec, "name")));
  }

  lemma ReviewSubjectSafe(rec: JsRecord)
    ensures '\r' !in FormatReviewEmail(rec).subject && '\n' !in FormatReviewEmail(rec).subject
  {
    var prefix := "[JEN Site] New review from ";
    assert '\r' !in prefix && '\n' !in prefix;
    PrefixedSubject(prefix, TextOf(Get(rec, "name")));
  }
}
