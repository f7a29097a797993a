/** String operations the site uses from JavaScript's `String.prototype`
    (`trim`, `slice`, `split`, `includes`, `replace`, `toLowerCase`) and the
    character classes of its regular expressions, written out over
    `seq<char>`. One `char` stands for one JavaScript string element. */
module Text {
  import opened Wrappers

  /** JavaScript's `\s` class, which is also the set `trim()` removes:
      TAB, LF, VT, FF, CR, SPACE, NBSP, OGHAM SPACE MARK, U+2000..U+200A,
      LINE/PARAGRAPH SEPARATOR, NNBSP, MMSP, IDEOGRAPHIC SPACE and the BOM. */
  predicate IsWhitespace(c: char) {
    var n := c as int;
    (9 <= n <= 13) || n == 32 || n == 0xA0 || n == 0x1680 || (0x2000 <= n <= 0x200A)
    || n == 0x2028 || n == 0x2029 || n == 0x202F || n == 0x205F || n == 0x3000 || n == 0xFEFF
  }

  /** JavaScript's `\d`: the ASCII digits only. */
  predicate IsDigit(c: char) {
    '0' <= c <= '9'
  }

  /** Every character of `s` satisfies `p`. */
  ghost predicate All(s: string, p: char -> bool) {
    forall i :: 0 <= i < |s| ==> p(s[i])
  }

  /** `s` with its leading whitespace removed. */
  function TrimStart(s: string): (r: string)
    ensures |r| <= |s| && r == s[|s| - |r|..]
    ensures forall i :: 0 <= i < |s| - |r| ==> IsWhitespace(s[i])
    ensures r != [] ==> !IsWhitespace(r[0])
  {
    if s != [] && IsWhitespace(s[0]) then TrimStart(s[1..]) else s
  }

  /** `s` with its trailing whitespace removed. */
  function TrimEnd(s: string): (r: string)
    ensures |r| <= |s| && r == s[..|r|]
    ensures forall i :: |r| <= i < |s| ==> IsWhitespace(s[i])
    ensures r != [] ==> !IsWhitespace(r[|r| - 1])
  {
    if s != [] && IsWhitespace(s[|s| - 1]) then TrimEnd(s[..|s| - 1]) else s
  }

  /** JavaScript's `s.trim()`. The result is the infix of `s` that starts
      `Lead(s)` characters in; everything around it is whitespace and its own
      first and last characters are not. */
  function Trim(s: string): (r: string)
    ensures Lead(s) + |r| <= |s| && r == s[Lead(s)..Lead(s) + |r|]
    ensures forall i :: 0 <= i < Lead(s) ==> IsWhitespace(s[i])
    ensures forall i :: Lead(s) + |r| <= i < |s| ==> IsWhitespace(s[i])
    ensures r != [] ==> !IsWhitespace(r[0]) && !IsWhitespace(r[|r| - 1])
  {
    TrimEnd(TrimStart(s))
  }

  /** How many characters `trim()` removes from the front of `s`. */
  function Lead(s: string): nat {
    |s| - |TrimStart(s)|
  }

  /** JavaScript's `!s.trim()`: nothing is left after trimming. */
  predicate IsBlank(s: string) {
    Trim(s) == []
  }

  lemma BlankIffAllWhitespace(s: string)
    ensures IsBlank(s) <==> forall i :: 0 <= i < |s| ==> IsWhitespace(s[i])
  {
    if !IsBlank(s) {
      var r := Trim(s);
      assert s[Lead(s)] == r[0];
    }
  }

  /** A string that neither starts nor ends with whitespace is its own trim. */
  lemma {:induction false} TrimOfTrimmed(s: string)
    requires s != [] ==> !IsWhitespace(s[0]) && !IsWhitespace(s[|s| - 1])
    ensures Trim(s) == s
  {
  }

  /** Trimming `pre + b + post` where `pre` and `post` are all whitespace and
      `b` neither starts nor ends with whitespace gives `b` back. */
  lemma {:induction false} TrimAround(pre: string, b: string, post: string)
    requires forall i :: 0 <= i < |pre| ==> IsWhitespace(pre[i])
    requires forall i :: 0 <= i < |post| ==> IsWhitespace(post[i])
    requires b != [] && !IsWhitespace(b[0]) && !IsWhitespace(b[|b| - 1])
    ensures Trim(pre + b + post) == b
  {
    var s := pre + b + post;
    var r := Trim(s);
    var l := Lead(s);
    assert forall i :: 0 <= i < |pre| ==> s[i] == pre[i];
    assert forall i :: 0 <= i < |post| ==> s[|pre| + |b| + i] == post[i];
    assert s[|pre|] == b[0] && s[|pre| + |b| - 1] == b[|b| - 1];
    assert l <= |pre| && |pre| + |b| <= l + |r|;
    assert r[0] == s[l] && r[|r| - 1] == s[l + |r| - 1];
    assert l == |pre| && |r| == |b|;
    assert s[|pre|..|pre| + |b|] == b;
  }

  /** JavaScript's `s.slice(0, n)`: the first `n` characters, or all of `s`. */
  function Take(s: string, n: nat): (r: string)
    ensures r <= s
    ensures |r| == if |s| <= n then |s| else n
  {
    if |s| <= n then s else s[..n]
  }

  /** Position of the first `c` in `s`, if any (`s.indexOf(c)`). */
  function IndexOf(s: string, c: char): (r: Option<nat>)
    ensures r.None? <==> c !in s
    ensures r.Some? ==> r.value < |s| && s[r.value] == c && c !in s[..r.value]
  {
    if s == [] then None
    else if s[0] == c then Some(0)
    else match IndexOf(s[1..], c)
      case None => None
      case Some(k) => Some(k + 1)
  }

  /** A `c` with none before it is the one `IndexOf` finds. */
  lemma {:induction false} IndexOfFirst(s: string, c: char, k: nat)
    requires k < |s| && s[k] == c && c !in s[..k]
    ensures IndexOf(s, c) == Some(k)
  {
    if k > 0 {
      assert s[0] == s[..k][0];
      assert s[1..][..k - 1] == s[1..k];
      assert s[1..k] == s[..k][1..];
      IndexOfFirst(s[1..], c, k - 1);
    }
  }

  /** JavaScript's `s.split(c)[0]`: everything before the first `c`. */
  function Before(s: string, c: char): (r: string)
    ensures r <= s && c !in r
    ensures |r| < |s| ==> s[|r|] == c
  {
    match IndexOf(s, c)
    case None => s
    case Some(k) => s[..k]
  }

  /** JavaScript's `s.split(c)` for a one-character separator. */
  function Split(s: string, c: char): (parts: seq<string>)
    ensures |parts| >= 1
    ensures forall i :: 0 <= i < |parts| ==> c !in parts[i]
    decreases |s|
  {
    match IndexOf(s, c)
    case None => [s]
    case Some(k) => [s[..k]] + Split(s[k + 1..], c)
  }

  /** JavaScript's `parts.join(sep)`. */
  function Join(parts: seq<string>, sep: string): string {
    if |parts| == 0 then ""
    else if |parts| == 1 then parts[0]
    else parts[0] + sep + Join(parts[1..], sep)
  }

  /** Joining the pieces of a split with the separator gives the string back. */
  lemma {:induction false} JoinSplit(s: string, c: char)
    ensures Join(Split(s, c), [c]) == s
    decreases |s|
  {
    match IndexOf(s, c)
    case None =>
    case Some(k) =>
      JoinSplit(s[k + 1..], c);
      JoinCons(s[..k], Split(s[k + 1..], c), [c]);
      SplitAround(s, k);
  }

  lemma JoinCons(head: string, tail: seq<string>, sep: string)
    requires |tail| >= 1
    ensures Join([head] + tail, sep) == head + sep + Join(tail, sep)
  {
    assert ([head] + tail)[1..] == tail;
  }

  lemma SplitAround(s: string, k: nat)
    requires k < |s|
    ensures s == s[..k] + [s[k]] + s[k + 1..]
  {
    assert s[k..] == [s[k]] + s[k + 1..];
    assert s == s[..k] + s[k..];
  }

  /** JavaScript's `s.includes(sub)`. */
  predicate Contains(s: string, sub: string)
    decreases |s|
  {
    sub <= s || (s != [] && Contains(s[1..], sub))
  }

  lemma {:induction false} ContainsAt(s: string, sub: string, i: nat)
    requires i + |sub| <= |s| && s[i..i + |sub|] == sub
    ensures Contains(s, sub)
  {
    if i > 0 {
      assert s[1..][i - 1..i - 1 + |sub|] == sub;
      ContainsAt(s[1..], sub, i - 1);
    }
  }

  /** ASCII lower-casing of one character. */
  function LowerChar(c: char): char {
    if 'A' <= c <= 'Z' then (c as int + 32) as char else c
  }

  /** ASCII upper-casing of one character. */
  function UpperChar(c: char): char {
    if 'a' <= c <= 'z' then (c as int - 32) as char else c
  }

  /** JavaScript's `s.toLowerCase()` on the ASCII letters. */
  function ToLower(s: string): (r: string)
    ensures |r| == |s|
    ensures forall i :: 0 <= i < |s| ==> r[i] == LowerChar(s[i])
  {
    if s == [] then [] else [LowerChar(s[0])] + ToLower(s[1..])
  }

  /** JavaScript's `s.replace(from, to)` with a one-character pattern: only the
      first occurrence is replaced. */
  function ReplaceFirst(s: string, from: char, to: char): (r: string)
    ensures |r| == |s|
    ensures from !in s ==> r == s
    ensures from in s ==> var k := IndexOf(s, from).value;
      r == s[..k] + [to] + s[k + 1..]
  {
    match IndexOf(s, from)
    case None => s
    case Some(k) => s[..k] + [to] + s[k + 1..]
  }

  /** The characters of `s` that satisfy `p`, in order. */
  function Filter(s: string, p: char -> bool): (r: string)
    ensures |r| <= |s|
    ensures forall i :: 0 <= i < |r| ==> p(r[i])
  {
    if s == [] then [] else (if p(s[0]) then [s[0]] else []) + Filter(s[1..], p)
  }

  lemma {:induction false} FilterConcat(a: string, b: string, p: char -> bool)
    ensures Filter(a + b, p) == Filter(a, p) + Filter(b, p)
  {
    if a == [] {
      assert a + b == b;
    } else {
      var head := if p(a[0]) then [a[0]] else [];
      assert (a + b)[0] == a[0];
      assert (a + b)[1..] == a[1..] + b;
      assert Filter(a + b, p) == head + Filter(a[1..] + b, p);
      FilterConcat(a[1..], b, p);
      assert Filter(a, p) == head + Filter(a[1..], p);
    }
  }

  lemma {:induction false} FilterNone(s: string, p: char -> bool)
    requires forall i :: 0 <= i < |s| ==> !p(s[i])
    ensures Filter(s, p) == []
  {
    if s != [] {
      FilterNone(s[1..], p);
    }
  }

  /** Filtering keeps a string whole exactly when every character passes. */
  lemma {:induction false} FilterAll(s: string, p: char -> bool)
    ensures Filter(s, p) == s <==> forall i :: 0 <= i < |s| ==> p(s[i])
  {
    if s != [] {
      FilterAll(s[1..], p);
      if p(s[0]) {
        assert Filter(s, p) == [s[0]] + Filter(s[1..], p);
        assert s == [s[0]] + s[1..];
        assert (forall i :: 0 <= i < |s| ==> p(s[i])) <==> (forall i :: 0 <= i < |s| - 1 ==> p(s[1..][i]));
      } else {
        assert |Filter(s, p)| < |s|;
      }
    }
  }

  /** Dropping whitespace on both sides keeps every character of a class
      that contains no whitespace. */
  lemma FilterWrapped(pre: string, r: string, post: string, p: char -> bool)
    requires forall c :: p(c) ==> !IsWhitespace(c)
    requires forall i :: 0 <= i < |pre| ==> IsWhitespace(pre[i])
    requires forall i :: 0 <= i < |post| ==> IsWhitespace(post[i])
    ensures Filter(pre + r + post, p) == Filter(r, p)
  {
    FilterConcat(pre + r, post, p);
    FilterConcat(pre, r, p);
    FilterNone(pre, p);
    FilterNone(post, p);
  }

  /** Trimming removes only whitespace, so it keeps every character of a
      class that contains no whitespace. */
  lemma FilterTrim(s: string, p: char -> bool)
    requires forall c :: p(c) ==> !IsWhitespace(c)
    ensures Filter(Trim(s), p) == Filter(s, p)
  {
    var pre, post := TrimParts(s);
    FilterWrapped(pre, Trim(s), post, p);
  }

  /** The head and tail of a concatenation whose left part is not empty. */
  lemma ConsConcat<T>(a: seq<T>, b: seq<T>)
    requires a != []
    ensures (a + b)[0] == a[0] && (a + b)[1..] == a[1..] + b
  {
  }

  lemma AppendAssoc<T>(a: seq<T>, b: seq<T>, c: seq<T>)
    ensures a + (b + c) == (a + b) + c
  {
  }

  lemma SplitThree(s: string, i: nat, j: nat)
    requires i <= j <= |s|
    ensures s == s[..i] + s[i..j] + s[j..]
  {
    assert s[..j] == s[..i] + s[i..j];
  }

  /** A text is its trimmed part between two runs of whitespace. */
  lemma TrimParts(s: string) returns (pre: string, post: string)
    ensures s == pre + Trim(s) + post
    ensures forall i :: 0 <= i < |pre| ==> IsWhitespace(pre[i])
    ensures forall i :: 0 <= i < |post| ==> IsWhitespace(post[i])
  {
    var r := Trim(s);
    var l := Lead(s);
    pre, post := s[..l], s[l + |r|..];
    SplitThree(s, l, l + |r|);
  }

  /** JavaScript's `s.replace(/c/g, rep)`: every `c` becomes `rep`. */
  function ReplaceAll(s: string, c: char, rep: string): (r: string)
    ensures c !in s ==> r == s
  {
    if s == [] then [] else (if s[0] == c then rep else [s[0]]) + ReplaceAll(s[1..], c, rep)
  }

  lemma {:induction false} ReplaceAllConcat(a: string, b: string, c: char, rep: string)
    ensures ReplaceAll(a + b, c, rep) == ReplaceAll(a, c, rep) + ReplaceAll(b, c, rep)
  {
    if a == [] {
      assert a + b == b;
    } else {
      assert (a + b)[0] == a[0];
      assert (a + b)[1..] == a[1..] + b;
      ReplaceAllConcat(a[1..], b, c, rep);
    }
  }

  /** The concatenation of a list of strings. */
  function Concat(parts: seq<string>): string {
    if parts == [] then "" else parts[0] + Concat(parts[1..])
  }

  /** A template string: the literal pieces `lits` with the interpolated
      values `holes` between them, `lits[0] + holes[0] + lits[1] + ...`. */
  function Fill(lits: seq<string>, holes: seq<string>): string
    requires |lits| == |holes| + 1
  {
    if holes == [] then lits[0] else lits[0] + holes[0] + Fill(lits[1..], holes[1..])
  }

  /** The first character of a template is that of its first literal. */
  lemma FillStart(lits: seq<string>, holes: seq<string>)
    requires |lits| == |holes| + 1 && lits[0] != []
    ensures Fill(lits, holes) != [] && Fill(lits, holes)[0] == lits[0][0]
  {
  }

  /** The last character of a template is that of its last literal. */
  lemma {:induction false} FillEnd(lits: seq<string>, holes: seq<string>)
    requires |lits| == |holes| + 1 && lits[|lits| - 1] != []
    ensures var f := Fill(lits, holes);
      f != [] && f[|f| - 1] == lits[|lits| - 1][|lits[|lits| - 1]| - 1]
  {
    if holes != [] {
      FillEnd(lits[1..], holes[1..]);
    }
  }

  /** Interpolated values that hold no character of the class `p` leave the
      `p`-characters of a template exactly those of its literals. */
  lemma {:induction false} FillFilterLits(lits: seq<string>, holes: seq<string>, p: char -> bool)
    requires |lits| == |holes| + 1
    requires forall i :: 0 <= i < |holes| ==> Filter(holes[i], p) == []
    ensures Filter(Fill(lits, holes), p) == Filter(Concat(lits), p)
  {
    if holes == [] {
      assert lits[1..] == [];
      assert Concat(lits) == lits[0] + Concat(lits[1..]) == lits[0] + "";
      assert Concat(lits) == lits[0] == Fill(lits, holes);
    } else {
      FillFilterLits(lits[1..], holes[1..], p);
      FilterConcat(lits[0] + holes[0], Fill(lits[1..], holes[1..]), p);
      FilterConcat(lits[0], holes[0], p);
      FilterConcat(lits[0], Concat(lits[1..]), p);
      assert Fill(lits, holes) == lits[0] + holes[0] + Fill(lits[1..], holes[1..]);
      assert Concat(lits) == lits[0] + Concat(lits[1..]);
    }
  }

  /** How many characters of the class `p` the interpolated values carry. */
  function HoleCount(holes: seq<string>, p: char -> bool): nat {
    if holes == [] then 0 else |Filter(holes[0], p)| + HoleCount(holes[1..], p)
  }

  /** Every `p`-character of an interpolated value shows up in the template. */
  lemma {:induction false} FillFilterCount(lits: seq<string>, holes: seq<string>, p: char -> bool)
    requires |lits| == |holes| + 1
    ensures |Filter(Fill(lits, holes), p)| == |Filter(Concat(lits), p)| + HoleCount(holes, p)
  {
    if holes == [] {
      assert lits[1..] == [];
      assert Concat(lits) == lits[0] + Concat(lits[1..]) == lits[0] + "";
      assert Concat(lits) == lits[0] == Fill(lits, holes);
    } else {
      FillFilterCount(lits[1..], holes[1..], p);
      FilterConcat(lits[0] + holes[0], Fill(lits[1..], holes[1..]), p);
      FilterConcat(lits[0], holes[0], p);
      FilterConcat(lits[0], Concat(lits[1..]), p);
      assert Fill(lits, holes) == lits[0] + holes[0] + Fill(lits[1..], holes[1..]);
      assert Concat(lits) == lits[0] + Concat(lits[1..]);
    }
  }

  /** Each interpolated value appears in the template, followed by the
      literal after it. */
  lemma {:induction false} FillShowsHole(lits: seq<string>, holes: seq<string>, k: nat)
    requires |lits| == |holes| + 1 && k < |holes|
    ensures Contains(Fill(lits, holes), holes[k] + lits[k + 1])
  {
    var rest := Fill(lits[1..], holes[1..]);
    var f := lits[0] + holes[0] + rest;
    assert Fill(lits, holes) == f;
    if k == 0 {
      var g := holes[0] + lits[1];
      if holes[1..] == [] {
        assert rest == lits[1];
      } else {
        assert rest == lits[1] + holes[1] + Fill(lits[2..], holes[2..]);
      }
      assert f[|lits[0]|..|lits[0]| + |g|] == g;
      ContainsAt(f, g, |lits[0]|);
    } else {
      FillShowsHole(lits[1..], holes[1..], k - 1);
      ContainsShift(lits[0] + holes[0], rest, holes[k] + lits[k + 1]);
    }
  }

  /** What a string contains, it still contains after something is put in
      front of it. */
  lemma {:induction false} ContainsShift(a: string, b: string, sub: string)
    requires Contains(b, sub)
    ensures Contains(a + b, sub)
    decreases |a|
  {
    if a != [] {
      var ab := a + b;
      assert ab[1..] == a[1..] + b;
      ContainsShift(a[1..], b, sub);
      assert Contains(ab[1..], sub);
      assert Contains(ab, sub);
    } else {
      assert a + b == b;
    }
  }

  /** A string containing `a + b` contains `a`. */
  lemma {:induction false} ContainsPrefix(s: string, a: string, b: string)
    requires Contains(s, a + b)
    ensures Contains(s, a)
    decreases |s|
  {
    if !(a + b <= s) {
      ContainsPrefix(s[1..], a, b);
    } else {
      assert a <= s;
    }
  }

  /** Nothing but decimal digits. */
  predicate AllDigits(s: string) {
    forall i :: 0 <= i < |s| ==> IsDigit(s[i])
  }

  /** The value of a string of decimal digits, read left to right. */
  function DigitsValue(s: string): nat
    requires AllDigits(s)
  {
    if s == [] then 0
    else assert IsDigit(s[|s| - 1]); DigitsValue(s[..|s| - 1]) * 10 + (s[|s| - 1] as int - '0' as int)
  }

  /** Decimal digits of a natural number: the shortest digit string whose
      value is `n`, with no leading zero. */
  function NatToString(n: nat): (r: string)
    ensures |r| >= 1 && AllDigits(r)
    ensures DigitsValue(r) == n
    ensures r[0] == '0' <==> n == 0
  {
    if n < 10 then [('0' as int + n) as char]
    else
      var head := NatToString(n / 10);
      var r := head + [('0' as int + n % 10) as char];
      assert r[..|r| - 1] == head;
      r
  }

  /** JavaScript's rendering of an integral number in a template string:
      a `-` exactly for negative numbers, then the digits of the magnitude. */
  function IntToString(n: int): (r: string)
    ensures |r| >= 1
    ensures r[0] == '-' <==> n < 0
    ensures n >= 0 ==> AllDigits(r) && DigitsValue(r) == n
    ensures n < 0 ==> AllDigits(r[1..]) && DigitsValue(r[1..]) == -n
  {
    if n < 0 then
      var r := "-" + NatToString(-n);
      assert r[1..] == NatToString(-n);
      r
    else NatToString(n)
  }

  /** `s.trim().slice(0, n)`: the first at most `n` characters of the
      trimmed text. */
  function Clip(s: string, n: nat): (r: string)
    ensures |r| <= n && r <= Trim(s)
    ensures |Trim(s)| <= n ==> r == Trim(s)
    ensures |Trim(s)| > n ==> r == Trim(s)[..n]
  {
    Take(Trim(s), n)
  }

  /** No whitespace at either end. */
  predicate IsTrimmed(s: string) {
    s != [] ==> !IsWhitespace(s[0]) && !IsWhitespace(s[|s| - 1])
  }

  /** Text already trimmed and within the limit is stored as it is. */
  lemma ClipKeepsCleanText(s: string, n: nat)
    requires IsTrimmed(s)
    requires |s| <= n
    ensures Clip(s, n) == s
  {
    TrimOfTrimmed(s);
  }

  /** Whitespace around the text is dropped and nothing else is. */
  lemma ClipDropsSurroundingWhitespace(pre: string, b: string, post: string, n: nat)
    requires forall i :: 0 <= i < |pre| ==> IsWhitespace(pre[i])
    requires forall i :: 0 <= i < |post| ==> IsWhitespace(post[i])
    requires b != [] && !IsWhitespace(b[0]) && !IsWhitespace(b[|b| - 1])
    requires |b| <= n
    ensures Clip(pre + b + post, n) == b
  {
    TrimAround(pre, b, post);
  }
}
