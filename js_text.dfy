/**
 * The JavaScript string operations the client relies on, on `seq<char>`:
 * `trim`, `startsWith`, `includes`, `split(sep)[1]`, `split('.').pop()`,
 * `toLowerCase` (ASCII letters only) and the decimal rendering of a number
 * inside a template literal.
 */
module JsText {
  import opened Wrappers

  /** The WhiteSpace and LineTerminator code points of ECMAScript: what `trim` removes. */
  predicate IsJsWhitespace(c: char) {
    || ('\t' <= c <= '\r')
    || c == ' ' || c == '\U{00A0}' || c == '\U{1680}'
    || ('\U{2000}' <= c <= '\U{200A}')
    || c == '\U{2028}' || c == '\U{2029}' || c == '\U{202F}' || c == '\U{205F}'
    || c == '\U{3000}' || c == '\U{FEFF}'
  }

  ghost predicate AllWhitespace(s: string) {
    forall i :: 0 <= i < |s| ==> IsJsWhitespace(s[i])
  }

  /**
   * `s.trim()`: whitespace is dropped from the front and then from the back;
   * the result is empty exactly when `s` is all whitespace, and otherwise
   * neither starts nor ends with whitespace.
   */
  function Trim(s: string): (r: string)
    ensures r == [] <==> AllWhitespace(s)
    ensures r != [] ==> !IsJsWhitespace(r[0]) && !IsJsWhitespace(r[|r| - 1])
    decreases |s|
  {
    if s == [] then []
    else if IsJsWhitespace(s[0]) then
      var r := Trim(s[1..]);
      assert AllWhitespace(s) <==> AllWhitespace(s[1..]) by {
        if AllWhitespace(s[1..]) {
          forall k | 0 <= k < |s| ensures IsJsWhitespace(s[k]) {
            if k > 0 { assert s[k] == s[1..][k - 1]; }
          }
        }
      }
      r
    else if IsJsWhitespace(s[|s| - 1]) then
      var r := Trim(s[..|s| - 1]);
      assert !AllWhitespace(s[..|s| - 1]) by {
        assert s[..|s| - 1][0] == s[0];
      }
      r
    else s
  }

  /** `r` sits in `s` at `i` with only whitespace before and after it. */
  ghost predicate PaddedInfix(s: string, r: string, i: nat) {
    && i + |r| <= |s| && r == s[i..i + |r|]
    && AllWhitespace(s[..i]) && AllWhitespace(s[i + |r|..])
  }

  /** The contents half of `Trim`'s contract: what is left is an infix with only whitespace around it. */
  lemma {:induction false} TrimIsInfix(s: string)
    ensures exists i: nat :: PaddedInfix(s, Trim(s), i)
    decreases |s|
  {
    if s == [] {
      assert PaddedInfix(s, Trim(s), 0);
    } else if IsJsWhitespace(s[0]) {
      TrimIsInfix(s[1..]);
      var i: nat :| PaddedInfix(s[1..], Trim(s[1..]), i);
      PaddedInfixFront(s, Trim(s), i);
    } else if IsJsWhitespace(s[|s| - 1]) {
      TrimIsInfix(s[..|s| - 1]);
      var i: nat :| PaddedInfix(s[..|s| - 1], Trim(s[..|s| - 1]), i);
      PaddedInfixBack(s, Trim(s), i);
    } else {
      assert PaddedInfix(s, Trim(s), 0);
    }
  }

  /** A padded infix of `s[1..]` is one of `s` a place further on, when `s[0]` is whitespace. */
  lemma PaddedInfixFront(s: string, r: string, i: nat)
    requires s != [] && IsJsWhitespace(s[0]) && PaddedInfix(s[1..], r, i)
    ensures PaddedInfix(s, r, i + 1)
  {
    assert s[..i + 1] == [s[0]] + s[1..][..i];
    assert s[i + 1 + |r|..] == s[1..][i + |r|..];
    assert s[i + 1..i + 1 + |r|] == s[1..][i..i + |r|];
  }

  /** A padded infix of all but the last character is one of `s`, when that character is whitespace. */
  lemma PaddedInfixBack(s: string, r: string, i: nat)
    requires s != [] && IsJsWhitespace(s[|s| - 1]) && PaddedInfix(s[..|s| - 1], r, i)
    ensures PaddedInfix(s, r, i)
  {
    var front := s[..|s| - 1];
    assert s[..i] == front[..i];
    assert s[i + |r|..] == front[i + |r|..] + [s[|s| - 1]];
    assert s[i..i + |r|] == front[i..i + |r|];
  }

  /** `s.startsWith(p)`. */
  predicate StartsWith(s: string, p: string) {
    |p| <= |s| && s[..|p|] == p
  }

  predicate OccursAt(s: string, pat: string, k: nat) {
    k + |pat| <= |s| && s[k..k + |pat|] == pat
  }

  /** Dropping the first character moves every occurrence one place to the left. */
  lemma OccursShift(s: string, pat: string, k: nat)
    requires |s| > 0
    ensures OccursAt(s, pat, k + 1) <==> OccursAt(s[1..], pat, k)
  {
    if k + 1 + |pat| <= |s| {
      assert s[1..][k..k + |pat|] == s[k + 1..k + 1 + |pat|];
    }
  }

  /**
   * `s.indexOf(pat)`, with "not found" as `None`: a position where `pat`
   * occurs, and the first one (`IndexOfIsFirst`).
   */
  function IndexOf(s: string, pat: string): (r: Option<nat>)
    ensures r.Some? ==> OccursAt(s, pat, r.value)
    decreases |s|
  {
    if |s| < |pat| then None
    else if s[..|pat|] == pat then Some(0)
    else
      match IndexOf(s[1..], pat)
      case None => None
      case Some(i) =>
        OccursShift(s, pat, i);
        Some(i + 1)
  }

  /** `indexOf` finds the first occurrence, and reports none only when there is none. */
  lemma {:induction false} IndexOfIsFirst(s: string, pat: string)
    ensures IndexOf(s, pat).Some? ==> forall k: nat :: k < IndexOf(s, pat).value ==> !OccursAt(s, pat, k)
    ensures IndexOf(s, pat).None? ==> forall k: nat :: !OccursAt(s, pat, k)
    decreases |s|
  {
    if |s| < |pat| {
    } else if s[..|pat|] == pat {
    } else {
      IndexOfIsFirst(s[1..], pat);
      forall k: nat | OccursAt(s, pat, k) ensures k > 0 && OccursAt(s[1..], pat, k - 1) {
        OccursShift(s, pat, k - 1);
      }
    }
  }

  /** An occurrence inside a prefix is an occurrence in the whole text. */
  lemma OccursInPrefix(s: string, n: nat, pat: string, k: nat)
    requires n <= |s|
    ensures OccursAt(s[..n], pat, k) ==> OccursAt(s, pat, k) && k + |pat| <= n
  {
    if OccursAt(s[..n], pat, k) {
      assert s[..n][k..k + |pat|] == s[k..k + |pat|];
    }
  }

  /** `s.includes(pat)`. */
  predicate Contains(s: string, pat: string) {
    IndexOf(s, pat).Some?
  }

  /**
   * `s.split(sep)[1]`, for a non-empty separator: the text after the first
   * occurrence of `sep` up to the first occurrence that starts after it (or
   * the end), and `None` (undefined) when `sep` does not occur.
   */
  function SecondPiece(s: string, sep: string): (r: Option<string>)
    requires sep != []
    ensures r.Some? <==> Contains(s, sep)
    ensures r.Some? ==>
      var i := IndexOf(s, sep).value;
      && i + |sep| <= |s|
      && StartsWith(s[i + |sep|..], r.value)
      && (i + |sep| + |r.value| == |s| || OccursAt(s[i + |sep|..], sep, |r.value|))
    ensures r.Some? ==> !Contains(r.value, sep)
    ensures r.Some? ==>
      var i := IndexOf(s, sep).value;
      && i + |sep| <= |s|
      && (IndexOf(s[i + |sep|..], sep).None? ==> r.value == s[i + |sep|..])
      && (IndexOf(s[i + |sep|..], sep).Some? ==> |r.value| == IndexOf(s[i + |sep|..], sep).value)
  {
    match IndexOf(s, sep)
    case None => None
    case Some(i) =>
      var rest := s[i + |sep|..];
      match IndexOf(rest, sep)
      case None =>
        assert rest[..|rest|] == rest;
        Some(rest)
      case Some(j) =>
        PieceBeforeFirst(rest, sep, j);
        Some(rest[..j])
  }

  /** The text before the first occurrence of `sep` is a prefix that does not contain `sep`. */
  lemma PieceBeforeFirst(s: string, sep: string, j: nat)
    requires sep != [] && IndexOf(s, sep) == Some(j)
    ensures j <= |s| && StartsWith(s, s[..j]) && OccursAt(s, sep, j)
    ensures !Contains(s[..j], sep)
  {
    IndexOfIsFirst(s, sep);
    forall k: nat ensures !OccursAt(s[..j], sep, k) {
      OccursInPrefix(s, j, sep, k);
    }
  }

  /**
   * `s.split(c).pop()`: the text after the last `c`, or all of `s` when `c`
   * does not occur; it is the longest suffix of `s` free of `c`.
   */
  function AfterLast(s: string, c: char): (r: string)
    ensures c !in r
    ensures |r| <= |s| && r == s[|s| - |r|..]
    ensures |r| < |s| ==> s[|s| - |r| - 1] == c
  {
    if |s| == 0 then ""
    else if s[|s| - 1] == c then ""
    else AfterLast(s[..|s| - 1], c) + [s[|s| - 1]]
  }

  /** `AfterLast` is the only suffix free of `c` that is all of `s` or follows a `c`. */
  lemma AfterLastUnique(s: string, c: char, k: nat)
    requires k <= |s| && c !in s[|s| - k..]
    requires k < |s| ==> s[|s| - k - 1] == c
    ensures AfterLast(s, c) == s[|s| - k..]
  {
    assert |AfterLast(s, c)| == k;
  }

  /** The dot-free tail after the last `c` is what `AfterLast` returns. */
  lemma AfterLastOfSplit(front: string, c: char, tail: string)
    requires c !in tail
    ensures AfterLast(front + [c] + tail, c) == tail
  {
    var s := front + [c] + tail;
    assert s[|s| - |tail|..] == tail;
    AfterLastUnique(s, c, |tail|);
  }

  /** Without `c` in `s`, `AfterLast` returns all of `s`. */
  lemma AfterLastWithout(s: string, c: char)
    requires c !in s
    ensures AfterLast(s, c) == s
  {
    assert s[|s| - |s|..] == s;
    AfterLastUnique(s, c, |s|);
  }

  function LowerChar(c: char): char {
    if 'A' <= c <= 'Z' then (c as int + 32) as char else c
  }

  /** `s.toLowerCase()` restricted to ASCII letters. */
  function ToLowerAscii(s: string): (r: string)
    ensures |r| == |s|
  {
    seq(|s|, i requires 0 <= i < |s| => LowerChar(s[i]))
  }

  function Digit(d: nat): char
    requires d < 10
  {
    "0123456789"[d]
  }

  function DigitValue(c: char): nat {
    if '0' <= c <= '9' then c as int - '0' as int else 0
  }

  predicate IsDigits(s: string) {
    forall i :: 0 <= i < |s| ==> '0' <= s[i] <= '9'
  }

  /** The decimal text of a non-negative integer, as a template literal renders it: no leading zero. */
  function Decimal(n: nat): (r: string)
    ensures r != [] && IsDigits(r)
    ensures r[0] == '0' <==> n == 0
    ensures |r| > 1 ==> r[0] != '0'
  {
    if n < 10 then [Digit(n)] else Decimal(n / 10) + [Digit(n % 10)]
  }

  /** The value of a string of decimal digits. */
  function DecimalValue(s: string): nat {
    if s == [] then 0 else 10 * DecimalValue(s[..|s| - 1]) + DigitValue(s[|s| - 1])
  }

  /** Reading the decimal text back gives the number: the rendering loses nothing. */
  lemma {:induction false} DecimalRoundTrip(n: nat)
    ensures DecimalValue(Decimal(n)) == n
  {
    if n >= 10 {
      DecimalRoundTrip(n / 10);
      var s := Decimal(n);
      assert s[..|s| - 1] == Decimal(n / 10);
    }
  }

  /** `items.join(sep)`. */
  function Join(items: seq<string>, sep: string): string {
    if |items| == 0 then ""
    else if |items| == 1 then items[0]
    else items[0] + sep + Join(items[1..], sep)
  }
}
