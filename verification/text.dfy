/**
 * The string operations the pages call: case mapping, `String.prototype.includes`,
 * `trim`, `split(/\s+/)`, `split('.')[0]` and integer-to-decimal conversion.
 *
 * Case mapping is ASCII only (`toLowerCase`/`toUpperCase` of letters outside
 * A-Z are left alone). Whitespace is the ECMAScript set that both `trim` and
 * the regular-expression class `\s` use.
 */
module Text {

  /** `toLowerCase` of one character, on the ASCII letters. */
  function LowerChar(c: char): char {
    if 'A' <= c <= 'Z' then (c as int + 32) as char else c
  }

  /** `toUpperCase` of one character, on the ASCII letters. */
  function UpperChar(c: char): char {
    if 'a' <= c <= 'z' then (c as int - 32) as char else c
  }

  function Lower(s: string): string {
    seq(|s|, i requires 0 <= i < |s| => LowerChar(s[i]))
  }

  function Upper(s: string): string {
    seq(|s|, i requires 0 <= i < |s| => UpperChar(s[i]))
  }

  // ---------------------------------------------------------------------------
  // includes

  /** `sub` occurs in `s` starting at index `i`. */
  ghost predicate OccursAt(s: string, sub: string, i: int) {
    0 <= i && i + |sub| <= |s| && s[i..i + |sub|] == sub
  }

  /** `s.includes(sub)`: `sub` is a prefix of `s` or of one of its suffixes. */
  predicate Includes(s: string, sub: string)
    decreases |s|
  {
    sub <= s || (|s| > 0 && Includes(s[1..], sub))
  }

  /** An occurrence at any position is found by `Includes`. */
  lemma {:induction false} OccurrenceIsIncluded(s: string, sub: string, i: int)
    requires OccursAt(s, sub, i)
    ensures Includes(s, sub)
    decreases i
  {
    if i == 0 {
      assert s[..|sub|] == sub;
    } else {
      assert s[1..][i - 1..i - 1 + |sub|] == s[i..i + |sub|];
      OccurrenceIsIncluded(s[1..], sub, i - 1);
    }
  }

  /** `Includes` only succeeds where `sub` actually occurs. */
  lemma {:induction false} IncludedHasOccurrence(s: string, sub: string)
    requires Includes(s, sub)
    ensures exists i :: OccursAt(s, sub, i)
    decreases |s|
  {
    if sub <= s {
      assert OccursAt(s, sub, 0);
    } else {
      IncludedHasOccurrence(s[1..], sub);
      var i :| OccursAt(s[1..], sub, i);
      assert s[i + 1..i + 1 + |sub|] == s[1..][i..i + |sub|];
      assert OccursAt(s, sub, i + 1);
    }
  }

  /** `Includes` finds exactly the positions where `sub` occurs. */
  lemma IncludesIffOccurs(s: string, sub: string)
    ensures Includes(s, sub) <==> exists i :: OccursAt(s, sub, i)
  {
    if Includes(s, sub) {
      IncludedHasOccurrence(s, sub);
    }
    if exists i :: OccursAt(s, sub, i) {
      var i :| OccursAt(s, sub, i);
      OccurrenceIsIncluded(s, sub, i);
    }
  }

  /** The case-insensitive substring test of the search boxes. */
  predicate ContainsIgnoringCase(s: string, sub: string) {
    Includes(Lower(s), Lower(sub))
  }

  /** An empty search term matches every string. */
  lemma EmptyTermMatches(s: string)
    ensures ContainsIgnoringCase(s, "")
  {
    assert Lower("") == "";
  }

  // ---------------------------------------------------------------------------
  // whitespace, trim

  /** ECMAScript WhiteSpace or LineTerminator: what `trim` removes and `\s` matches. */
  predicate IsSpace(c: char) {
    var n := c as int;
    (9 <= n <= 13) || n == 0x20 || n == 0xA0 || n == 0x1680 || (0x2000 <= n <= 0x200A)
    || n == 0x2028 || n == 0x2029 || n == 0x202F || n == 0x205F || n == 0x3000 || n == 0xFEFF
  }

  predicate AllSpace(s: string) {
    forall i :: 0 <= i < |s| ==> IsSpace(s[i])
  }

  predicate NoSpace(s: string) {
    forall i :: 0 <= i < |s| ==> !IsSpace(s[i])
  }

  /** `trimStart`: the suffix left after the leading whitespace run. */
  function TrimStart(s: string): (r: string)
    ensures |r| <= |s| && r == s[|s| - |r|..]
    ensures forall i :: 0 <= i < |s| - |r| ==> IsSpace(s[i])
    ensures r == [] || !IsSpace(r[0])
  {
    if |s| > 0 && IsSpace(s[0]) then TrimStart(s[1..]) else s
  }

  /** `trimEnd`: the prefix left after the trailing whitespace run. */
  function TrimEnd(s: string): (r: string)
    ensures |r| <= |s| && r == s[..|r|]
    ensures forall i :: |r| <= i < |s| ==> IsSpace(s[i])
    ensures r == [] || !IsSpace(r[|r| - 1])
  {
    if |s| > 0 && IsSpace(s[|s| - 1]) then TrimEnd(s[..|s| - 1]) else s
  }

  /** `trim`: the slice of `s` between its leading and trailing whitespace. */
  function Trim(s: string): string {
    TrimEnd(TrimStart(s))
  }

  /** A trimmed string neither starts nor ends with whitespace. */
  predicate IsTrimmed(s: string) {
    s == [] || (!IsSpace(s[0]) && !IsSpace(s[|s| - 1]))
  }

  /** What `trimStart` cuts is whitespace. */
  lemma TrimStartCutsSpace(s: string)
    ensures AllSpace(s[..|s| - |TrimStart(s)|])
  {
    var k := |s| - |TrimStart(s)|;
    forall i | 0 <= i < k ensures IsSpace(s[..k][i]) {
      assert s[..k][i] == s[i];
    }
  }

  /** What `trimEnd` cuts is whitespace. */
  lemma TrimEndCutsSpace(s: string)
    ensures AllSpace(s[|TrimEnd(s)|..])
  {
    var k := |TrimEnd(s)|;
    forall i | 0 <= i < |s| - k ensures IsSpace(s[k..][i]) {
      assert s[k..][i] == s[k + i];
    }
  }

  /** The bounds of the slice `trim` keeps. */
  lemma TrimBounds(s: string) returns (i: nat, j: nat)
    ensures i <= j <= |s| && Trim(s) == s[i..j]
    ensures AllSpace(s[..i]) && AllSpace(s[j..])
  {
    var t := TrimStart(s);
    var r := TrimEnd(t);
    i := |s| - |t|;
    j := i + |r|;
    TrimStartCutsSpace(s);
    TrimEndCutsSpace(t);
    assert t == s[i..];
    assert s[i..j] == t[..|r|];
    assert s[j..] == t[|r|..];
  }

  /** `trim` removes only whitespace, and only from the two ends. */
  lemma TrimCharacterised(s: string)
    ensures IsTrimmed(Trim(s))
    ensures exists i, j :: 0 <= i <= j <= |s| && Trim(s) == s[i..j] && AllSpace(s[..i]) && AllSpace(s[j..])
  {
    var i, j := TrimBounds(s);
    var r := Trim(s);
    if r != [] {
      assert r[0] == TrimStart(s)[0];
    }
  }

  /** Leading whitespace never survives `trimStart`. */
  lemma {:induction false} TrimStartPadded(ws: string, s: string)
    requires AllSpace(ws)
    ensures TrimStart(ws + s) == TrimStart(s)
  {
    if |ws| > 0 {
      assert (ws + s)[1..] == ws[1..] + s;
      TrimStartPadded(ws[1..], s);
    } else {
      assert ws + s == s;
    }
  }

  /** Trailing whitespace never survives `trimEnd`. */
  lemma {:induction false} TrimEndPadded(s: string, ws: string)
    requires AllSpace(ws)
    ensures TrimEnd(s + ws) == TrimEnd(s)
  {
    if |ws| > 0 {
      var w := ws[..|ws| - 1];
      assert (s + ws)[..|s + ws| - 1] == s + w;
      TrimEndPadded(s, w);
    } else {
      assert s + ws == s;
    }
  }

  /** `trimStart` of a concatenation: the tail is kept whole once a non-space is seen. */
  lemma {:induction false} TrimStartAppend(s: string, w: string)
    ensures TrimStart(s + w) == if TrimStart(s) == [] then TrimStart(w) else TrimStart(s) + w
  {
    if |s| == 0 {
      assert s + w == w;
    } else if IsSpace(s[0]) {
      assert (s + w)[1..] == s[1..] + w;
      TrimStartAppend(s[1..], w);
    }
  }

  /** Whitespace around a string does not change what `trim` returns. */
  lemma TrimPadded(ws1: string, s: string, ws2: string)
    requires AllSpace(ws1) && AllSpace(ws2)
    ensures Trim(ws1 + s + ws2) == Trim(s)
  {
    assert ws1 + s + ws2 == ws1 + (s + ws2);
    TrimStartPadded(ws1, s + ws2);
    TrimStartAppend(s, ws2);
    if TrimStart(s) == [] {
      assert TrimStart(ws2) == [];
    } else {
      TrimEndPadded(TrimStart(s), ws2);
    }
  }

  /** A trimmed string is its own trim, so trimming twice is trimming once. */
  lemma TrimIdempotent(s: string)
    ensures IsTrimmed(s) ==> Trim(s) == s
    ensures Trim(Trim(s)) == Trim(s)
  {
    TrimCharacterised(s);
  }

  /** A string of whitespace only trims to the empty string. */
  lemma {:induction false} TrimBlank(s: string)
    requires AllSpace(s)
    ensures TrimStart(s) == [] && Trim(s) == []
  {
    if |s| > 0 {
      TrimBlank(s[1..]);
    }
  }

  // ---------------------------------------------------------------------------
  // split

  /** Index of the first whitespace character of `s`, or `|s|` when there is none. */
  function FirstSpace(s: string): (k: nat)
    ensures k <= |s|
    ensures forall i :: 0 <= i < k ==> !IsSpace(s[i])
    ensures k < |s| ==> IsSpace(s[k])
  {
    if |s| == 0 || IsSpace(s[0]) then 0 else 1 + FirstSpace(s[1..])
  }

  /**
   * `s.split(/\s+/)`: the pieces between maximal whitespace runs, including
   * the empty pieces before a leading run and after a trailing one.
   */
  function SplitOnSpaces(s: string): (words: seq<string>)
    ensures |words| >= 1
    decreases |s|
  {
    var k := FirstSpace(s);
    if k == |s| then [s]
    else
      var rest := TrimStart(s[k..]);
      assert IsSpace(s[k..][0]);
      [s[..k]] + SplitOnSpaces(rest)
  }

  /** On a trimmed string, every piece `split(/\s+/)` yields is a non-empty word. */
  lemma {:induction false} SplitTrimmedGivesWords(s: string)
    requires s != [] && IsTrimmed(s)
    ensures forall w :: w in SplitOnSpaces(s) ==> w != [] && NoSpace(w)
    decreases |s|
  {
    var k := FirstSpace(s);
    if k < |s| {
      var rest := TrimStart(s[k..]);
      assert k > 0;
      assert !IsSpace(s[k..][|s| - 1 - k]);
      assert rest != [];
      assert rest == s[|s| - |rest|..];
      assert rest[|rest| - 1] == s[|s| - 1];
      SplitTrimmedGivesWords(rest);
    }
  }

  /** A word followed by a gap: `split` yields the word, then splits what follows the gap. */
  lemma SplitAfterWord(w: string, gap: string, rest: string)
    requires w != [] && NoSpace(w)
    requires gap != [] && AllSpace(gap)
    requires rest == [] || !IsSpace(rest[0])
    ensures SplitOnSpaces(w + gap + rest) == [w] + SplitOnSpaces(rest)
  {
    var s := w + gap + rest;
    assert s == w + (gap + rest);
    FirstSpaceOfWord(w, gap + rest);
    var k := FirstSpace(s);
    assert k == |w| < |s|;
    assert s[..k] == w;
    assert s[k..] == gap + rest;
    TrimStartPadded(gap, rest);
    assert TrimStart(rest) == rest;
    assert TrimStart(s[k..]) == rest;
    assert SplitOnSpaces(s) == [s[..k]] + SplitOnSpaces(TrimStart(s[k..]));
  }

  /** The first whitespace after a word is where the word ends. */
  lemma {:induction false} FirstSpaceOfWord(w: string, tail: string)
    requires NoSpace(w)
    requires tail == [] || IsSpace(tail[0])
    ensures FirstSpace(w + tail) == |w|
  {
    if |w| > 0 {
      assert (w + tail)[1..] == w[1..] + tail;
      FirstSpaceOfWord(w[1..], tail);
    } else {
      assert w + tail == tail;
    }
  }

  /** The first piece of a string that starts with a word is that word. */
  lemma SplitFirstWord(w: string, tail: string)
    requires NoSpace(w)
    requires tail == [] || IsSpace(tail[0])
    ensures SplitOnSpaces(w + tail)[0] == w
  {
    FirstSpaceOfWord(w, tail);
    assert (w + tail)[..|w|] == w;
    if tail == [] {
      assert w + tail == w;
    }
  }

  /** A string without whitespace splits into itself alone. */
  lemma SplitSingleWord(w: string)
    requires NoSpace(w)
    ensures SplitOnSpaces(w) == [w]
  {
    FirstSpaceOfWord(w, []);
    assert w + [] == w;
  }

  // ---------------------------------------------------------------------------
  // split('.')[0]

  /** `s.split('.')[0]`: the text before the first '.', or all of `s`. */
  function BeforeFirstDot(s: string): (r: string)
    ensures r <= s
    ensures '.' !in r
    ensures |r| < |s| ==> s[|r|] == '.'
  {
    if |s| == 0 || s[0] == '.' then [] else [s[0]] + BeforeFirstDot(s[1..])
  }

  /** A string without '.' is its own part before the first '.'. */
  lemma {:induction false} BeforeFirstDotNoDot(s: string)
    requires '.' !in s
    ensures BeforeFirstDot(s) == s
  {
    if |s| > 0 {
      assert s[1..] == s[1..];
      assert '.' !in s[1..] by {
        forall c | c in s[1..] ensures c != '.' {
          assert c in s;
        }
      }
      BeforeFirstDotNoDot(s[1..]);
      assert [s[0]] + s[1..] == s;
    }
  }

  /** Cutting at the first '.' twice cuts no more than once. */
  lemma BeforeFirstDotIdempotent(s: string)
    ensures BeforeFirstDot(BeforeFirstDot(s)) == BeforeFirstDot(s)
  {
    BeforeFirstDotNoDot(BeforeFirstDot(s));
  }

  /** Text without '.' appended after the cut is kept whole by the next cut. */
  lemma {:induction false} BeforeFirstDotAppend(a: string, b: string)
    requires '.' !in a
    ensures BeforeFirstDot(a + b) == a + BeforeFirstDot(b)
  {
    if |a| == 0 {
      assert a + b == b;
    } else {
      var rest := a[1..];
      NoDotInTail(a);
      BeforeFirstDotAppend(rest, b);
      HeadAndTail(a, b);
      HeadAndTail(a, BeforeFirstDot(b));
      assert a[0] in a;
      BeforeFirstDotCons(a[0], rest + b);
    }
  }

  lemma HeadAndTail<T>(a: seq<T>, b: seq<T>)
    requires |a| > 0
    ensures a + b == [a[0]] + (a[1..] + b)
  {
  }

  /** A character other than '.' in front is kept by the cut. */
  lemma BeforeFirstDotCons(c: char, s: string)
    requires c != '.'
    ensures BeforeFirstDot([c] + s) == [c] + BeforeFirstDot(s)
  {
    var cs := [c] + s;
    assert cs[0] == c && cs[1..] == s;
  }

  lemma NoDotInTail(a: string)
    requires |a| > 0 && '.' !in a
    ensures '.' !in a[1..]
  {
    forall c | c in a[1..] ensures c != '.' {
      assert c in a;
    }
  }

  // ---------------------------------------------------------------------------
  // numbers

  predicate IsDigits(s: string) {
    forall i :: 0 <= i < |s| ==> '0' <= s[i] <= '9'
  }

  /** The number a string of decimal digits denotes. */
  function DecimalValue(s: string): nat
    requires IsDigits(s)
  {
    if |s| == 0 then 0
    else DecimalValue(s[..|s| - 1]) * 10 + (s[|s| - 1] as int - '0' as int)
  }

  function DigitChar(d: nat): char
    requires d < 10
  {
    ('0' as int + d) as char
  }

  /** `String(n)` for a non-negative integer: its decimal digits, no leading zeros. */
  function Decimal(n: nat): (r: string)
    ensures |r| >= 1 && IsDigits(r)
    ensures DecimalValue(r) == n
    ensures |r| > 1 ==> r[0] != '0'
  {
    if n < 10 then [DigitChar(n)]
    else
      var front := Decimal(n / 10);
      var r := front + [DigitChar(n % 10)];
      assert r[..|r| - 1] == front;
      r
  }

  /** Appending a digit to a positive number appends its character to the decimal text. */
  lemma DecimalAppend(n: nat, d: nat)
    requires 1 <= n && d < 10
    ensures Decimal(10 * n + d) == Decimal(n) + [DigitChar(d)]
  {
    assert (10 * n + d) / 10 == n && (10 * n + d) % 10 == d;
  }

  /** Numbers from 1000 to 9999 have four digits. */
  lemma DecimalFourDigits(n: nat)
    requires 1000 <= n <= 9999
    ensures |Decimal(n)| == 4
  {
    var a, b, c := n / 10, n / 10 / 10, n / 10 / 10 / 10;
    assert 100 <= a <= 999 && 10 <= b <= 99 && 1 <= c <= 9;
    assert |Decimal(c)| == 1;
    assert |Decimal(b)| == |Decimal(c)| + 1;
    assert |Decimal(a)| == |Decimal(b)| + 1;
    assert |Decimal(n)| == |Decimal(a)| + 1;
  }
}
