/**
 * String operations the tool wrappers rely on, written out with the meaning
 * Python gives them: `str.lower` (ASCII part), the substring test `sub in s`,
 * `str.count`, `str.split(sep)`, `sep.join(parts)`, `str.replace` and the
 * decimal rendering of integers by f-strings and `str(int)`.
 */
module Text {

  // ---------------------------------------------------------------------------
  // Case folding
  // ---------------------------------------------------------------------------

  /** Lower-case one character: A-Z become a-z, everything else is unchanged. */
  function LowerChar(c: char): char {
    if 'A' <= c <= 'Z' then (c as int + 32) as char else c
  }

  /** Upper-case one character: a-z become A-Z, everything else is unchanged. */
  function UpperChar(c: char): char {
    if 'a' <= c <= 'z' then (c as int - 32) as char else c
  }

  /** `s.lower()`, restricted to ASCII letters. */
  function Lower(s: string): string {
    seq(|s|, i requires 0 <= i < |s| => LowerChar(s[i]))
  }

  /** `s.upper()`, restricted to ASCII letters. */
  function Upper(s: string): string {
    seq(|s|, i requires 0 <= i < |s| => UpperChar(s[i]))
  }

  /** Folding is idempotent, and upper-casing first does not change the fold. */
  lemma LowerOfFolded(s: string)
    ensures Lower(Lower(s)) == Lower(s)
    ensures Lower(Upper(s)) == Lower(s)
  {
  }

  // ---------------------------------------------------------------------------
  // Substring search: Python's `sub in s`
  // ---------------------------------------------------------------------------

  /** `sub` occurs in `s` starting at index `i`. */
  predicate OccursAt(s: string, sub: string, i: int) {
    0 <= i && i + |sub| <= |s| && s[i..i + |sub|] == sub
  }

  /** `sub in s`: some occurrence of `sub` starts somewhere in `s`. */
  function Contains(s: string, sub: string): (b: bool)
    ensures b <==> exists i :: OccursAt(s, sub, i)
    decreases |s|
  {
    if |sub| <= |s| && s[..|sub|] == sub then
      assert OccursAt(s, sub, 0);
      true
    else if |s| <= |sub| then
      assert forall i :: OccursAt(s, sub, i) ==> i == 0;
      false
    else
      var r := Contains(s[1..], sub);
      assert forall i :: 0 <= i ==> (OccursAt(s, sub, i + 1) <==> OccursAt(s[1..], sub, i)) by {
        forall i | 0 <= i ensures OccursAt(s, sub, i + 1) <==> OccursAt(s[1..], sub, i) {
          OccursShift(s, sub, i);
        }
      }
      assert r ==> exists i :: OccursAt(s, sub, i) by {
        if r {
          var j :| OccursAt(s[1..], sub, j);
          assert OccursAt(s, sub, j + 1);
        }
      }
      assert (exists i :: OccursAt(s, sub, i)) ==> r by {
        if exists i :: OccursAt(s, sub, i) {
          var j :| OccursAt(s, sub, j);
          assert j != 0;
          assert OccursAt(s[1..], sub, j - 1);
        }
      }
      r
  }

  /** An occurrence one position further in `s` is an occurrence in `s[1..]`. */
  lemma OccursShift(s: string, sub: string, i: nat)
    requires |s| > 0
    ensures OccursAt(s, sub, i + 1) <==> OccursAt(s[1..], sub, i)
  {
    if i + 1 + |sub| <= |s| {
      var direct := s[i + 1..i + 1 + |sub|];
      var shifted := s[1..][i..i + |sub|];
      forall k | 0 <= k < |sub| ensures direct[k] == shifted[k] {
      }
      assert direct == shifted;
    }
  }

  /** `s.endswith(suffix)`. */
  predicate EndsWith(s: string, suffix: string) {
    |suffix| <= |s| && s[|s| - |suffix|..] == suffix
  }

  /** A suffix of a suffix is a suffix. */
  lemma EndsWithTrans(a: string, b: string, c: string)
    requires EndsWith(a, b) && EndsWith(b, c)
    ensures EndsWith(a, c)
  {
    assert a[|a| - |c|..] == b[|b| - |c|..];
  }

  // ---------------------------------------------------------------------------
  // Counting, splitting and joining on one separator character
  // ---------------------------------------------------------------------------

  /** `s.count(c)` for a one-character `c`. */
  function CountChar(s: string, c: char): nat
    decreases |s|
  {
    if s == [] then 0 else (if s[0] == c then 1 else 0) + CountChar(s[1..], c)
  }

  /** `s.split(sep)` for a one-character `sep`: the pieces between separators. */
  function Split(s: string, sep: char): (parts: seq<string>)
    ensures |parts| >= 1
    decreases |s|
  {
    if s == [] then [""]
    else
      var rest := Split(s[1..], sep);
      if s[0] == sep then [""] + rest else [[s[0]] + rest[0]] + rest[1..]
  }

  /** `sep.join(parts)` for a one-character `sep`. */
  function Join(parts: seq<string>, sep: char): string
    decreases |parts|
  {
    if parts == [] then ""
    else if |parts| == 1 then parts[0]
    else parts[0] + [sep] + Join(parts[1..], sep)
  }

  /** `s.split(sep)` has exactly one more piece than `s` has separators. */
  lemma {:induction false} SplitCount(s: string, sep: char)
    ensures |Split(s, sep)| == CountChar(s, sep) + 1
    decreases |s|
  {
    if s != [] {
      SplitCount(s[1..], sep);
    }
  }

  /** No piece of `s.split(sep)` contains the separator. */
  lemma {:induction false} SplitPiecesFree(s: string, sep: char)
    ensures forall k :: 0 <= k < |Split(s, sep)| ==> sep !in Split(s, sep)[k]
    decreases |s|
  {
    if s != [] {
      SplitPiecesFree(s[1..], sep);
    }
  }

  /** Joining the pieces of a split restores the string. */
  lemma {:induction false} JoinSplit(s: string, sep: char)
    ensures Join(Split(s, sep), sep) == s
    decreases |s|
  {
    if s != [] {
      var rest := Split(s[1..], sep);
      JoinSplit(s[1..], sep);
      if s[0] == sep {
        assert Split(s, sep) == [""] + rest;
        assert Split(s, sep)[1..] == rest;
      } else {
        var parts := Split(s, sep);
        assert parts == [[s[0]] + rest[0]] + rest[1..];
        if |rest| == 1 {
          assert Join(parts, sep) == [s[0]] + rest[0];
        } else {
          assert parts[1..] == rest[1..];
          assert Join(rest, sep) == rest[0] + [sep] + Join(rest[1..], sep);
        }
      }
    }
  }

  /** Splitting a join of separator-free pieces gives the pieces back. */
  lemma {:induction false} SplitJoin(parts: seq<string>, sep: char)
    requires |parts| >= 1
    requires forall k :: 0 <= k < |parts| ==> sep !in parts[k]
    ensures Split(Join(parts, sep), sep) == parts
    decreases |parts|, |parts[0]|
  {
    var p := parts[0];
    if p == [] {
      if |parts| == 1 {
        assert Join(parts, sep) == "";
      } else {
        assert Join(parts, sep) == [sep] + Join(parts[1..], sep);
        SplitJoin(parts[1..], sep);
        assert ([sep] + Join(parts[1..], sep))[1..] == Join(parts[1..], sep);
      }
    } else {
      var shorter := [p[1..]] + parts[1..];
      assert forall k :: 0 <= k < |shorter| ==> sep !in shorter[k] by {
        forall k | 0 <= k < |shorter| ensures sep !in shorter[k] {
          if k == 0 {
            assert forall c :: c in p[1..] ==> c in p;
          } else {
            assert shorter[k] == parts[k];
          }
        }
      }
      SplitJoin(shorter, sep);
      JoinCons(parts, sep);
      JoinCons(shorter, sep);
      assert Join(parts, sep) == [p[0]] + Join(shorter, sep);
      assert p[0] != sep by { assert p[0] in p; }
      assert (Join(parts, sep))[1..] == Join(shorter, sep);
      var rest := Split(Join(shorter, sep), sep);
      assert rest == shorter;
      assert [[p[0]] + rest[0]] + rest[1..] == parts by {
        assert [p[0]] + p[1..] == p;
        assert rest[1..] == parts[1..];
      }
    }
  }

  /** Joining is concatenation with the first piece in front. */
  lemma JoinCons(parts: seq<string>, sep: char)
    requires |parts| >= 1
    ensures Join(parts, sep) == parts[0] + (if |parts| == 1 then "" else [sep] + Join(parts[1..], sep))
  {
  }

  /** The first line of `s`: `s.split('\n')[0]`. */
  function FirstLine(s: string): (line: string)
    ensures '\n' !in line
    ensures |line| <= |s| && s[..|line|] == line
    ensures |line| < |s| ==> s[|line|] == '\n'
  {
    SplitPiecesFree(s, '\n');
    FirstPieceIsPrefix(s, '\n');
    Split(s, '\n')[0]
  }

  /** The first piece of a split is the prefix up to the first separator. */
  lemma {:induction false} FirstPieceIsPrefix(s: string, sep: char)
    ensures |Split(s, sep)[0]| <= |s|
    ensures s[..|Split(s, sep)[0]|] == Split(s, sep)[0]
    ensures |Split(s, sep)[0]| < |s| ==> s[|Split(s, sep)[0]|] == sep
    decreases |s|
  {
    if s != [] {
      FirstPieceIsPrefix(s[1..], sep);
    }
  }

  // ---------------------------------------------------------------------------
  // Replacement: Python's `s.replace(pat, rep)`, left to right, non-overlapping
  // ---------------------------------------------------------------------------

  function ReplaceAll(s: string, pat: string, rep: string): string
    requires |pat| > 0
    decreases |s|
  {
    if |s| < |pat| then s
    else if s[..|pat|] == pat then rep + ReplaceAll(s[|pat|..], pat, rep)
    else [s[0]] + ReplaceAll(s[1..], pat, rep)
  }

  /** Replacing every occurrence of a single character by a text that does not
      contain it leaves no occurrence of that character. */
  lemma {:induction false} ReplaceAllRemovesChar(s: string, c: char, rep: string)
    requires c !in rep
    ensures c !in ReplaceAll(s, [c], rep)
    decreases |s|
  {
    if |s| >= 1 {
      ReplaceAllRemovesChar(s[1..], c, rep);
    }
  }

  /** Replacement does not touch a string in which the pattern does not occur. */
  lemma {:induction false} ReplaceAllAbsent(s: string, pat: string, rep: string)
    requires |pat| > 0 && !Contains(s, pat)
    ensures ReplaceAll(s, pat, rep) == s
    decreases |s|
  {
    if |s| >= |pat| {
      assert !OccursAt(s, pat, 0);
      ReplaceAllAbsent(s[1..], pat, rep);
      assert [s[0]] + s[1..] == s;
    }
  }

  // ---------------------------------------------------------------------------
  // Decimal rendering of integers (f-strings and str() on int)
  // ---------------------------------------------------------------------------

  predicate IsDigit(c: char) {
    '0' <= c <= '9'
  }

  function DigitChar(d: nat): (c: char)
    requires d < 10
    ensures IsDigit(c)
  {
    ('0' as int + d) as char
  }

  /** Decimal digits of a natural number, most significant first. */
  function NatToString(n: nat): (s: string)
    ensures |s| >= 1
    ensures forall i :: 0 <= i < |s| ==> IsDigit(s[i])
    ensures |s| > 1 ==> s[0] != '0'
    decreases n
  {
    if n < 10 then [DigitChar(n)] else NatToString(n / 10) + [DigitChar(n % 10)]
  }

  /** `str(i)`: a minus sign for negative numbers, then the digits. */
  function IntToString(i: int): string {
    if i < 0 then "-" + NatToString(-i) else NatToString(i)
  }

  function DigitOf(c: char): (d: nat)
    requires IsDigit(c)
    ensures d < 10 && DigitChar(d) == c
  {
    c as int - '0' as int
  }

  /** The value of a string of decimal digits, most significant first. */
  function DigitsValue(s: string): nat
    requires forall i :: 0 <= i < |s| ==> IsDigit(s[i])
    decreases |s|
  {
    if s == [] then 0 else DigitsValue(s[..|s| - 1]) * 10 + DigitOf(s[|s| - 1])
  }

  /** Reading the rendered digits back gives the number: the rendering is exact. */
  lemma {:induction false} NatToStringValue(n: nat)
    ensures DigitsValue(NatToString(n)) == n
    decreases n
  {
    if n >= 10 {
      NatToStringValue(n / 10);
      var s := NatToString(n);
      assert s[..|s| - 1] == NatToString(n / 10);
    }
  }
}
