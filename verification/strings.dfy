/**
 * The JavaScript string operations the storefront relies on, on `seq<char>`:
 * `startsWith`, `indexOf`, `includes`, `split`/`join` on one character,
 * `trim`, `padStart` and the decimal rendering of an integer.
 */
module Strings {
  import Seqs

  /** `s.startsWith(p)`. */
  predicate StartsWith(s: string, p: string) {
    |p| <= |s| && s[..|p|] == p
  }

  /** `pat` occurs in `s` starting at index `i`. */
  predicate OccursAt(s: string, pat: string, i: nat) {
    i + |pat| <= |s| && s[i..i + |pat|] == pat
  }

  /** `s.includes(pat)`; every string includes the empty string. */
  predicate Includes(s: string, pat: string) {
    exists i: nat :: i <= |s| && OccursAt(s, pat, i)
  }

  /** `s.indexOf(pat, from)`: the first occurrence at or after `from`, or -1. */
  function IndexOfFrom(s: string, pat: string, from: nat): (r: int)
    requires from <= |s|
    ensures r == -1 || (from <= r && OccursAt(s, pat, r))
    ensures r == -1 ==> forall i: nat :: from <= i ==> !OccursAt(s, pat, i)
    ensures r != -1 ==> forall i: nat :: from <= i < r ==> !OccursAt(s, pat, i)
    decreases |s| - from
  {
    if OccursAt(s, pat, from) then from
    else if from == |s| then -1
    else IndexOfFrom(s, pat, from + 1)
  }

  /** `s.indexOf(pat)`. */
  function IndexOf(s: string, pat: string): (r: int)
    ensures r == -1 <==> !Includes(s, pat)
    ensures r != -1 ==> 0 <= r && OccursAt(s, pat, r)
    ensures r != -1 ==> forall i: nat :: i < r ==> !OccursAt(s, pat, i)
  {
    IndexOfFrom(s, pat, 0)
  }

  lemma IncludesEmpty(s: string)
    ensures Includes(s, "")
  {
    assert OccursAt(s, "", 0);
  }

  lemma IncludesPrefix(s: string, p: string)
    requires StartsWith(s, p)
    ensures Includes(s, p)
  {
    assert OccursAt(s, p, 0);
  }

  // ---------------------------------------------------------------------
  // split and join on one separator character
  // ---------------------------------------------------------------------

  /** `s.split(sep)`: the pieces between the separators, empty ones included. */
  function Split(s: string, sep: char): (r: seq<string>)
    ensures |r| >= 1
    ensures forall i :: 0 <= i < |r| ==> sep !in r[i]
  {
    if |s| == 0 then [""]
    else
      var rest := Split(s[1..], sep);
      if s[0] == sep then [""] + rest
      else [[s[0]] + rest[0]] + rest[1..]
  }

  /** `parts.join(sep)`. */
  function Join(parts: seq<string>, sep: char): string {
    if |parts| == 0 then ""
    else if |parts| == 1 then parts[0]
    else parts[0] + [sep] + Join(parts[1..], sep)
  }

  /** `s.split(sep).filter(Boolean)`: the non-empty pieces only. */
  function Segments(s: string, sep: char): (r: seq<string>)
    ensures forall i :: 0 <= i < |r| ==> r[i] != "" && sep !in r[i]
  {
    var parts := Split(s, sep);
    var r := Seqs.Filter(parts, (p: string) => p != "");
    assert forall i :: 0 <= i < |r| ==> sep !in r[i] by {
      forall i | 0 <= i < |r| ensures sep !in r[i] {
        Seqs.FilterMembership(parts, (p: string) => p != "", r[i]);
      }
    }
    r
  }

  /** Joining the pieces of a split gives back the string. */
  lemma {:induction false} JoinSplit(s: string, sep: char)
    ensures Join(Split(s, sep), sep) == s
    decreases |s|
  {
    if |s| > 0 {
      JoinSplit(s[1..], sep);
      var rest := Split(s[1..], sep);
      if s[0] == sep {
        assert ([""] + rest)[1..] == rest;
      } else {
        var r := [[s[0]] + rest[0]] + rest[1..];
        assert r[1..] == rest[1..];
        if |rest| > 1 {
          assert Join(rest, sep) == rest[0] + [sep] + Join(rest[1..], sep);
        }
        assert s == [s[0]] + s[1..];
      }
    }
  }

  /** A separator after a separator-free prefix cuts off exactly that prefix. */
  lemma {:induction false} SplitAfterPiece(a: string, sep: char, b: string)
    requires sep !in a
    ensures Split(a + [sep] + b, sep) == [a] + Split(b, sep)
    decreases |a|
  {
    var s := a + [sep] + b;
    if |a| == 0 {
      assert s[1..] == b;
    } else {
      assert s[1..] == a[1..] + [sep] + b;
      SplitAfterPiece(a[1..], sep, b);
      assert [a[0]] + a[1..] == a;
    }
  }

  /** Two separator-free pieces in front of `rest` split off as themselves. */
  lemma SplitTwoPieces(a: string, b: string, sep: char, rest: string)
    requires sep !in a && sep !in b
    ensures Split(a + [sep] + b + [sep] + rest, sep) == [a, b] + Split(rest, sep)
  {
    assert a + [sep] + b + [sep] + rest == a + [sep] + (b + [sep] + rest);
    SplitAfterPiece(a, sep, b + [sep] + rest);
    SplitAfterPiece(b, sep, rest);
  }

  /** A separator-free string is a single piece. */
  lemma {:induction false} SplitPiece(a: string, sep: char)
    requires sep !in a
    ensures Split(a, sep) == [a]
    decreases |a|
  {
    if |a| > 0 {
      SplitPiece(a[1..], sep);
      assert [a[0]] + a[1..] == a;
    }
  }

  /** Splitting a join of separator-free pieces gives back the pieces. */
  lemma {:induction false} SplitJoin(parts: seq<string>, sep: char)
    requires |parts| >= 1
    requires forall i :: 0 <= i < |parts| ==> sep !in parts[i]
    ensures Split(Join(parts, sep), sep) == parts
    decreases |parts|
  {
    if |parts| == 1 {
      SplitPiece(parts[0], sep);
    } else {
      SplitJoin(parts[1..], sep);
      SplitAfterPiece(parts[0], sep, Join(parts[1..], sep));
      assert [parts[0]] + parts[1..] == parts;
    }
  }

  /** A path made of non-empty, separator-free segments. */
  predicate WellFormedPath(s: string, sep: char) {
    && |s| > 0
    && s[0] != sep
    && s[|s| - 1] != sep
    && forall i :: 0 <= i < |s| - 1 ==> !(s[i] == sep && s[i + 1] == sep)
  }

  /** Joining at least one non-empty, separator-free piece gives a well-formed path. */
  lemma {:induction false} JoinWellFormed(parts: seq<string>, sep: char)
    requires |parts| >= 1
    requires forall i :: 0 <= i < |parts| ==> parts[i] != "" && sep !in parts[i]
    ensures WellFormedPath(Join(parts, sep), sep)
    decreases |parts|
  {
    assert parts[0][0] in parts[0];
    if |parts| == 1 {
      assert parts[0][|parts[0]| - 1] in parts[0];
    } else {
      var tail := Join(parts[1..], sep);
      JoinWellFormed(parts[1..], sep);
      var s := parts[0] + [sep] + tail;
      var n := |parts[0]|;
      assert parts[0][n - 1] in parts[0];
      forall i | 0 <= i < |s| - 1
        ensures !(s[i] == sep && s[i + 1] == sep)
      {
        if i < n {
          assert s[i] == parts[0][i];
          assert parts[0][i] in parts[0];
        } else if i == n {
          assert s[i + 1] == tail[0];
        } else {
          assert s[i] == tail[i - n - 1] && s[i + 1] == tail[i - n];
        }
      }
      assert s[|s| - 1] == tail[|tail| - 1];
    }
  }

  /** The segments of a well-formed path are exactly its split. */
  lemma {:induction false} WellFormedSplitHasNoBlank(s: string, sep: char)
    requires WellFormedPath(s, sep)
    ensures forall i :: 0 <= i < |Split(s, sep)| ==> Split(s, sep)[i] != ""
  {
    var parts := Split(s, sep);
    JoinSplit(s, sep);
    forall i | 0 <= i < |parts|
      ensures parts[i] != ""
    {
      if parts[i] == "" {
        JoinBlankPiece(parts, sep, i);
      }
    }
  }

  /** A blank piece in a join leaves a separator at an end or two in a row. */
  lemma {:induction false} JoinBlankPiece(parts: seq<string>, sep: char, k: nat)
    requires k < |parts| && parts[k] == ""
    ensures !WellFormedPath(Join(parts, sep), sep)
    decreases |parts|
  {
    var s := Join(parts, sep);
    if |parts| == 1 {
    } else if k == 0 {
      assert s == [sep] + Join(parts[1..], sep);
    } else {
      var tail := Join(parts[1..], sep);
      JoinBlankPiece(parts[1..], sep, k - 1);
      var n := |parts[0]|;
      assert s == parts[0] + [sep] + tail;
      if |tail| == 0 {
        assert s[|s| - 1] == sep;
      } else if tail[0] == sep {
        assert s[n] == sep && s[n + 1] == sep;
      } else if tail[|tail| - 1] == sep {
        assert s[|s| - 1] == sep;
      } else {
        var i :| 0 <= i < |tail| - 1 && tail[i] == sep && tail[i + 1] == sep;
        assert s[n + 1 + i] == sep && s[n + 2 + i] == sep;
      }
    }
  }

  /** A well-formed path is recovered from its segments. */
  lemma SegmentsOfWellFormed(s: string, sep: char)
    requires WellFormedPath(s, sep)
    ensures Segments(s, sep) == Split(s, sep)
    ensures Join(Segments(s, sep), sep) == s
  {
    WellFormedSplitHasNoBlank(s, sep);
    Seqs.FilterAll(Split(s, sep), (p: string) => p != "");
    JoinSplit(s, sep);
  }

  // ---------------------------------------------------------------------
  // trim
  // ---------------------------------------------------------------------

  /**
   * The characters `String.prototype.trim` removes: the ECMAScript
   * WhiteSpace and LineTerminator code points.
   */
  predicate IsSpace(c: char) {
    || c == '\U{0009}' || c == '\U{000A}' || c == '\U{000B}' || c == '\U{000C}'
    || c == '\U{000D}' || c == '\U{0020}' || c == '\U{00A0}' || c == '\U{1680}'
    || ('\U{2000}' <= c <= '\U{200A}')
    || c == '\U{2028}' || c == '\U{2029}' || c == '\U{202F}' || c == '\U{205F}'
    || c == '\U{3000}' || c == '\U{FEFF}'
  }

  function TrimStart(s: string): (r: string)
    ensures |r| <= |s| && r == s[|s| - |r|..]
    ensures |r| > 0 ==> !IsSpace(r[0])
    ensures forall i :: 0 <= i < |s| - |r| ==> IsSpace(s[i])
  {
    if |s| > 0 && IsSpace(s[0]) then TrimStart(s[1..]) else s
  }

  function TrimEnd(s: string): (r: string)
    ensures |r| <= |s| && r == s[..|r|]
    ensures |r| > 0 ==> !IsSpace(r[|r| - 1])
    ensures forall i :: |r| <= i < |s| ==> IsSpace(s[i])
  {
    if |s| > 0 && IsSpace(s[|s| - 1]) then TrimEnd(s[..|s| - 1]) else s
  }

  /** Every character of `s` is white space (the empty string included). */
  predicate IsBlank(s: string) {
    forall i :: 0 <= i < |s| ==> IsSpace(s[i])
  }

  /** `r` is `s` less a blank head and a blank tail: only white space around the text is gone. */
  predicate BlankAround(s: string, r: string) {
    exists i, j :: 0 <= i <= j <= |s| && r == s[i..j] && IsBlank(s[..i]) && IsBlank(s[j..])
  }

  /** `s.trim()`. */
  function Trim(s: string): (r: string)
    ensures r == "" <==> IsBlank(s)
    ensures |r| > 0 ==> !IsSpace(r[0]) && !IsSpace(r[|r| - 1])
    ensures BlankAround(s, r)
  {
    TrimmedBlank(s);
    TrimmedAround(s);
    TrimEnd(TrimStart(s))
  }

  lemma TrimmedBlank(s: string)
    ensures TrimEnd(TrimStart(s)) == "" <==> IsBlank(s)
  {
    var a := TrimStart(s);
    // a blank trimEnd leaves no room for the non-space head of `a`
    assert TrimEnd(a) == "" ==> a == "";
  }

  /** `trimEnd(trimStart(s))` removes only white space around the text. */
  lemma TrimmedAround(s: string)
    ensures BlankAround(s, TrimEnd(TrimStart(s)))
  {
    var a := TrimStart(s);
    BlankEnds(s, |s| - |a|, a, TrimEnd(a));
  }

  /** Dropping a blank head from `s`, then a blank tail, leaves a slice of `s` between blanks. */
  lemma BlankEnds(s: string, i: nat, a: string, r: string)
    requires i <= |s| && a == s[i..] && |r| <= |a| && r == a[..|r|]
    requires forall k :: 0 <= k < i ==> IsSpace(s[k])
    requires forall k :: |r| <= k < |a| ==> IsSpace(a[k])
    ensures BlankAround(s, r)
  {
    var j := i + |r|;
    var tail := s[j..];
    forall k | 0 <= k < |tail| ensures IsSpace(tail[k]) {
      assert tail[k] == a[|r| + k];
    }
    assert r == s[i..j] && IsBlank(s[..i]) && IsBlank(s[j..]);
  }

  // ---------------------------------------------------------------------
  // decimal rendering and padStart
  // ---------------------------------------------------------------------

  predicate IsDigit(c: char) {
    '0' <= c <= '9'
  }

  function DigitChar(d: nat): (c: char)
    requires d < 10
    ensures IsDigit(c)
  {
    ['0', '1', '2', '3', '4', '5', '6', '7', '8', '9'][d]
  }

  function DigitValue(c: char): (d: nat)
    requires IsDigit(c)
    ensures d < 10
  {
    (c as int - '0' as int)
  }

  /** The decimal digits of `n` with no leading zero (`n.toString()`). */
  function NatToDecimal(n: nat): (r: string)
    ensures |r| >= 1
    ensures forall i :: 0 <= i < |r| ==> IsDigit(r[i])
    ensures |r| > 1 ==> r[0] != '0'
  {
    if n < 10 then [DigitChar(n)] else NatToDecimal(n / 10) + [DigitChar(n % 10)]
  }

  /**
   * `n.toString()` for an integer with |n| < 10^21, where JavaScript prints
   * plain digits, with a minus sign before a negative number. Larger numbers
   * print in exponent form (`"1e+21"`), which is not modelled.
   */
  function IntToDecimal(n: int): (r: string)
    ensures |r| >= 1
  {
    if n >= 0 then NatToDecimal(n) else "-" + NatToDecimal(-n)
  }

  /** The value of a string of decimal digits, leading zeros allowed. */
  function ParseDecimal(s: string): nat
    requires forall i :: 0 <= i < |s| ==> IsDigit(s[i])
  {
    if |s| == 0 then 0 else 10 * ParseDecimal(s[..|s| - 1]) + DigitValue(s[|s| - 1])
  }

  /** `n` copies of `c`. */
  function Repeat(c: char, n: nat): (r: string)
    ensures |r| == n
    ensures forall i :: 0 <= i < n ==> r[i] == c
  {
    if n == 0 then "" else [c] + Repeat(c, n - 1)
  }

  /** `s.padStart(width, [c])`: left-padded with `c` to `width`, never cut. */
  function PadStart(s: string, width: nat, c: char): (r: string)
    ensures |r| == if |s| >= width then |s| else width
    ensures r[|r| - |s|..] == s
    ensures forall i :: 0 <= i < |r| - |s| ==> r[i] == c
  {
    if |s| >= width then s else Repeat(c, width - |s|) + s
  }

  /** Parsing the decimal rendering of `n` gives `n`. */
  lemma {:induction false} ParseNatToDecimal(n: nat)
    ensures ParseDecimal(NatToDecimal(n)) == n
    decreases n
  {
    if n >= 10 {
      ParseNatToDecimal(n / 10);
      var s := NatToDecimal(n);
      var d := n % 10;
      assert s == NatToDecimal(n / 10) + [DigitChar(d)];
      assert s[..|s| - 1] == NatToDecimal(n / 10);
      assert DigitValue(s[|s| - 1]) == d;
      assert n == 10 * (n / 10) + d;
    }
  }

  /** Leading zeros do not change a decimal value. */
  lemma {:induction false} ParseLeadingZeros(k: nat, s: string)
    requires forall i :: 0 <= i < |s| ==> IsDigit(s[i])
    ensures forall i :: 0 <= i < |Repeat('0', k) + s| ==> IsDigit((Repeat('0', k) + s)[i])
    ensures ParseDecimal(Repeat('0', k) + s) == ParseDecimal(s)
    decreases |s|
  {
    var z := Repeat('0', k);
    if |s| == 0 {
      ParseZeros(k);
      assert z + s == z;
    } else {
      ParseLeadingZeros(k, s[..|s| - 1]);
      assert (z + s)[..|z + s| - 1] == z + s[..|s| - 1];
    }
  }

  lemma {:induction false} ParseZeros(k: nat)
    ensures ParseDecimal(Repeat('0', k)) == 0
    decreases k
  {
    if k > 0 {
      var z := Repeat('0', k);
      ParseZeros(k - 1);
      assert z[..k - 1] == Repeat('0', k - 1);
    }
  }
}
