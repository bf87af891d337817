/** String operations with the meaning Python gives them on `str`:
    substring test (`sub in s`), `str.replace`, `str.split` on one
    separator, `sep.join`, `str.endswith`, and the ASCII part of
    `str.lower`, `str.upper` and `str.title`. */
module Strings {

  predicate IsPrefix(p: string, s: string) {
    |p| <= |s| && s[..|p|] == p
  }

  predicate EndsWith(s: string, suffix: string) {
    |suffix| <= |s| && s[|s| - |suffix|..] == suffix
  }

  /** Python's `sub in s`: `sub` occurs in `s` at some position. */
  predicate Contains(s: string, sub: string)
    decreases |s|
  {
    IsPrefix(sub, s) || (s != [] && Contains(s[1..], sub))
  }

  /** Python's `s.replace(pat, rep)` for a non-empty pattern: occurrences
      are replaced left to right and never overlap. */
  function ReplaceAll(s: string, pat: string, rep: string): string
    requires pat != []
    decreases |s|
  {
    if s == [] then []
    else if IsPrefix(pat, s) then rep + ReplaceAll(s[|pat|..], pat, rep)
    else [s[0]] + ReplaceAll(s[1..], pat, rep)
  }

  /** A string the pattern does not occur in comes out of `replace` unchanged. */
  lemma {:induction false} ReplaceAbsent(s: string, pat: string, rep: string)
    requires pat != [] && !Contains(s, pat)
    ensures ReplaceAll(s, pat, rep) == s
    decreases |s|
  {
    if s != [] {
      ReplaceAbsent(s[1..], pat, rep);
    }
  }

  /** A leading occurrence is replaced and the scan resumes after it. */
  lemma ReplaceLeading(pat: string, rest: string, rep: string)
    requires pat != []
    ensures ReplaceAll(pat + rest, pat, rep) == rep + ReplaceAll(rest, pat, rep)
  {
    assert (pat + rest)[|pat|..] == rest;
    assert IsPrefix(pat, pat + rest);
  }

  /** Python's `s.split(sep)` for a one-character separator: always at
      least one part, empty parts kept. */
  function Split(s: string, sep: char): (parts: seq<string>)
    ensures |parts| >= 1
    decreases |s|
  {
    if s == [] then [[]]
    else
      var tail := Split(s[1..], sep);
      if s[0] == sep then [[]] + tail
      else [[s[0]] + tail[0]] + tail[1..]
  }

  /** Python's `sep.join(parts)`. */
  function Join(parts: seq<string>, sep: string): string
    decreases |parts|
  {
    if parts == [] then []
    else if |parts| == 1 then parts[0]
    else parts[0] + sep + Join(parts[1..], sep)
  }

  /** No part produced by `split` contains the separator. */
  lemma {:induction false} SplitPartsFree(s: string, sep: char)
    ensures forall k :: 0 <= k < |Split(s, sep)| ==> sep !in Split(s, sep)[k]
    decreases |s|
  {
    if s != [] {
      SplitPartsFree(s[1..], sep);
    }
  }

  /** Joining the parts of a split with the same separator gives the string back. */
  lemma {:induction false} JoinSplit(s: string, sep: char)
    ensures Join(Split(s, sep), [sep]) == s
    decreases |s|
  {
    if s != [] {
      var tail := Split(s[1..], sep);
      JoinSplit(s[1..], sep);
      if s[0] == sep {
        assert Split(s, sep) == [[]] + tail;
        assert ([[]] + tail)[1..] == tail;
      } else {
        var parts := Split(s, sep);
        assert parts == [[s[0]] + tail[0]] + tail[1..];
        if |tail| == 1 {
          assert Join(tail, [sep]) == tail[0];
        } else {
          assert parts[1..] == tail[1..];
          assert Join(tail, [sep]) == tail[0] + [sep] + Join(tail[1..], [sep]);
        }
      }
    }
  }

  /** Splitting a string joined from separator-free parts gives the parts back. */
  lemma {:induction false} SplitJoin(parts: seq<string>, sep: char)
    requires |parts| >= 1
    requires forall k :: 0 <= k < |parts| ==> sep !in parts[k]
    ensures Split(Join(parts, [sep]), sep) == parts
    decreases |parts|
  {
    if |parts| == 1 {
      SplitFree(parts[0], sep);
    } else {
      SplitJoin(parts[1..], sep);
      SplitPrefix(parts[0], Join(parts[1..], [sep]), sep);
      assert [parts[0]] + parts[1..] == parts;
    }
  }

  /** A string without the separator splits into itself alone. */
  lemma {:induction false} SplitFree(s: string, sep: char)
    requires sep !in s
    ensures Split(s, sep) == [s]
    decreases |s|
  {
    if s != [] {
      SplitFree(s[1..], sep);
      assert [s[0]] + s[1..] == s;
    }
  }

  /** Splitting `a + sep + b` where `a` is separator-free: `a` then the parts of `b`. */
  lemma {:induction false} SplitPrefix(a: string, b: string, sep: char)
    requires sep !in a
    ensures Split(a + [sep] + b, sep) == [a] + Split(b, sep)
    decreases |a|
  {
    if a == [] {
      assert a + [sep] + b == [sep] + b;
      assert ([sep] + b)[1..] == b;
    } else {
      SplitPrefix(a[1..], b, sep);
      var s := a + [sep] + b;
      assert s[1..] == a[1..] + [sep] + b;
      assert [a[0]] + a[1..] == a;
    }
  }

  function LastOf(parts: seq<string>): string
    requires parts != []
  {
    parts[|parts| - 1]
  }

  /** A string holding the separator splits into several parts. */
  lemma {:induction false} SplitSeveral(s: string, sep: char)
    requires sep in s
    ensures |Split(s, sep)| >= 2
    decreases |s|
  {
    if s[0] != sep {
      assert sep in s[1..];
      SplitSeveral(s[1..], sep);
    }
  }

  /** The last part of a split is a suffix of the string, preceded by the
      separator unless it is the whole string. */
  lemma {:induction false} SplitLastSuffix(s: string, sep: char)
    ensures var l := LastOf(Split(s, sep));
      && EndsWith(s, l)
      && (|l| < |s| ==> s[|s| - |l| - 1] == sep)
    decreases |s|
  {
    if sep !in s {
      SplitFree(s, sep);
    } else {
      var tail := Split(s[1..], sep);
      var l := LastOf(tail);
      SplitLastSuffix(s[1..], sep);
      if s[0] != sep {
        assert sep in s[1..];
        SplitSeveral(s[1..], sep);
      }
      assert LastOf(Split(s, sep)) == l;
      assert s[1..][|s| - 1 - |l|..] == s[|s| - |l|..];
      if |l| < |s| - 1 {
        assert s[1..][|s| - 1 - |l| - 1] == s[|s| - |l| - 1];
      } else {
        SplitPartsFree(s[1..], sep);
        assert sep !in s[1..];
      }
    }
  }

  /** The last part of a split is a separator-free suffix of the string,
      preceded by the separator unless it is the whole string. */
  lemma SplitLast(s: string, sep: char)
    ensures var l := LastOf(Split(s, sep));
      && sep !in l
      && EndsWith(s, l)
      && (|l| < |s| ==> s[|s| - |l| - 1] == sep)
      && (sep !in s ==> l == s)
  {
    SplitPartsFree(s, sep);
    SplitLastSuffix(s, sep);
    if sep !in s {
      SplitFree(s, sep);
    }
  }

  /** `s[:n] + "..." if len(s) > n else s`: a long string cut to its first
      `n` characters, followed by three dots. */
  function Abbreviated(s: string, n: nat): (r: string)
    ensures |s| <= n ==> r == s
    ensures |s| > n ==> |r| == n + 3 && r[..n] == s[..n] && r[n..] == "..."
    ensures |r| <= n + 3
  {
    if |s| > n then s[..n] + "..." else s
  }

  /** `s.removeprefix(p)`: a leading `p` removed, once. */
  function StripPrefix(s: string, p: string): (r: string)
    ensures IsPrefix(p, s) ==> p + r == s
    ensures !IsPrefix(p, s) ==> r == s
  {
    if IsPrefix(p, s) then s[|p|..] else s
  }

  /** `s.rstrip(c)`: every trailing `c` removed. */
  function RStrip(s: string, c: char): (r: string)
    ensures IsPrefix(r, s)
    ensures r == [] || r[|r| - 1] != c
    ensures forall k :: |r| <= k < |s| ==> s[k] == c
    decreases |s|
  {
    if s != [] && s[|s| - 1] == c then RStrip(s[..|s| - 1], c) else s
  }

  /** How many times `c` occurs in `s`. */
  function CountChar(s: string, c: char): nat
    decreases |s|
  {
    if s == [] then 0 else (if s[0] == c then 1 else 0) + CountChar(s[1..], c)
  }

  lemma {:induction false} CountCharAppend(a: string, b: string, c: char)
    ensures CountChar(a + b, c) == CountChar(a, c) + CountChar(b, c)
    decreases |a|
  {
    if a == [] {
      assert a + b == b;
    } else {
      CountCharAppend(a[1..], b, c);
      assert (a + b)[1..] == a[1..] + b;
    }
  }

  /** A split has one part more than the string has separators. */
  lemma {:induction false} SplitCount(s: string, sep: char)
    ensures |Split(s, sep)| == CountChar(s, sep) + 1
    decreases |s|
  {
    if s != [] {
      SplitCount(s[1..], sep);
    }
  }

  /** Deleting every occurrence of a pattern never adds a character. */
  lemma {:induction false} DeleteAllCount(s: string, pat: string, c: char)
    requires pat != []
    ensures CountChar(ReplaceAll(s, pat, []), c) <= CountChar(s, c)
    decreases |s|
  {
    if s != [] {
      if IsPrefix(pat, s) {
        DeleteAllCount(s[|pat|..], pat, c);
        assert s == s[..|pat|] + s[|pat|..];
        CountCharAppend(s[..|pat|], s[|pat|..], c);
        assert [] + ReplaceAll(s[|pat|..], pat, []) == ReplaceAll(s[|pat|..], pat, []);
      } else {
        DeleteAllCount(s[1..], pat, c);
      }
    }
  }

  /** Joining three or more parts: the first two, then the join of the rest. */
  lemma JoinFirstTwo(parts: seq<string>, sep: string)
    requires |parts| >= 3
    ensures Join(parts, sep) == parts[0] + sep + parts[1] + sep + Join(parts[2..], sep)
  {
    assert parts[1..][1..] == parts[2..];
    assert parts[1..][0] == parts[1];
  }

  function LowerChar(c: char): char {
    if 'A' <= c <= 'Z' then (c as int + 32) as char else c
  }

  function UpperChar(c: char): char {
    if 'a' <= c <= 'z' then (c as int - 32) as char else c
  }

  predicate IsLetter(c: char) {
    'a' <= c <= 'z' || 'A' <= c <= 'Z'
  }

  /** `str.lower()` on ASCII letters. */
  function Lower(s: string): string {
    seq(|s|, i requires 0 <= i < |s| => LowerChar(s[i]))
  }

  /** `str.upper()` on ASCII letters. */
  function Upper(s: string): string {
    seq(|s|, i requires 0 <= i < |s| => UpperChar(s[i]))
  }

  /** `str.title()` on ASCII letters: a letter is upper-cased when the
      character before it is not a letter, lower-cased otherwise. */
  function Title(s: string): string {
    TitleAfter(s, false)
  }

  function TitleAfter(s: string, afterLetter: bool): string
    decreases |s|
  {
    if s == [] then []
    else
      var c := if !IsLetter(s[0]) then s[0]
               else if afterLetter then LowerChar(s[0]) else UpperChar(s[0]);
      [c] + TitleAfter(s[1..], IsLetter(s[0]))
  }

  function DigitChar(d: nat): (c: char)
    requires d < 10
    ensures IsDigit(c) && DigitValue(c) == d
  {
    ('0' as int + d) as char
  }

  predicate IsDigit(c: char) {
    '0' <= c <= '9'
  }

  function DigitValue(c: char): nat
    requires IsDigit(c)
  {
    c as int - '0' as int
  }

  /** Decimal representation of a natural number, as Python's `str(n)`. */
  function NatToString(n: nat): string
    decreases n
  {
    if n < 10 then [DigitChar(n)] else NatToString(n / 10) + [DigitChar(n % 10)]
  }

  /** Decimal representation of an integer, as Python's `str(i)` or `f"{i}"`. */
  function IntToString(i: int): string {
    if i < 0 then "-" + NatToString(-i) else NatToString(i)
  }

  predicate AllDigits(s: string) {
    forall k :: 0 <= k < |s| ==> IsDigit(s[k])
  }

  /** Value of a string of decimal digits. */
  function DigitsValue(s: string): nat
    requires AllDigits(s)
    decreases |s|
  {
    if s == [] then 0 else DigitsValue(s[..|s| - 1]) * 10 + DigitValue(s[|s| - 1])
  }

  /** The decimal form of `n` is a non-empty digit string whose value is `n`. */
  lemma {:induction false} NatToStringDigits(n: nat)
    ensures NatToString(n) != [] && AllDigits(NatToString(n))
    ensures DigitsValue(NatToString(n)) == n
    decreases n
  {
    if n >= 10 {
      var q, d := n / 10, n % 10;
      NatToStringDigits(q);
      var s := NatToString(n);
      assert s == NatToString(q) + [DigitChar(d)];
      assert s[..|s| - 1] == NatToString(q);
      assert DigitValue(s[|s| - 1]) == d;
      assert n == q * 10 + d;
    }
  }
}
