/**
 * The handful of JavaScript string operations the session hooks rely on:
 * `String(n)` for integers, `padStart`, `split` on a one-character separator,
 * `Array.prototype.join`, `pop()` of a split and ASCII `toLowerCase`.
 */
module JsText {

  predicate IsDigit(c: char) {
    '0' <= c <= '9'
  }

  predicate AllDigits(s: string) {
    forall i :: 0 <= i < |s| ==> IsDigit(s[i])
  }

  /** No character of `s` is one of `seps`. */
  predicate Free(s: string, seps: set<char>) {
    forall i :: 0 <= i < |s| ==> s[i] !in seps
  }

  function DigitChar(d: nat): (c: char)
    requires d < 10
    ensures IsDigit(c) && c as int - '0' as int == d
  {
    (d + '0' as int) as char
  }

  function DigitValue(c: char): nat
    requires IsDigit(c)
  {
    c as int - '0' as int
  }

  /** `String(n)` for a non-negative integer: its decimal digits without leading zeros. */
  function NatToString(n: nat): (s: string)
    ensures AllDigits(s) && 1 <= |s|
    ensures |s| > 1 ==> s[0] != '0'
    decreases n
  {
    if n < 10 then [DigitChar(n)] else NatToString(n / 10) + [DigitChar(n % 10)]
  }

  /** One digit below 10, at most two below 100, at most three below 1000. */
  lemma {:induction false} NatToStringLength(n: nat)
    ensures n < 10 <==> |NatToString(n)| == 1
    ensures n < 100 <==> |NatToString(n)| <= 2
    ensures n < 1000 <==> |NatToString(n)| <= 3
    decreases n
  {
    if n >= 10 {
      NatToStringLength(n / 10);
    }
  }

  /** `String(i)` for any integer: a minus sign in front of a negative one. */
  function IntToString(i: int): (s: string)
    ensures |s| >= 1
    ensures forall k :: 0 <= k < |s| ==> IsDigit(s[k]) || s[k] == '-'
  {
    if i < 0 then "-" + NatToString(-i) else NatToString(i)
  }

  /** `String(i)` reads back: the digits of |i|, behind a minus sign exactly when i is negative. */
  lemma IntToStringReadBack(i: int)
    ensures var s := IntToString(i);
            && (i >= 0 ==> AllDigits(s) && ParseNat(s) == i)
            && (i < 0 ==> s[0] == '-' && AllDigits(s[1..]) && ParseNat(s[1..]) == -i)
  {
    if i < 0 {
      ParseNatToString(-i);
      assert IntToString(i)[1..] == NatToString(-i);
    } else {
      ParseNatToString(i);
    }
  }

  /** The value of a string of decimal digits; leading zeros are allowed. */
  function ParseNat(s: string): nat
    requires AllDigits(s)
  {
    if s == [] then 0 else 10 * ParseNat(s[..|s| - 1]) + DigitValue(s[|s| - 1])
  }

  lemma {:induction false} ParseNatToString(n: nat)
    ensures ParseNat(NatToString(n)) == n
  {
    if n >= 10 {
      var s := NatToString(n);
      assert s[..|s| - 1] == NatToString(n / 10);
      ParseNatToString(n / 10);
    }
  }

  lemma {:induction false} ParseNatOfZeros(k: nat)
    ensures AllDigits(Repeat('0', k)) && ParseNat(Repeat('0', k)) == 0
  {
    if k > 0 {
      assert Repeat('0', k)[..k - 1] == Repeat('0', k - 1);
      ParseNatOfZeros(k - 1);
    }
  }

  /** Leading zeros, as `padStart(_, "0")` adds them, do not change the value. */
  lemma {:induction false} ParseNatLeadingZeros(s: string, k: nat)
    requires AllDigits(s)
    ensures AllDigits(Repeat('0', k) + s) && ParseNat(Repeat('0', k) + s) == ParseNat(s)
    decreases |s|
  {
    ParseNatOfZeros(k);
    var z := Repeat('0', k) + s;
    if s == [] {
      assert z == Repeat('0', k);
    } else {
      var init := s[..|s| - 1];
      assert z[..|z| - 1] == Repeat('0', k) + init;
      assert z[|z| - 1] == s[|s| - 1];
      ParseNatLeadingZeros(init, k);
    }
  }

  /** `k` copies of the character `c`. */
  function Repeat(c: char, k: nat): (z: string)
    ensures |z| == k
    ensures forall i :: 0 <= i < k ==> z[i] == c
  {
    if k == 0 then "" else Repeat(c, k - 1) + [c]
  }

  /** `s.padStart(width, fill)` with a one-character fill: never truncates. */
  function PadStart(s: string, width: nat, fill: char): (r: string)
    ensures |r| == if |s| >= width then |s| else width
    ensures r[|r| - |s|..] == s
    ensures forall i :: 0 <= i < |r| - |s| ==> r[i] == fill
  {
    if |s| >= width then s else Repeat(fill, width - |s|) + s
  }

  /**
   * `s.split(sep)` where any character of `seps` separates (a one-character
   * string, or a character class such as `/[\\/]/`). Never empty: "" splits to [""].
   */
  function Split(s: string, seps: set<char>): (parts: seq<string>)
    ensures |parts| >= 1
    ensures |parts| == 1 ==> parts[0] == s
    decreases |s|
  {
    if s == [] then [""]
    else
      var rest := Split(s[1..], seps);
      if s[0] in seps then [""] + rest
      else [[s[0]] + rest[0]] + rest[1..]
  }

  /** `parts.join(sep)` with a one-character separator; `[].join(sep)` is "". */
  function Join(parts: seq<string>, sep: char): string
  {
    if |parts| == 0 then ""
    else if |parts| == 1 then parts[0]
    else parts[0] + [sep] + Join(parts[1..], sep)
  }

  function Last<T>(xs: seq<T>): T
    requires |xs| >= 1
  {
    xs[|xs| - 1]
  }

  /** `s.split(...).pop()`: the text after the last separator, or all of `s` if it has none. */
  function AfterLast(s: string, seps: set<char>): string {
    Last(Split(s, seps))
  }

  /** What follows the last separator is a separator-free tail of `s`, preceded by a separator unless it is all of `s`. */
  lemma AfterLastIsTail(s: string, seps: set<char>)
    ensures var r := AfterLast(s, seps);
            && Free(r, seps)
            && |r| <= |s| && r == s[|s| - |r|..]
            && (|r| < |s| ==> s[|s| - |r| - 1] in seps)
  {
    SplitLastIsTail(s, seps);
    SplitPartsFree(s, seps);
  }

  lemma {:induction false} SplitLastIsTail(s: string, seps: set<char>)
    ensures var t := Last(Split(s, seps));
            |t| <= |s| && t == s[|s| - |t|..] && (|t| < |s| ==> s[|s| - |t| - 1] in seps)
    decreases |s|
  {
    if s != [] {
      var tail := s[1..];
      var rest := Split(tail, seps);
      SplitLastIsTail(tail, seps);
      var t := Last(rest);
      assert s[|s| - |t|..] == tail[|tail| - |t|..];
      if s[0] in seps {
        assert Split(s, seps) == [""] + rest;
        if |t| < |tail| {
          assert s[|s| - |t| - 1] == tail[|tail| - |t| - 1];
        }
      } else if |rest| == 1 {
        assert Split(s, seps) == [[s[0]] + tail];
        assert [s[0]] + tail == s;
      } else {
        assert Split(s, seps) == [[s[0]] + rest[0]] + rest[1..];
        assert t != tail by {
          SplitSingleIffFree(tail, seps);
          SplitPartsFree(tail, seps);
          assert Free(t, seps) && !Free(tail, seps);
        }
        assert s[|s| - |t| - 1] == tail[|tail| - |t| - 1];
      }
    }
  }

  /** No part of a split holds a separator. */
  lemma {:induction false} SplitPartsFree(s: string, seps: set<char>)
    ensures forall k :: 0 <= k < |Split(s, seps)| ==> Free(Split(s, seps)[k], seps)
    decreases |s|
  {
    if s != [] {
      SplitPartsFree(s[1..], seps);
    }
  }

  /** A string splits into one part exactly when it holds no separator. */
  lemma {:induction false} SplitSingleIffFree(s: string, seps: set<char>)
    ensures |Split(s, seps)| == 1 <==> Free(s, seps)
    decreases |s|
  {
    if s != [] {
      SplitSingleIffFree(s[1..], seps);
    }
  }

  lemma {:induction false} SplitOfFree(s: string, seps: set<char>)
    requires Free(s, seps)
    ensures Split(s, seps) == [s]
    decreases |s|
  {
    if s != [] {
      SplitOfFree(s[1..], seps);
    }
  }

  lemma {:induction false} SplitAfterSeparator(a: string, c: char, b: string, seps: set<char>)
    requires Free(a, seps) && c in seps
    ensures Split(a + [c] + b, seps) == [a] + Split(b, seps)
    decreases |a|
  {
    if a == [] {
      assert (a + [c] + b)[1..] == b;
    } else {
      assert (a + [c] + b)[1..] == a[1..] + [c] + b;
      SplitAfterSeparator(a[1..], c, b, seps);
      var rest := Split(a[1..] + [c] + b, seps);
      assert rest[0] == a[1..] && rest[1..] == Split(b, seps);
      assert [a[0]] + a[1..] == a;
    }
  }

  /**
   * Splitting a join gives back every part up to the last one; the last is split in turn
   * (it comes back whole when it holds no separator).
   */
  lemma {:induction false} SplitJoin(parts: seq<string>, sep: char, seps: set<char>)
    requires |parts| >= 1 && sep in seps
    requires forall k :: 0 <= k < |parts| - 1 ==> Free(parts[k], seps)
    ensures Split(Join(parts, sep), seps) == parts[..|parts| - 1] + Split(Last(parts), seps)
  {
    if |parts| > 1 {
      var tail := parts[1..];
      var joined := Join(tail, sep);
      assert Join(parts, sep) == parts[0] + [sep] + joined;
      SplitJoin(tail, sep, seps);
      SplitAfterSeparator(parts[0], sep, joined, seps);
      DropLastOfTail(parts);
    }
  }

  lemma DropLastOfTail<T>(xs: seq<T>)
    requires |xs| > 1
    ensures [xs[0]] + xs[1..][..|xs| - 2] == xs[..|xs| - 1]
    ensures Last(xs[1..]) == Last(xs)
  {
  }

  /** Splitting a join of separator-free parts gives back the parts. */
  lemma SplitJoinFree(parts: seq<string>, sep: char)
    requires |parts| >= 1
    requires forall k :: 0 <= k < |parts| ==> Free(parts[k], {sep})
    ensures Split(Join(parts, sep), {sep}) == parts
  {
    SplitJoin(parts, sep, {sep});
    SplitOfFree(Last(parts), {sep});
  }

  function LowerChar(c: char): char {
    if 'A' <= c <= 'Z' then (c as int - 'A' as int + 'a' as int) as char else c
  }

  /** `s.toLowerCase()` on ASCII letters. */
  function Lower(s: string): (r: string)
    ensures |r| == |s|
  {
    if s == [] then "" else [LowerChar(s[0])] + Lower(s[1..])
  }

  /**
   * Each capital becomes its own small letter, every other character is kept, no capital
   * survives, and lower-casing twice changes nothing.
   */
  lemma {:induction false} LowerLeavesNoCapitals(s: string)
    ensures forall i :: 0 <= i < |s| && 'A' <= s[i] <= 'Z' ==>
      Lower(s)[i] as int == s[i] as int - 'A' as int + 'a' as int
    ensures forall i :: 0 <= i < |s| ==> !('A' <= Lower(s)[i] <= 'Z')
    ensures forall i :: 0 <= i < |s| && !('A' <= s[i] <= 'Z') ==> Lower(s)[i] == s[i]
    ensures Lower(Lower(s)) == Lower(s)
  {
    if s != [] {
      LowerLeavesNoCapitals(s[1..]);
      assert Lower(s)[1..] == Lower(s[1..]);
    }
  }
}
