/** Strings as Python handles them: decimal digits, `str.split`/`str.join`, prefixes and substrings. */
module Text {
  import opened Wrappers

  predicate IsDigit(c: char) { '0' <= c <= '9' }

  predicate AllDigits(s: string) { forall i :: 0 <= i < |s| ==> IsDigit(s[i]) }

  function DigitChar(d: nat): (c: char)
    requires d < 10
    ensures IsDigit(c) && (c as int) - ('0' as int) == d
  {
    ('0' as int + d) as char
  }

  function DigitValue(c: char): nat
    requires IsDigit(c)
  {
    (c as int) - ('0' as int)
  }

  /** `str(n)` for a non-negative integer: its decimal digits, without leading zeros. */
  function NatToString(n: nat): (s: string)
    ensures |s| > 0
  {
    if n < 10 then [DigitChar(n)] else NatToString(n / 10) + [DigitChar(n % 10)]
  }

  /** `str(n)` is a non-empty run of digits that starts with `0` only when it is `"0"`. */
  lemma {:induction false} NatToStringDigits(n: nat)
    ensures var s := NatToString(n);
      && |s| > 0 && AllDigits(s)
      && (|s| > 1 ==> s[0] != '0')
  {
    if n >= 10 {
      NatToStringDigits(n / 10);
    }
  }

  /** `str(i)` for any integer. */
  function IntToString(i: int): string
  {
    if i < 0 then "-" + NatToString(-i) else NatToString(i)
  }

  /** `str(i)` is a sign and digits: it never holds an underscore. */
  lemma IntToStringNoUnderscore(i: int)
    ensures '_' !in IntToString(i)
  {
    var n := if i < 0 then -i else i;
    NatToStringDigits(n);
    var s := IntToString(i);
    if i < 0 {
      assert s == "-" + NatToString(n);
      forall k | 1 <= k < |s| ensures s[k] != '_' {
        assert s[k] == NatToString(n)[k - 1];
      }
    }
  }

  /** `str(i)` is non-empty and starts with `-` exactly for a negative `i`. */
  lemma IntToStringSign(i: int)
    ensures |IntToString(i)| > 0 && (IntToString(i)[0] == '-' <==> i < 0)
  {
    if i >= 0 {
      NatToStringDigits(i);
      assert IsDigit(NatToString(i)[0]);
    }
  }

  /** Distinct integers print differently. */
  lemma IntToStringInjective(i: int, j: int)
    requires IntToString(i) == IntToString(j)
    ensures i == j
  {
    IntToStringSign(i);
    IntToStringSign(j);
    if i < 0 {
      assert NatToString(-i) == IntToString(i)[1..];
      assert NatToString(-j) == IntToString(j)[1..];
      DigitsValueOfNatToString(-i);
      DigitsValueOfNatToString(-j);
    } else {
      DigitsValueOfNatToString(i);
      DigitsValueOfNatToString(j);
    }
  }

  /** In a string without underscores followed by text starting with one, the first underscore is right after it. */
  lemma FirstUnderscoreAfter(x: string, rx: string)
    requires '_' !in x && |rx| > 0 && rx[0] == '_'
    ensures IndexOf(x + rx, "_") == Some(|x|)
  {
    var s := x + rx;
    assert s[|x|..|x| + 1] == [rx[0]];
    forall j | 0 <= j < |x| ensures !OccursAt(s, "_", j) {
      assert s[j..j + 1] == [x[j]];
    }
    IndexOfFirst(s, "_", |x|);
  }

  /**
   * Two strings without underscores, each followed by text that starts with an
   * underscore, are told apart by the first underscore.
   */
  lemma UnderscoreSplit(x: string, rx: string, y: string, ry: string)
    requires '_' !in x && '_' !in y
    requires |rx| > 0 && rx[0] == '_' && |ry| > 0 && ry[0] == '_'
    requires x + rx == y + ry
    ensures x == y && rx == ry
  {
    FirstUnderscoreAfter(x, rx);
    FirstUnderscoreAfter(y, ry);
    assert x == (x + rx)[..|x|];
    assert y == (y + ry)[..|y|];
    assert rx == (x + rx)[|x|..];
    assert ry == (y + ry)[|y|..];
  }

  /** `int(s)` for a string of decimal digits (leading zeros allowed). */
  function DigitsValue(s: string): nat
    requires AllDigits(s)
  {
    if s == [] then 0 else 10 * DigitsValue(s[..|s| - 1]) + DigitValue(s[|s| - 1])
  }

  lemma {:induction false} DigitsValueOfNatToString(n: nat)
    ensures AllDigits(NatToString(n)) && DigitsValue(NatToString(n)) == n
  {
    NatToStringDigits(n);
    if n >= 10 {
      var s := NatToString(n);
      assert s[..|s| - 1] == NatToString(n / 10);
      DigitsValueOfNatToString(n / 10);
    }
  }

  /** Length of the longest prefix of `s` made of digits: what a greedy `\d+` consumes. */
  function DigitRun(s: string): (k: nat)
    ensures k <= |s| && AllDigits(s[..k])
    ensures k < |s| ==> !IsDigit(s[k])
  {
    if s == [] || !IsDigit(s[0]) then 0
    else
      var k := 1 + DigitRun(s[1..]);
      assert s[..k] == [s[0]] + s[1..][..k - 1];
      k
  }

  lemma {:induction false} DigitRunOfDigits(a: string, rest: string)
    requires AllDigits(a)
    requires rest == [] || !IsDigit(rest[0])
    ensures DigitRun(a + rest) == |a|
  {
    if a != [] {
      assert (a + rest)[1..] == a[1..] + rest;
      DigitRunOfDigits(a[1..], rest);
    } else {
      assert a + rest == rest;
    }
  }

  predicate StartsWith(s: string, prefix: string) { |prefix| <= |s| && s[..|prefix|] == prefix }

  predicate EndsWith(s: string, suffix: string) { |suffix| <= |s| && s[|s| - |suffix|..] == suffix }

  predicate OccursAt(s: string, pat: string, i: nat) { i + |pat| <= |s| && s[i..i + |pat|] == pat }

  /** Python's `pat in s` for strings: a substring test. */
  predicate Contains(s: string, pat: string) { exists i | 0 <= i <= |s| :: OccursAt(s, pat, i) }

  /** `s.find(pat)`, with None for -1. */
  function IndexOf(s: string, pat: string): (r: Option<nat>)
    requires |pat| > 0
    ensures r.Some? ==> OccursAt(s, pat, r.value)
    ensures r.Some? ==> forall j :: 0 <= j < r.value ==> !OccursAt(s, pat, j)
    ensures r.None? ==> forall j :: 0 <= j <= |s| ==> !OccursAt(s, pat, j)
    decreases |s|
  {
    if |s| < |pat| then None
    else if s[..|pat|] == pat then Some(0)
    else
      var r := IndexOf(s[1..], pat);
      assert s[0..|pat|] == s[..|pat|];
      forall j | 1 <= j <= |s| ensures OccursAt(s, pat, j) <==> OccursAt(s[1..], pat, j - 1) {
        OccursAtShift(s, pat, j - 1);
      }
      match r
      case None => None
      case Some(i) => Some(i + 1)
  }

  /** The occurrence with none before it is the one `IndexOf` finds. */
  lemma IndexOfFirst(s: string, pat: string, i: nat)
    requires |pat| > 0 && OccursAt(s, pat, i)
    requires forall j :: 0 <= j < i ==> !OccursAt(s, pat, j)
    ensures IndexOf(s, pat) == Some(i)
  {
    assert i <= |s|;
  }

  lemma OccursAtShift(s: string, pat: string, j: nat)
    requires |s| > 0
    ensures OccursAt(s, pat, j + 1) <==> OccursAt(s[1..], pat, j)
  {
    if j + 1 + |pat| <= |s| {
      assert s[j + 1..j + 1 + |pat|] == s[1..][j..j + |pat|];
    }
  }

  /** `s.split(sep)`: the pieces between the leftmost non-overlapping occurrences of `sep`. */
  function Split(s: string, sep: string): (parts: seq<string>)
    requires |sep| > 0
    ensures |parts| >= 1
    decreases |s|
  {
    match IndexOf(s, sep)
    case None => [s]
    case Some(i) => [s[..i]] + Split(s[i + |sep|..], sep)
  }

  /** No piece of a split holds the separator. */
  lemma {:induction false} SplitPartsHoldNoSeparator(s: string, sep: string)
    requires |sep| > 0
    ensures forall k :: 0 <= k < |Split(s, sep)| ==> !Contains(Split(s, sep)[k], sep)
    decreases |s|
  {
    match IndexOf(s, sep)
    case None =>
    case Some(i) =>
      forall j | 0 <= j <= i ensures !OccursAt(s[..i], sep, j) {
        OccursAtPrefix(s, sep, i, j);
      }
      SplitPartsHoldNoSeparator(s[i + |sep|..], sep);
      assert Split(s, sep) == [s[..i]] + Split(s[i + |sep|..], sep);
  }

  /** A split with more than one piece found the separator, and its first piece ends there. */
  lemma SplitFound(s: string, sep: string) returns (i: nat)
    requires |sep| > 0 && |Split(s, sep)| >= 2
    ensures IndexOf(s, sep) == Some(i)
    ensures Split(s, sep) == [s[..i]] + Split(s[i + |sep|..], sep)
  {
    i := IndexOf(s, sep).value;
  }

  lemma OccursAtPrefix(s: string, pat: string, n: nat, j: nat)
    requires n <= |s|
    ensures OccursAt(s[..n], pat, j) ==> OccursAt(s, pat, j)
  {
    if OccursAt(s[..n], pat, j) {
      assert s[..n][j..j + |pat|] == s[j..j + |pat|];
    }
  }

  lemma OccursAtSuffix(s: string, pat: string, n: nat, j: nat)
    requires n <= |s|
    ensures OccursAt(s[n..], pat, j) <==> OccursAt(s, pat, n + j)
  {
    if n + j + |pat| <= |s| {
      assert s[n..][j..j + |pat|] == s[n + j..n + j + |pat|];
    }
  }

  /** `sep.join(parts)`. */
  function Join(parts: seq<string>, sep: string): string
  {
    if |parts| == 0 then []
    else if |parts| == 1 then parts[0]
    else parts[0] + sep + Join(parts[1..], sep)
  }

  lemma JoinCons(a: string, tail: seq<string>, sep: string)
    requires |tail| >= 1
    ensures Join([a] + tail, sep) == a + sep + Join(tail, sep)
  {
    assert ([a] + tail)[1..] == tail;
  }

  lemma SplitAround(s: string, sep: string, i: nat)
    requires OccursAt(s, sep, i)
    ensures s == s[..i] + sep + s[i + |sep|..]
  {
    assert s == s[..i] + s[i..i + |sep|] + s[i + |sep|..];
  }

  lemma {:induction false} JoinSplit(s: string, sep: string)
    requires |sep| > 0
    ensures Join(Split(s, sep), sep) == s
    decreases |s|
  {
    match IndexOf(s, sep)
    case None =>
    case Some(i) =>
      var rest := s[i + |sep|..];
      JoinSplit(rest, sep);
      JoinCons(s[..i], Split(rest, sep), sep);
      SplitAround(s, sep, i);
  }

  /**
   * A segment that `split('--')` gives back unchanged when it is followed by `--`:
   * it holds no `--` and does not end with `-` (otherwise the separator is found
   * one character early).
   */
  predicate PlainSegment(x: string)
  {
    !Contains(x, "--") && (x == [] || x[|x| - 1] != '-')
  }

  /** A piece that a `--` follows is plain: otherwise that `--` would have been found a character earlier. */
  lemma SplitFirstPiecePlain(s: string)
    requires |Split(s, "--")| >= 2
    ensures PlainSegment(Split(s, "--")[0])
  {
    var i := SplitFound(s, "--");
    SplitPartsHoldNoSeparator(s, "--");
    var piece := s[..i];
    assert piece == Split(s, "--")[0];
    if i > 0 {
      assert !OccursAt(s, "--", i - 1);
      assert s[i..i + 2] == "--";
      assert s[i - 1..i + 1] == [s[i - 1], s[i]];
      assert piece[|piece| - 1] == s[i - 1];
    }
  }

  lemma SplitAfterPlainSegment(x: string, rest: string)
    requires PlainSegment(x)
    ensures Split(x + "--" + rest, "--") == [x] + Split(rest, "--")
  {
    var s := x + "--" + rest;
    assert OccursAt(s, "--", |x|) by { assert s[|x|..|x| + 2] == "--"; }
    forall j | 0 <= j < |x| ensures !OccursAt(s, "--", j) {
      assert s[j] == x[j];
      if j + 2 <= |x| {
        assert s[j..j + 2] == x[j..j + 2];
        assert !OccursAt(x, "--", j);
      } else {
        assert j == |x| - 1 && x[j] != '-';
        assert s[j..j + 2][0] == s[j];
      }
    }
    var r := IndexOf(s, "--");
    assert r == Some(|x|);
    assert s[..|x|] == x;
    assert s[|x| + 2..] == rest;
  }
}
