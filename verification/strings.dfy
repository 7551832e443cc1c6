/**
 * Decimal rendering of natural numbers (what a JavaScript template literal
 * prints for a non-negative integer), its inverse, and a first-occurrence search.
 */
module Strings {
  import opened Wrappers
  import opened Sequences

  predicate IsDigit(c: char) {
    '0' <= c <= '9'
  }

  predicate AllDigits(s: string) {
    forall i :: 0 <= i < |s| ==> IsDigit(s[i])
  }

  function DigitValue(c: char): nat
    requires IsDigit(c)
  {
    c as int - '0' as int
  }

  function DigitChar(n: nat): (c: char)
    requires n < 10
    ensures IsDigit(c) && DigitValue(c) == n
  {
    ('0' as int + n) as char
  }

  /** Decimal digits of `n`, most significant first, without leading zeros. */
  function NatToString(n: nat): (s: string)
    decreases n
  {
    if n < 10 then [DigitChar(n)] else NatToString(n / 10) + [DigitChar(n % 10)]
  }

  /** A rendering is a non-empty string of digits that starts with `0` only for zero itself. */
  lemma {:induction false} NatToStringDigits(n: nat)
    ensures |NatToString(n)| >= 1 && AllDigits(NatToString(n))
    ensures NatToString(n)[0] == '0' ==> n == 0
    decreases n
  {
    if n >= 10 {
      NatToStringDigits(n / 10);
    }
  }

  /** The number a string of decimal digits denotes. */
  function DigitsToNat(s: string): nat
    requires AllDigits(s)
  {
    if |s| == 0 then 0 else DigitsToNat(s[..|s| - 1]) * 10 + DigitValue(s[|s| - 1])
  }

  /** Reading back a rendered number gives the number. */
  lemma {:induction false} DigitsRoundTrip(n: nat)
    ensures AllDigits(NatToString(n)) && DigitsToNat(NatToString(n)) == n
    decreases n
  {
    NatToStringDigits(n);
    if n >= 10 {
      var s := NatToString(n);
      assert s[..|s| - 1] == NatToString(n / 10);
      DigitsRoundTrip(n / 10);
    }
  }

  lemma NatToStringInjective(a: nat, b: nat)
    ensures NatToString(a) == NatToString(b) ==> a == b
  {
    DigitsRoundTrip(a);
    DigitsRoundTrip(b);
  }

  /** Numbers below 10 print as one digit and numbers from 10 to 99 as two. */
  lemma NatToStringLength(n: nat)
    ensures n < 10 ==> |NatToString(n)| == 1
    ensures 10 <= n < 100 ==> |NatToString(n)| == 2
  {
  }

  /** `indexOf`: the first index at or after `from` where `s` holds `c`, if any. */
  function IndexOf(s: string, c: char, from: nat): (r: Option<nat>)
    requires from <= |s|
    ensures r.Some? ==> from <= r.value < |s| && s[r.value] == c
    ensures r.Some? ==> forall k :: from <= k < r.value ==> s[k] != c
    ensures r.None? ==> forall k :: from <= k < |s| ==> s[k] != c
  {
    FindFrom(s, x => x == c, from)
  }

  /** In `prefix + digits + [c] + rest`, with `c` not a digit, the first `c` after the prefix ends the digits. */
  lemma SeparatorAfterDigits(prefix: string, digits: string, c: char, rest: string)
    requires AllDigits(digits) && !IsDigit(c)
    ensures IndexOf(prefix + digits + [c] + rest, c, |prefix|) == Some(|prefix| + |digits|)
  {
    var s := prefix + digits + [c] + rest;
    forall k | |prefix| <= k < |prefix| + |digits|
      ensures s[k] != c
    {
      assert s[k] == digits[k - |prefix|];
    }
    FindFromFinds(s, x => x == c, |prefix|, |prefix| + |digits|);
  }

  /** Slicing `prefix + middle + [c] + rest` around the `c` gives back the middle and the rest. */
  lemma SlicesAroundSeparator(prefix: string, middle: string, c: char, rest: string)
    ensures var s := prefix + middle + [c] + rest;
      && s[|prefix|..|prefix| + |middle|] == middle
      && s[|prefix| + |middle| + 1..] == rest
  {
    var s := prefix + middle + [c] + rest;
    assert s[|prefix|..|prefix| + |middle|] == middle;
    assert s[|prefix| + |middle| + 1..] == rest;
  }
}
