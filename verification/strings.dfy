/**
 * The pieces of the Java runtime's text handling that the core relies on:
 * decimal formatting of a `long` (`Long.toString`, `StringBuilder.append(long)`),
 * decimal parsing (`Long.parseLong`), `StringBuilder.append(boolean)`, and
 * joining a list of parts with a separator.
 */
module Strings {
  import opened Wrappers

  /** Bounds of a Java `long`. */
  const MinLong: int := -0x8000_0000_0000_0000
  const MaxLong: int := 0x7FFF_FFFF_FFFF_FFFF

  predicate IsLong(n: int) {
    MinLong <= n <= MaxLong
  }

  predicate IsDigit(c: char) {
    '0' <= c <= '9'
  }

  predicate AllDigits(s: string) {
    forall i :: 0 <= i < |s| ==> IsDigit(s[i])
  }

  function DigitChar(d: nat): (c: char)
    requires d < 10
    ensures IsDigit(c)
  {
    (48 + d) as char
  }

  function DigitValue(c: char): (d: nat)
    requires IsDigit(c)
    ensures d < 10
  {
    (c as int) - 48
  }

  /** The decimal digits of `n`, most significant first, without leading zeros. */
  function NatToString(n: nat): (s: string)
    ensures |s| > 0 && AllDigits(s)
    decreases n
  {
    if n < 10 then [DigitChar(n)] else NatToString(n / 10) + [DigitChar(n % 10)]
  }

  /** The number a string of decimal digits denotes. */
  function DigitsValue(s: string): nat
    requires AllDigits(s)
  {
    if s == [] then 0 else DigitsValue(s[..|s| - 1]) * 10 + DigitValue(s[|s| - 1])
  }

  lemma {:induction false} DigitsValueOfNatToString(n: nat)
    ensures DigitsValue(NatToString(n)) == n
    decreases n
  {
    if n >= 10 {
      var s := NatToString(n);
      assert s[..|s| - 1] == NatToString(n / 10);
      DigitsValueOfNatToString(n / 10);
    }
  }

  /** The last digit of a number of two or more digits is its remainder by ten. */
  lemma NatToStringLastDigit(n: nat, init: string)
    requires n >= 10 && NatToString(n / 10) == init
    ensures NatToString(n) == init + [DigitChar(n % 10)]
  {
  }

  /** Java's `Long.toString(n)`: a minus sign for negative values, then the digits. */
  function LongToString(n: int): string {
    if n < 0 then "-" + NatToString(-n) else NatToString(n)
  }

  /** Java's `String.valueOf(boolean)`. */
  function BoolToString(b: bool): string {
    if b then "true" else "false"
  }

  /**
   * Java's `Long.parseLong(s)`: an optional `-` or `+` sign followed by at least one
   * decimal digit, denoting a value within the `long` range; anything else is the
   * `NumberFormatException` case, `None`.
   */
  function ParseLong(s: string): (r: Option<int>)
    ensures r.Some? ==> IsLong(r.value) && |s| > 0
    ensures r.Some? ==> !(s[0] == '-') ==> r.value >= 0
  {
    if |s| == 0 then None
    else
      var negative := s[0] == '-';
      var digits := if s[0] == '-' || s[0] == '+' then s[1..] else s;
      if |digits| == 0 || !AllDigits(digits) then None
      else
        var magnitude: int := DigitsValue(digits);
        var v := if negative then -magnitude else magnitude;
        if IsLong(v) then Some(v) else None
  }

  /** Parsing what `Long.toString` printed gives back the same `long`. */
  lemma ParseLongOfLongToString(n: int)
    requires IsLong(n)
    ensures ParseLong(LongToString(n)) == Some(n)
  {
    if n < 0 {
      var s := LongToString(n);
      assert s[1..] == NatToString(-n);
      DigitsValueOfNatToString(-n);
    } else {
      DigitsValueOfNatToString(n);
    }
  }

  lemma LongToStringHasNoSlash(n: int)
    ensures |LongToString(n)| > 0 && '/' !in LongToString(n)
  {
    var s := LongToString(n);
    if n < 0 {
      assert s == "-" + NatToString(-n);
      forall i | 0 <= i < |s| ensures s[i] != '/' {
        if i > 0 { assert s[i] == NatToString(-n)[i - 1]; }
      }
    }
  }

  /** `parts` joined with `sep` between neighbours, nothing before the first or after the last. */
  function Join(parts: seq<string>, sep: string): string {
    if |parts| == 0 then ""
    else if |parts| == 1 then parts[0]
    else Join(parts[..|parts| - 1], sep) + sep + parts[|parts| - 1]
  }

  /**
   * `head` followed by every part, each part followed by `sep`: what a
   * `StringBuilder` holding `head` holds after a loop appending each part and then `sep`.
   */
  function Terminated(head: string, parts: seq<string>, sep: string): string {
    if parts == [] then head else Terminated(head, parts[..|parts| - 1], sep) + parts[|parts| - 1] + sep
  }

  /** One more turn of the loop appends one more part and separator. */
  lemma TerminatedStep(head: string, parts: seq<string>, i: nat, sep: string)
    requires i < |parts|
    ensures Terminated(head, parts[..i + 1], sep) == Terminated(head, parts[..i], sep) + parts[i] + sep
  {
    assert parts[..i + 1][..i] == parts[..i];
  }

  /**
   * The loop-then-truncate idiom is a join: for a non-empty list, the text the loop
   * builds is the joined text followed by exactly one separator, so cutting
   * `|sep|` characters leaves no trailing separator.
   */
  lemma {:induction false} TerminatedIsJoinThenSeparator(head: string, parts: seq<string>, sep: string)
    requires parts != []
    ensures Terminated(head, parts, sep) == head + Join(parts, sep) + sep
    decreases |parts|
  {
    var init := parts[..|parts| - 1];
    var last := parts[|parts| - 1];
    if |parts| > 1 {
      TerminatedIsJoinThenSeparator(head, init, sep);
      assert head + Join(init, sep) + sep + last + sep == head + (Join(init, sep) + sep + last) + sep;
    } else {
      assert init == [];
      assert Join(parts, sep) == last;
    }
  }
}
