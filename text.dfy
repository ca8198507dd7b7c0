/**
 * String helpers the client relies on implicitly: `Array.prototype.join` and the
 * decimal rendering of an integer inside a template literal.
 */
module Text {

  /** `parts.join(sep)`: the parts with `sep` between neighbours. */
  function Join(parts: seq<string>, sep: string): (joined: string)
    decreases |parts|
  {
    if |parts| == 0 then ""
    else if |parts| == 1 then parts[0]
    else parts[0] + sep + Join(parts[1..], sep)
  }

  /** Where part `i` starts inside `Join(parts, sep)`. */
  function JoinOffset(parts: seq<string>, sep: string, i: nat): (offset: nat)
    requires i < |parts|
    decreases i
  {
    if i == 0 then 0 else |parts[0]| + |sep| + JoinOffset(parts[1..], sep, i - 1)
  }

  /** `sub` is a contiguous piece of `s`. */
  ghost predicate Occurs(sub: string, s: string)
  {
    exists k :: 0 <= k <= |s| && sub <= s[k..]
  }

  /** Every part is found, unchanged, at its offset in the joined string. */
  lemma {:induction false} JoinPlacesPart(parts: seq<string>, sep: string, i: nat)
    requires i < |parts|
    ensures JoinOffset(parts, sep, i) + |parts[i]| <= |Join(parts, sep)|
    ensures parts[i] <= Join(parts, sep)[JoinOffset(parts, sep, i)..]
  {
    if |parts| == 1 {
    } else if i == 0 {
      assert Join(parts, sep) == parts[0] + (sep + Join(parts[1..], sep));
    } else {
      JoinPlacesPart(parts[1..], sep, i - 1);
      var head := parts[0] + sep;
      var rest := Join(parts[1..], sep);
      assert Join(parts, sep) == head + rest;
      assert (head + rest)[|head| + JoinOffset(parts[1..], sep, i - 1)..]
          == rest[JoinOffset(parts[1..], sep, i - 1)..];
    }
  }

  /** Joining loses no part: each one occurs in the result. */
  lemma JoinContainsEveryPart(parts: seq<string>, sep: string, i: nat)
    requires i < |parts|
    ensures Occurs(parts[i], Join(parts, sep))
  {
    JoinPlacesPart(parts, sep, i);
  }

  function DigitChar(d: nat): (c: char)
    requires d < 10
  {
    (48 + d) as char
  }

  predicate IsDigit(c: char)
  {
    '0' <= c <= '9'
  }

  /** The decimal numeral of a natural number, most significant digit first. */
  function NatText(n: nat): (s: string)
    ensures |s| >= 1
    ensures forall i :: 0 <= i < |s| ==> IsDigit(s[i])
    decreases n
  {
    if n < 10 then [DigitChar(n)] else NatText(n / 10) + [DigitChar(n % 10)]
  }

  /** The value of a numeral: the reading that `NatText` writes. */
  function NumeralValue(s: string): (value: nat)
    requires forall i :: 0 <= i < |s| ==> IsDigit(s[i])
    decreases |s|
  {
    if s == [] then 0
    else
      var last := s[|s| - 1];
      assert IsDigit(last);
      10 * NumeralValue(s[..|s| - 1]) + (last as int - '0' as int)
  }

  lemma {:induction false} NatTextRoundTrip(n: nat)
    ensures NumeralValue(NatText(n)) == n
    decreases n
  {
    var s := NatText(n);
    if n >= 10 {
      NatTextRoundTrip(n / 10);
      assert s[..|s| - 1] == NatText(n / 10);
    }
  }

  /** `${n}` for an integer: a minus sign before the numeral of a negative number. */
  function IntText(n: int): (text: string)
  {
    if n < 0 then "-" + NatText(-n) else NatText(n)
  }

  /** Different integers render differently, and no rendering is empty or starts with a letter. */
  lemma IntTextInjective(a: int, b: int)
    ensures IntText(a) == IntText(b) ==> a == b
    ensures |IntText(a)| >= 1 && (IntText(a)[0] == '-' || IsDigit(IntText(a)[0]))
  {
    NatTextRoundTrip(if a < 0 then -a else a);
    NatTextRoundTrip(if b < 0 then -b else b);
    if a < 0 {
      assert IntText(a)[1..] == NatText(-a);
    }
    if b < 0 {
      assert IntText(b)[1..] == NatText(-b);
    }
    assert IsDigit(NatText(if a < 0 then -a else a)[0]);
    assert IsDigit(NatText(if b < 0 then -b else b)[0]);
  }
}
