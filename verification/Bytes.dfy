/** Bytes, ASCII literals and the `%lu` decimal form the servers print and browsers read back. */
module Bytes {
  newtype byte = b: int | 0 <= b < 256

  type uint16 = x: int | 0 <= x < 0x1_0000

  datatype Option<+T> = None | Some(value: T)

  const U32: nat := 0x1_0000_0000
  const CRLF: seq<byte> := [13, 10]

  function Ascii(s: string): (b: seq<byte>)
    ensures |b| == |s|
  {
    seq(|s|, i requires 0 <= i < |s| => (s[i] as int % 256) as byte)
  }

  /** The bytes are the characters. */
  lemma AsciiIs(s: string)
    requires forall c <- s :: c < 128 as char
    ensures forall i | 0 <= i < |s| :: Ascii(s)[i] as int == s[i] as int
  {
    forall i | 0 <= i < |s|
      ensures Ascii(s)[i] as int == s[i] as int
    {
      assert s[i] in s;
    }
  }

  lemma AsciiJoin(a: string, b: string)
    ensures Ascii(a + b) == Ascii(a) + Ascii(b)
  {
  }

  /** Text without a carriage return. */
  lemma NoCr(s: string)
    requires '\r' !in s && forall c <- s :: c < 128 as char
    ensures 13 !in Ascii(s)
  {
    AsciiIs(s);
    forall i | 0 <= i < |s|
      ensures Ascii(s)[i] != 13
    {
      assert s[i] in s;
    }
  }

  predicate IsDigit(b: byte) {
    48 <= b <= 57
  }

  ghost predicate AllDigits(s: seq<byte>) {
    forall b <- s :: IsDigit(b)
  }

  /** What `%lu` prints. */
  function Dec(n: nat): (d: seq<byte>)
    ensures d != [] && AllDigits(d)
  {
    if n < 10 then [(48 + n) as byte] else Dec(n / 10) + [(48 + n % 10) as byte]
  }

  /** The number a digit string denotes. */
  function Value(d: seq<byte>): nat
    requires AllDigits(d)
  {
    if d == [] then 0 else
      assert IsDigit(d[|d| - 1]);
      10 * Value(d[..|d| - 1]) + (d[|d| - 1] as int - 48)
  }

  /** What follows `p` in `s`, if `s` starts with it. */
  function After(s: seq<byte>, p: seq<byte>): (r: Option<seq<byte>>)
    ensures r.Some? ==> s == p + r.value
  {
    if p <= s then Some(s[|p|..]) else None
  }

  lemma AfterConcat(p: seq<byte>, r: seq<byte>)
    ensures After(p + r, p) == Some(r)
  {
    assert (p + r)[|p|..] == r;
  }

  lemma Assoc(a: seq<byte>, b: seq<byte>, c: seq<byte>)
    ensures (a + b) + c == a + (b + c)
  {
  }

  /** How many leading bytes of `s` are digits. */
  function DigitRun(s: seq<byte>): (k: nat)
    ensures k <= |s| && AllDigits(s[..k])
    ensures k < |s| ==> !IsDigit(s[k])
  {
    if s != [] && IsDigit(s[0]) then
      var k := DigitRun(s[1..]) + 1;
      assert s[..k] == [s[0]] + s[1..][..k - 1];
      k
    else 0
  }

  lemma {:induction false} DecValue(n: nat)
    ensures Value(Dec(n)) == n
  {
    if n >= 10 {
      DecValue(n / 10);
      assert Dec(n)[..|Dec(n)| - 1] == Dec(n / 10);
    }
  }

  /** A digit string followed by a non-digit (or by nothing) is found whole. */
  lemma {:induction false} DigitRunIs(d: seq<byte>, t: seq<byte>)
    requires AllDigits(d)
    requires t == [] || !IsDigit(t[0])
    ensures DigitRun(d + t) == |d|
  {
    if d == [] {
      assert d + t == t;
    } else {
      assert (d + t)[1..] == d[1..] + t;
      DigitRunIs(d[1..], t);
    }
  }
}
