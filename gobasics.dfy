/** The Go built-ins the core relies on: bytes, `uint64`, the conversions
    between `string` and `[]byte`, the conversion `int(uint64)` on a 64-bit
    platform, and `strconv.Itoa`. */
module GoBasics {

  type byte = x: int | 0 <= x < 256

  const TWO_63: int := 0x8000_0000_0000_0000
  const TWO_64: int := 0x1_0000_0000_0000_0000

  type uint64 = x: int | 0 <= x < TWO_64

  /** Go's `int(x)` for a `uint64` on a 64-bit platform: two's-complement
      reinterpretation, so values from 2^63 on become negative. */
  function IntOf(x: uint64): (r: int)
    ensures -TWO_63 <= r < TWO_63
    ensures r % TWO_64 == x
  {
    if x < TWO_63 then x else x - TWO_64
  }

  lemma IntOfInjective(x: uint64, y: uint64)
    requires IntOf(x) == IntOf(y)
    ensures x == y
  {
  }

  /** Go's `string(b)`: one character per byte, carrying the byte's value. */
  function Str(b: seq<byte>): (s: string)
    ensures |s| == |b|
    ensures forall i :: 0 <= i < |b| ==> s[i] as int == b[i]
  {
    seq(|b|, i requires 0 <= i < |b| => b[i] as char)
  }

  /** A string each of whose characters fits in one byte. */
  predicate IsByteString(s: string)
  {
    forall i :: 0 <= i < |s| ==> s[i] as int < 256
  }

  /** Go's `[]byte(s)` for a string of one-byte characters. */
  function Bytes(s: string): (b: seq<byte>)
    requires IsByteString(s)
    ensures |b| == |s|
    ensures forall i :: 0 <= i < |s| ==> b[i] == s[i] as int
  {
    seq(|s|, i requires 0 <= i < |s| => s[i] as int)
  }

  /** `[]byte(string(b))` gives back `b`, and `string([]byte(s))` gives back `s`. */
  lemma BytesStrRoundTrip(b: seq<byte>, s: string)
    requires IsByteString(s)
    ensures IsByteString(Str(b)) && Bytes(Str(b)) == b
    ensures Str(Bytes(s)) == s
  {
    assert Bytes(Str(b)) == b;
    assert Str(Bytes(s)) == s;
  }

  predicate IsDigit(c: char)
  {
    '0' <= c <= '9'
  }

  predicate AllDigits(s: string)
  {
    forall i :: 0 <= i < |s| ==> IsDigit(s[i])
  }

  function Digit(d: nat): (c: char)
    requires d < 10
    ensures IsDigit(c) && c as int - '0' as int == d
  {
    ('0' as int + d) as char
  }

  /** The base-10 rendering of a natural number, without leading zeros. */
  function Decimal(n: nat): (s: string)
    ensures |s| >= 1 && AllDigits(s)
    ensures s[0] == '0' ==> n == 0
    decreases n
  {
    if n < 10 then [Digit(n)] else Decimal(n / 10) + [Digit(n % 10)]
  }

  /** The natural number a string of digits denotes (reference reading of `Decimal`). */
  function ParseDecimal(s: string): nat
    requires AllDigits(s)
  {
    if s == [] then 0
    else ParseDecimal(s[..|s| - 1]) * 10 + (s[|s| - 1] as int - '0' as int)
  }

  lemma {:induction false} ParseDecimalOfDecimal(n: nat)
    ensures ParseDecimal(Decimal(n)) == n
    decreases n
  {
    if n >= 10 {
      var s := Decimal(n);
      assert s[..|s| - 1] == Decimal(n / 10);
      ParseDecimalOfDecimal(n / 10);
    }
  }

  lemma DecimalInjective(m: nat, n: nat)
    requires Decimal(m) == Decimal(n)
    ensures m == n
  {
    ParseDecimalOfDecimal(m);
    ParseDecimalOfDecimal(n);
  }

  /** Go's `strconv.Itoa`: an optional minus sign, then the decimal digits of the magnitude. */
  function Itoa(x: int): (s: string)
    ensures |s| >= 1
    ensures x < 0 <==> s[0] == '-'
  {
    if x < 0 then "-" + Decimal(-x) else Decimal(x)
  }

  /** Different integers have different renderings. */
  lemma ItoaInjective(x: int, y: int)
    requires Itoa(x) == Itoa(y)
    ensures x == y
  {
    if x < 0 {
      assert Itoa(x)[1..] == Decimal(-x);
      assert Itoa(y)[1..] == Decimal(-y);
      DecimalInjective(-x, -y);
    } else {
      DecimalInjective(x, y);
    }
  }

  /** Two strings with a common prefix are equal exactly when the rests are. */
  lemma PrefixCancel(p: string, s: string, t: string)
    requires p + s == p + t
    ensures s == t
  {
    assert s == (p + s)[|p|..];
    assert t == (p + t)[|p|..];
  }
}
