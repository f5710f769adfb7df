/** Decimal and hexadecimal text as Go's `%d` and `%02X` verbs print it. */
module Rendering {

  function Digit(d: nat): char
    requires d < 10
  {
    ('0' as int + d) as char
  }

  function Decimal(n: nat): string {
    if n < 10 then [Digit(n)] else Decimal(n / 10) + [Digit(n % 10)]
  }

  /** `%d` of a signed integer. */
  function DecimalInt(n: int): string {
    if n < 0 then "-" + Decimal(-n) else Decimal(n)
  }

  function HexDigit(d: nat): char
    requires d < 16
  {
    if d < 10 then Digit(d) else ('A' as int + d - 10) as char
  }

  /** `%02X` of a byte. */
  function HexByte(n: nat): (s: string)
    requires n < 256
    ensures |s| == 2
  {
    [HexDigit(n / 16), HexDigit(n % 16)]
  }

  function DottedQuad(a: nat, b: nat, c: nat, d: nat): string {
    Decimal(a) + "." + (Decimal(b) + "." + (Decimal(c) + "." + Decimal(d)))
  }

  predicate IsDigit(c: char) { '0' <= c <= '9' }

  /** Reads decimal digits back into a number. */
  function ParseDecimal(s: string): int {
    if s == "" then 0 else 10 * ParseDecimal(s[..|s| - 1]) + (s[|s| - 1] as int - '0' as int)
  }

  lemma {:induction false} DecimalRoundTrip(n: nat)
    ensures ParseDecimal(Decimal(n)) == n
    ensures |Decimal(n)| > 0 && forall i :: 0 <= i < |Decimal(n)| ==> IsDigit(Decimal(n)[i])
    ensures n > 0 ==> Decimal(n)[0] != '0'
  {
    if n < 10 {
      assert Decimal(n)[..0] == "";
    } else {
      DecimalRoundTrip(n / 10);
      assert Decimal(n)[..|Decimal(n)| - 1] == Decimal(n / 10);
    }
  }

  lemma DecimalIntInjective(m: int, n: int)
    ensures DecimalInt(m) == DecimalInt(n) <==> m == n
  {
    DecimalRoundTrip(if m < 0 then -m else m);
    DecimalRoundTrip(if n < 0 then -n else n);
    if DecimalInt(m) == DecimalInt(n) {
      assert DecimalInt(m)[0] == DecimalInt(n)[0];
      assert m < 0 <==> n < 0;
      if m < 0 {
        assert DecimalInt(m)[1..] == Decimal(-m) && DecimalInt(n)[1..] == Decimal(-n);
      }
    }
  }

  /** The value of an upper-case hexadecimal digit. */
  function HexValue(c: char): int { if IsDigit(c) then c as int - '0' as int else 10 + (c as int - 'A' as int) }

  predicate IsHexDigit(c: char) { IsDigit(c) || 'A' <= c <= 'F' }

  lemma HexByteRoundTrip(n: nat)
    requires n < 256
    ensures var s := HexByte(n); IsHexDigit(s[0]) && IsHexDigit(s[1]) && 16 * HexValue(s[0]) + HexValue(s[1]) == n
  {
  }

  lemma HexByteInjective(m: nat, n: nat)
    requires m < 256 && n < 256
    ensures HexByte(m) == HexByte(n) <==> m == n
  {
  }

  /** The first separator splits a text uniquely when the heads are free of it. */
  lemma {:induction false} SplitUnique(a: string, r: string, b: string, t: string)
    requires forall i :: 0 <= i < |a| ==> a[i] != '.'
    requires forall i :: 0 <= i < |b| ==> b[i] != '.'
    requires a + "." + r == b + "." + t
    ensures a == b && r == t
  {
    var s, u := a + "." + r, b + "." + t;
    assert s[|a|] == '.' && u[|b|] == '.';
    assert forall i :: 0 <= i < |b| ==> u[i] == b[i];
    assert forall i :: 0 <= i < |a| ==> s[i] == a[i];
    assert a == s[..|a|] && b == u[..|b|];
    assert r == s[|a| + 1..] && t == u[|b| + 1..];
  }

  lemma FieldInjective(a: nat, r: string, b: nat, t: string)
    ensures Decimal(a) + "." + r == Decimal(b) + "." + t <==> a == b && r == t
  {
    DecimalRoundTrip(a);
    DecimalRoundTrip(b);
    if Decimal(a) + "." + r == Decimal(b) + "." + t {
      SplitUnique(Decimal(a), r, Decimal(b), t);
    }
  }

  lemma DottedQuadInjective(a: nat, b: nat, c: nat, d: nat, w: nat, x: nat, y: nat, z: nat)
    ensures DottedQuad(a, b, c, d) == DottedQuad(w, x, y, z) <==> a == w && b == x && c == y && d == z
  {
    var cd, yz := Decimal(c) + "." + Decimal(d), Decimal(y) + "." + Decimal(z);
    FieldInjective(a, Decimal(b) + "." + cd, w, Decimal(x) + "." + yz);
    FieldInjective(b, cd, x, yz);
    FieldInjective(c, Decimal(d), y, Decimal(z));
    DecimalRoundTrip(d);
    DecimalRoundTrip(z);
  }
}
