/** Record ids of the form `${prefix}${n}`: a fixed prefix followed by the decimal digits of n. */
module Ids {

  function DigitChar(d: nat): char
    requires d < 10
  {
    (48 + d) as char
  }

  function DigitValue(c: char): nat
  {
    if '0' <= c <= '9' then c as int - 48 else 0
  }

  /** The decimal rendering of n, as a JavaScript template literal prints a non-negative integer. */
  function Decimal(n: nat): (s: string)
    ensures 1 <= |s|
    ensures forall i :: 0 <= i < |s| ==> '0' <= s[i] <= '9'
    ensures s[0] == '0' ==> n == 0
    decreases n
  {
    if n < 10 then [DigitChar(n)]
    else
      var head := Decimal(n / 10);
      assert (head + [DigitChar(n % 10)])[0] == head[0];
      head + [DigitChar(n % 10)]
  }

  /** Reads a string of decimal digits back as a number. */
  function DecimalValue(s: string): nat
  {
    if |s| == 0 then 0 else DecimalValue(s[..|s| - 1]) * 10 + DigitValue(s[|s| - 1])
  }

  lemma {:induction false} DecimalRoundTrip(n: nat)
    ensures DecimalValue(Decimal(n)) == n
    decreases n
  {
    var s := Decimal(n);
    if n < 10 {
      assert s[..0] == [];
    } else {
      DecimalRoundTrip(n / 10);
      assert s[..|s| - 1] == Decimal(n / 10);
      assert s[|s| - 1] == DigitChar(n % 10);
    }
  }

  function MakeId(prefix: string, n: nat): string
  {
    prefix + Decimal(n)
  }

  /** Two ids with the same prefix are equal only when their numbers are. */
  lemma MakeIdInjective(prefix: string, a: nat, b: nat)
    ensures MakeId(prefix, a) == MakeId(prefix, b) <==> a == b
  {
    if MakeId(prefix, a) == MakeId(prefix, b) {
      assert MakeId(prefix, a)[|prefix|..] == Decimal(a);
      assert MakeId(prefix, b)[|prefix|..] == Decimal(b);
      DecimalRoundTrip(a);
      DecimalRoundTrip(b);
    }
  }

  /** Ids numbered by position, `prefix` + (i + 1) at position i, never repeat. */
  lemma PositionalIdsUnique<T>(xs: seq<T>, id: T -> string, prefix: string)
    requires forall i :: 0 <= i < |xs| ==> id(xs[i]) == MakeId(prefix, i + 1)
    ensures forall i, j :: 0 <= i < |xs| && 0 <= j < |xs| && id(xs[i]) == id(xs[j]) ==> i == j
  {
    forall i, j | 0 <= i < |xs| && 0 <= j < |xs| && id(xs[i]) == id(xs[j])
      ensures i == j
    {
      MakeIdInjective(prefix, i + 1, j + 1);
    }
  }
}
