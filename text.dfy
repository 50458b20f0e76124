/** Decimal rendering of integers, as a JavaScript template literal prints an integral
    number (`level-${i + 1}`, `${cellSize}px`). */
module Text {

  function DigitChar(d: nat): (c: char)
    requires d < 10
    ensures '0' <= c <= '9'
  {
    ('0' as int + d) as char
  }

  function DigitValue(c: char): (d: nat)
    requires '0' <= c <= '9'
    ensures d < 10 && DigitChar(d) == c
  {
    c as int - '0' as int
  }

  /** The decimal digits of `n`, without leading zeros. */
  function NatText(n: nat): (s: string)
    ensures 1 <= |s|
    ensures forall i :: 0 <= i < |s| ==> '0' <= s[i] <= '9'
    ensures |s| > 1 ==> s[0] != '0'
  {
    if n < 10 then [DigitChar(n)] else NatText(n / 10) + [DigitChar(n % 10)]
  }

  /** The number a string of decimal digits denotes. */
  function ParseNat(s: string): nat
    requires forall i :: 0 <= i < |s| ==> '0' <= s[i] <= '9'
  {
    if |s| == 0 then 0 else 10 * ParseNat(s[..|s| - 1]) + DigitValue(s[|s| - 1])
  }

  /** Reading back the printed digits gives the number. */
  lemma {:induction false} ParseNatText(n: nat)
    ensures ParseNat(NatText(n)) == n
  {
    var s := NatText(n);
    if n < 10 {
      assert s[..|s| - 1] == [];
    } else {
      var digits := NatText(n / 10);
      assert s == digits + [DigitChar(n % 10)];
      assert s[..|s| - 1] == digits;
      assert DigitValue(s[|s| - 1]) == n % 10;
      ParseNatText(n / 10);
    }
  }

  /** Distinct numbers print differently. */
  lemma NatTextInjective(m: nat, n: nat)
    ensures NatText(m) == NatText(n) ==> m == n
  {
    ParseNatText(m);
    ParseNatText(n);
  }

  /** A signed integer, with a leading `-` when negative. */
  function IntText(n: int): (s: string)
    ensures n >= 0 ==> s == NatText(n)
    ensures n < 0 ==> s == "-" + NatText(-n)
  {
    if n >= 0 then NatText(n) else "-" + NatText(-n)
  }

  /** Equal decimal texts behind a common prefix mean equal numbers. */
  lemma PrefixedNatInjective(prefix: string, m: nat, n: nat)
    ensures prefix + NatText(m) == prefix + NatText(n) ==> m == n
  {
    if prefix + NatText(m) == prefix + NatText(n) {
      assert NatText(m) == (prefix + NatText(m))[|prefix|..];
      assert NatText(n) == (prefix + NatText(n))[|prefix|..];
      NatTextInjective(m, n);
    }
  }
}
