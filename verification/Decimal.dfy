/** Positional notation: big-endian words of a fixed width, and the decimal digits of a number. */
module Decimal {

  /** The value of a digit sequence. */
  function Value(base: nat, digits: seq<nat>): nat {
    if digits == [] then 0 else base * Value(base, digits[..|digits| - 1]) + digits[|digits| - 1]
  }

  /** How many numbers a word of `width` bytes can hold. */
  function Capacity(width: nat): nat { if width == 0 then 1 else 256 * Capacity(width - 1) }

  /** `n` in exactly `width` bytes, the most significant first. */
  function Word(n: nat, width: nat): (digits: seq<nat>)
    ensures |digits| == width
    ensures forall d :: d in digits ==> d < 256
  {
    if width == 0 then [] else Word(n / 256, width - 1) + [n % 256]
  }

  lemma {:induction false} WordValue(n: nat, width: nat)
    requires n < Capacity(width)
    ensures Value(256, Word(n, width)) == n
  {
    if width > 0 {
      WordValue(n / 256, width - 1);
      assert Word(n, width)[..width - 1] == Word(n / 256, width - 1);
    }
  }

  /** Without leading zeros. */
  function Digits(n: nat): (digits: seq<nat>)
    ensures |digits| > 0
    ensures forall d :: d in digits ==> d < 10
    ensures digits[0] == 0 ==> digits == [0]
  {
    if n < 10 then [n] else Digits(n / 10) + [n % 10]
  }

  lemma {:induction false} DigitsValue(n: nat)
    ensures Value(10, Digits(n)) == n
  {
    var digits := Digits(n);
    if n < 10 {
      assert digits[..0] == [];
    } else {
      DigitsValue(n / 10);
      assert digits[..|digits| - 1] == Digits(n / 10);
    }
  }
}
