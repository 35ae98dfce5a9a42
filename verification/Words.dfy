/** `u128` words: what plain arithmetic operators keep of exact results in a build without overflow checks. */
module Words {
  import opened Base

  /** What a `u128` keeps of an exact amount: its remainder modulo 2^128. */
  function Wrap(x: int): (r: nat)
    ensures r <= U128_MAX
    ensures 0 <= x <= U128_MAX ==> r == x
    decreases x < 0, if x < 0 then -x else x
  {
    if x < 0 then Wrap(x + TWO_TO_128)
    else if x <= U128_MAX then x
    else Wrap(x - TWO_TO_128)
  }

  function WrappingAdd(a: int, b: int): nat {
    Wrap(a + b)
  }

  function WrappingSub(a: int, b: int): nat {
    Wrap(a - b)
  }

  function WrappingMul(a: nat, b: nat): nat {
    Wrap(a * b)
  }

  lemma {:induction false} WrapCongruent(x: int) returns (k: int)
    ensures Wrap(x) == x + k * TWO_TO_128
    decreases x < 0, if x < 0 then -x else x
  {
    k := 0;
    if x < 0 {
      k := WrapCongruent(x + TWO_TO_128);
      k := k + 1;
    } else if x > U128_MAX {
      k := WrapCongruent(x - TWO_TO_128);
      k := k - 1;
    }
  }

  lemma WrapIsRemainder(x: int)
    ensures Wrap(x) == x % TWO_TO_128
  {
    var k := WrapCongruent(x);
    hide Wrap;
    assert x == (x / TWO_TO_128) * TWO_TO_128 + x % TWO_TO_128;
  }

  /** The operators of the runtime compute modulo 2^128. */
  lemma OperatorsWrap(a: nat, b: nat)
    ensures WrappingAdd(a, b) == (a + b) % TWO_TO_128
    ensures WrappingSub(a, b) == (a - b) % TWO_TO_128
    ensures WrappingMul(a, b) == (a * b) % TWO_TO_128
  {
    WrapIsRemainder(a + b);
    WrapIsRemainder(a - b);
    WrapIsRemainder(a * b);
  }

  /** Numbers that differ by a multiple of 2^128 wrap alike. */
  lemma WrapAlike(x: int, y: int, k: int)
    requires y == x + k * TWO_TO_128
    ensures Wrap(x) == Wrap(y)
  {
    var i := WrapCongruent(x);
    var j := WrapCongruent(y);
    hide Wrap;
  }

  /** Arithmetic on wrapped amounts computes the wrapped exact result. */
  lemma WrapExact(a: int, b: int)
    ensures WrappingAdd(Wrap(a), b) == Wrap(a + b)
    ensures WrappingSub(Wrap(a), b) == Wrap(a - b)
  {
    var k := WrapCongruent(a);
    hide Wrap;
    WrapAlike(a + b, Wrap(a) + b, k);
    WrapAlike(a - b, Wrap(a) - b, k);
  }

  /** And so it does on two wrapped amounts. */
  lemma WrapBoth(a: int, b: int)
    ensures WrappingAdd(Wrap(a), Wrap(b)) == Wrap(a + b)
    ensures WrappingSub(Wrap(a), Wrap(b)) == Wrap(a - b)
  {
    var i := WrapCongruent(a);
    var j := WrapCongruent(b);
    hide Wrap;
    WrapAlike(a + b, Wrap(a) + Wrap(b), i + j);
    WrapAlike(a - b, Wrap(a) - Wrap(b), i - j);
  }

  /** A wrapped sum is no less than the first summand if and only if the wrapped summands do not wrap again. */
  lemma WrapCovers(a: int, b: int)
    ensures Wrap(a) <= Wrap(a + b) <==> Wrap(a) + Wrap(b) <= U128_MAX
  {
    WrapBoth(a, b);
    hide Wrap;
    if Wrap(a) + Wrap(b) > U128_MAX {
      WrapAlike(Wrap(a) + Wrap(b), Wrap(a) + Wrap(b) - TWO_TO_128, -1);
    }
  }
}
