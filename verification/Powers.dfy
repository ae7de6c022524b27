/** Powers of two, bit widths and masks of unsigned numbers. */
module Powers {
  function Pow2(n: nat): (p: nat)
    ensures p >= 1
  {
    if n == 0 then 1 else 2 * Pow2(n - 1)
  }

  lemma {:induction false} PowersGrow(m: nat, n: nat)
    ensures m <= n ==> Pow2(m) <= Pow2(n)
    decreases n
  {
    if m < n { PowersGrow(m, n - 1); }
  }

  /** The number of bits of a value: the exact integer form of a rounded-up logarithm of value + 1. */
  function BitsNeeded(value: nat): nat {
    if value == 0 then 0 else 1 + BitsNeeded(value / 2)
  }

  /** It is the least width that fits the value. */
  lemma {:induction false} BitsNeededIsLeast(value: nat)
    ensures value < Pow2(BitsNeeded(value))
    ensures forall w: nat :: value < Pow2(w) ==> BitsNeeded(value) <= w
  {
    if value != 0 {
      BitsNeededIsLeast(value / 2);
      forall w: nat | value < Pow2(w) ensures BitsNeeded(value) <= w {
        assert value / 2 < Pow2(w - 1);
      }
    }
  }

  /** Bitwise conjunction. */
  function And(a: nat, b: nat): nat
    decreases a
  {
    if a == 0 || b == 0 then 0
    else 2 * And(a / 2, b / 2) + if a % 2 == 1 && b % 2 == 1 then 1 else 0
  }

  /** A mask of ones gives the remainder by a power of two; so it cuts a value off below that power, and
      leaves smaller values alone. */
  lemma {:induction false} AndMask(a: nat, n: nat)
    ensures And(a, Pow2(n) - 1) == a % Pow2(n)
    ensures And(a, Pow2(n) - 1) < Pow2(n)
    ensures a < Pow2(n) ==> And(a, Pow2(n) - 1) == a
    decreases n
  {
    if n > 0 && a > 0 {
      assert (Pow2(n) - 1) / 2 == Pow2(n - 1) - 1 && (Pow2(n) - 1) % 2 == 1;
      AndMask(a / 2, n - 1);
      RemainderHalves(a, Pow2(n - 1));
    }
  }

  lemma {:induction false} RemainderHalves(a: nat, p: nat)
    requires p >= 1
    ensures a % (2 * p) == 2 * (a / 2 % p) + a % 2
  {
    var q, r := a / 2 / p, a / 2 % p;
    assert a == 2 * (q * p + r) + a % 2 == (2 * p) * q + (2 * r + a % 2);
    Remainder(2 * p, q, 2 * r + a % 2);
  }

  lemma {:induction false} Multiple(t: int, d: nat)
    ensures t >= 1 ==> t * d >= d
    ensures t <= -1 ==> t * d + d <= 0
  {
    if t >= 1 { assert (t - 1) * d >= 0; }
    if t <= -1 { assert (-t - 1) * d >= 0; }
  }

  lemma {:induction false} Remainder(d: nat, k: nat, r: nat)
    requires r < d
    ensures (d * k + r) % d == r
  {
    var n := d * k + r;
    var t := n / d - k;
    assert t * d == r - n % d;
    Multiple(t, d);
  }
}
