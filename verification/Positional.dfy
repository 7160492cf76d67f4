// Positional numerals and the bit operations of a 16-bit register, both on
// natural numbers. A byte stream and a symbol stream denote the same room code
// exactly when their positional values agree, so no proof has to look at bits.
module Positional {

  type Byte = n: nat | n < 256

  function Pow(base: nat, exponent: nat): nat {
    if exponent == 0 then 1 else base * Pow(base, exponent - 1)
  }

  // The number a most-significant-first digit sequence stands for.
  function Value(base: nat, digits: seq<nat>): nat {
    if digits == [] then 0
    else base * Value(base, digits[..|digits| - 1]) + digits[|digits| - 1]
  }

  predicate InBase(base: nat, digits: seq<nat>) {
    forall i :: 0 <= i < |digits| ==> digits[i] < base
  }

  // The `count` low-order digits of n, most significant first.
  function Digits(base: nat, count: nat, n: nat): (digits: seq<nat>)
    requires base > 0
    ensures |digits| == count && InBase(base, digits)
  {
    if count == 0 then [] else Digits(base, count - 1, n / base) + [n % base]
  }

  lemma ValueAppend(base: nat, digits: seq<nat>, digit: nat)
    ensures Value(base, digits + [digit]) == base * Value(base, digits) + digit
  {
    assert (digits + [digit])[..|digits|] == digits;
  }

  lemma PowPositive(base: nat, exponent: nat)
    requires base > 0
    ensures Pow(base, exponent) > 0
  {
    if exponent > 0 {
      PowPositive(base, exponent - 1);
    }
  }

  lemma {:induction false} ValueBound(base: nat, digits: seq<nat>)
    requires base > 0 && InBase(base, digits)
    ensures Value(base, digits) < Pow(base, |digits|)
  {
    if digits != [] {
      var front := digits[..|digits| - 1];
      ValueBound(base, front);
      DigitBound(base, Value(base, front), Pow(base, |front|), digits[|front|]);
    }
  }

  lemma DigitBound(base: nat, v: nat, bound: nat, digit: nat)
    requires v < bound && digit < base
    ensures base * v + digit < base * bound
  {
    MulMonotone(base, v + 1, bound);
  }

  lemma MulMonotone(a: nat, x: nat, y: nat)
    requires x <= y
    ensures a * x <= a * y
  {
  }

  // Euclidean division is the only way to split a number into digit and rest.
  lemma SplitUnique(base: nat, q: nat, r: nat)
    requires r < base
    ensures (base * q + r) / base == q && (base * q + r) % base == r
  {
    var n := base * q + r;
    var dq := n / base - q;
    assert base * dq == r - n % base by {
      assert n == base * (n / base) + n % base;
    }
    if dq >= 1 {
      MulMonotone(base, 1, dq);
    }
  }

  // Numerals of one length are determined by their value.
  lemma {:induction false} ValueUnique(base: nat, a: seq<nat>, b: seq<nat>)
    requires |a| == |b| && InBase(base, a) && InBase(base, b)
    requires Value(base, a) == Value(base, b)
    ensures a == b
  {
    if a != [] {
      var n := |a| - 1;
      SplitUnique(base, Value(base, a[..n]), a[n]);
      SplitUnique(base, Value(base, b[..n]), b[n]);
      ValueUnique(base, a[..n], b[..n]);
      assert a == a[..n] + [a[n]] && b == b[..n] + [b[n]];
    }
  }

  lemma {:induction false} DigitsValue(base: nat, count: nat, n: nat)
    requires base > 0 && n < Pow(base, count)
    ensures Value(base, Digits(base, count, n)) == n
  {
    if count > 0 {
      QuotientBound(base, Pow(base, count - 1), n);
      DigitsValue(base, count - 1, n / base);
      ValueAppend(base, Digits(base, count - 1, n / base), n % base);
      DivMod(n, base);
    }
  }

  lemma DivMod(n: nat, base: nat)
    requires base > 0
    ensures n == base * (n / base) + n % base
  {
  }

  lemma QuotientBound(base: nat, bound: nat, n: nat)
    requires base > 0 && n < base * bound
    ensures n / base < bound
  {
    if n / base >= bound {
      MulMonotone(base, bound, n / base);
    }
  }

  // Sixteen base-32 digits and ten base-256 digits both span 80 bits.
  lemma EightyBits()
    ensures Pow(32, 16) == Pow(256, 10)
  {
    assert Pow(32, 8) == 0x100_0000_0000;
    assert Pow(256, 5) == 0x100_0000_0000;
    PowDouble(32, 8);
    PowDouble(256, 5);
  }

  lemma PowDouble(base: nat, n: nat)
    ensures Pow(base, 2 * n) == Pow(base, n) * Pow(base, n)
  {
    PowSum(base, n, n);
  }

  lemma {:induction false} PowSum(base: nat, m: nat, n: nat)
    ensures Pow(base, m + n) == Pow(base, m) * Pow(base, n)
  {
    if m > 0 {
      PowSum(base, m - 1, n);
      MulAssociates(base, Pow(base, m - 1), Pow(base, n));
    }
  }

  lemma MulAssociates(a: nat, b: nat, c: nat)
    ensures a * (b * c) == (a * b) * c
  {
  }

  // ---------------------------------------------------------------------- Registers

  const U16: nat := 0x1_0000

  lemma RegisterWidth()
    ensures Pow(2, 16) == U16
  {
    assert Pow(2, 4) == 16;
    PowDouble(2, 4);
    PowDouble(2, 8);
  }

  // Bitwise `|` and `&`, one bit at a time.
  function Or(a: nat, b: nat): nat
    decreases a + b
  {
    if a == 0 && b == 0 then 0
    else 2 * Or(a / 2, b / 2) + if a % 2 == 1 || b % 2 == 1 then 1 else 0
  }

  function And(a: nat, b: nat): nat
    decreases a + b
  {
    if a == 0 || b == 0 then 0
    else 2 * And(a / 2, b / 2) + if a % 2 == 1 && b % 2 == 1 then 1 else 0
  }

  function Xor(a: nat, b: nat): nat
    decreases a + b
  {
    if a == 0 && b == 0 then 0
    else 2 * Xor(a / 2, b / 2) + if a % 2 != b % 2 then 1 else 0
  }

  lemma {:induction false} XorZero(a: nat, b: nat)
    ensures Xor(a, b) == 0 <==> a == b
    decreases a + b
  {
    if a + b > 0 {
      XorZero(a / 2, b / 2);
    }
  }

  lemma {:induction false} OrIsZero(a: nat, b: nat)
    ensures Or(a, b) == 0 <==> a == 0 && b == 0
    decreases a + b
  {
    if a + b > 0 {
      OrIsZero(a / 2, b / 2);
    }
  }

  // `bits << places` in a u16: what passes bit 15 is lost.
  function Shl16(bits: nat, places: nat): (r: nat)
    ensures r < U16
  {
    (bits * Pow(2, places)) % U16
  }

  function Shr(bits: nat, places: nat): nat {
    PowPositive(2, places);
    bits / Pow(2, places)
  }

  // `|` with a value that fits in the zeroed low bits is addition.
  lemma {:induction false} OrLowBits(high: nat, low: nat, k: nat)
    requires low < Pow(2, k)
    ensures Or(high * Pow(2, k), low) == high * Pow(2, k) + low
  {
    if k == 0 {
      OrZero(high);
    } else {
      var half := high * Pow(2, k - 1);
      assert high * Pow(2, k) == 2 * half by {
        MulAssociates(2, high, Pow(2, k - 1));
        MulAssociates(high, 2, Pow(2, k - 1));
      }
      OrLowBits(high, low / 2, k - 1);
      assert (2 * half) / 2 == half && (2 * half) % 2 == 0;
    }
  }

  lemma {:induction false} OrZero(a: nat)
    ensures Or(a, 0) == a
  {
    if a > 0 {
      OrZero(a / 2);
    }
  }

  // `& (2^k - 1)` keeps the k low bits.
  lemma {:induction false} AndMask(a: nat, k: nat)
    ensures Pow(2, k) > 0 && And(a, Pow(2, k) - 1) == a % Pow(2, k)
  {
    PowPositive(2, k);
    if a == 0 {
      SplitUnique(Pow(2, k), 0, 0);
    } else if k > 0 {
      AndMask(a / 2, k - 1);
      AndOddMask(a, Pow(2, k - 1));
      ModTwice(a, Pow(2, k - 1));
    }
  }

  lemma AndOddMask(a: nat, m: nat)
    requires a > 0 && m > 0
    ensures And(a, 2 * m - 1) == 2 * And(a / 2, m - 1) + a % 2
  {
    assert (2 * m - 1) / 2 == m - 1 && (2 * m - 1) % 2 == 1;
  }

  lemma ModTwice(a: nat, m: nat)
    requires m > 0
    ensures a % (2 * m) == 2 * ((a / 2) % m) + a % 2
  {
    var q, r := (a / 2) / m, (a / 2) % m;
    assert a == (2 * m) * q + (2 * r + a % 2) by {
      MulAssociates(2, m, q);
    }
    SplitUnique(2 * m, q, 2 * r + a % 2);
  }

  // A numeral's value from its most significant digit on.
  lemma {:induction false} ValueHead(base: nat, digits: seq<nat>)
    requires digits != []
    ensures Value(base, digits)
         == digits[0] * Pow(base, |digits| - 1) + Value(base, digits[1..])
  {
    var n := |digits| - 1;
    if n > 0 {
      ValueHead(base, digits[..n]);
      assert digits[..n][1..] == digits[1..][..n - 1];
      HeadTerm(base, digits[0], Pow(base, n - 1), Value(base, digits[1..][..n - 1]), digits[n]);
    }
  }

  lemma HeadTerm(base: nat, head: nat, power: nat, middle: nat, last: nat)
    ensures base * (head * power + middle) + last == head * (base * power) + (base * middle + last)
  {
    MulAssociates(base, head, power);
    MulAssociates(head, base, power);
  }

  // ------------------------------------------------------------------ Bit by bit

  predicate Bit(n: nat, place: nat) {
    if place == 0 then n % 2 == 1 else Bit(n / 2, place - 1)
  }

  // The lowest bit, and what is above it, of each operation.
  lemma BitwiseStep(a: nat, b: nat)
    ensures Or(a, b) / 2 == Or(a / 2, b / 2) && (Or(a, b) % 2 == 1 <==> a % 2 == 1 || b % 2 == 1)
    ensures And(a, b) / 2 == And(a / 2, b / 2) && (And(a, b) % 2 == 1 <==> a % 2 == 1 && b % 2 == 1)
    ensures Xor(a, b) / 2 == Xor(a / 2, b / 2) && (Xor(a, b) % 2 == 1 <==> a % 2 != b % 2)
  {
    HalfOf(Or(a / 2, b / 2));
    HalfOf(And(a / 2, b / 2));
    HalfOf(Xor(a / 2, b / 2));
  }

  lemma {:induction false} BitwiseExactly(a: nat, b: nat, place: nat)
    ensures Bit(Or(a, b), place) <==> Bit(a, place) || Bit(b, place)
    ensures Bit(And(a, b), place) <==> Bit(a, place) && Bit(b, place)
    ensures Bit(Xor(a, b), place) <==> Bit(a, place) != Bit(b, place)
    decreases place
  {
    hide Or, And, Xor;
    BitwiseStep(a, b);
    if place > 0 {
      BitwiseExactly(a / 2, b / 2, place - 1);
    }
  }

  lemma HalfOf(n: nat)
    ensures (2 * n) / 2 == n && (2 * n + 1) / 2 == n
    ensures (2 * n) % 2 == 0 && (2 * n + 1) % 2 == 1
  {
  }
}
