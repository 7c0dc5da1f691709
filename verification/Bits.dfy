/**
 Bitwise operations on natural numbers of any width.
 */
module Bits {

  function Pow2(k: nat): (p: nat)
    ensures p > 0
  {
    if k == 0 then 1 else 2 * Pow2(k - 1)
  }

  lemma DoubledProduct(a: nat, b: nat)
    ensures 2 * a * b == 2 * (a * b)
  {
  }

  lemma {:induction false} Pow2Sum(j: nat, k: nat)
    ensures Pow2(j + k) == Pow2(j) * Pow2(k)
  {
    if j > 0 {
      Pow2Sum(j - 1, k);
      assert Pow2(j + k) == 2 * Pow2(j + k - 1) && Pow2(j) == 2 * Pow2(j - 1);
      DoubledProduct(Pow2(j - 1), Pow2(k));
    }
  }

  function And(x: nat, y: nat): nat {
    if x == 0 || y == 0 then 0 else 2 * And(x / 2, y / 2) + (if x % 2 == 1 && y % 2 == 1 then 1 else 0)
  }

  function Or(x: nat, y: nat): nat
    decreases x + y
  {
    if x == 0 then y else if y == 0 then x
    else 2 * Or(x / 2, y / 2) + (if x % 2 == 1 || y % 2 == 1 then 1 else 0)
  }

  ghost predicate Odd(x: nat) {
    x % 2 == 1
  }

  lemma {:induction false} AndUnfold(x: nat, y: nat)
    ensures Odd(And(x, y)) == (Odd(x) && Odd(y)) && And(x, y) / 2 == And(x / 2, y / 2)
  {
  }

  lemma {:induction false} OrUnfold(x: nat, y: nat)
    ensures Odd(Or(x, y)) == (Odd(x) || Odd(y)) && Or(x, y) / 2 == Or(x / 2, y / 2)
  {
  }

  lemma SameNumber(x: nat, y: nat)
    requires Odd(x) == Odd(y) && x / 2 == y / 2
    ensures x == y
  {
  }

  lemma {:induction false} JoinedBit(p: nat, m: nat, f: nat, s: nat)
    requires And(m, s) == 0
    ensures And(m / 2, s / 2) == 0
    ensures Odd(And(Or(And(p, m), And(f, s)), m)) == Odd(And(p, m))
    ensures And(Or(And(p, m), And(f, s)), m) / 2 == And(Or(And(p / 2, m / 2), And(f / 2, s / 2)), m / 2)
    ensures And(p, m) / 2 == And(p / 2, m / 2)
  {
    hide And, Or;
    AndUnfold(m, s);
    AndUnfold(p, m);
    AndUnfold(f, s);
    OrUnfold(And(p, m), And(f, s));
    AndUnfold(Or(And(p, m), And(f, s)), m);
  }

  lemma {:induction false} JoinedFirst(p: nat, m: nat, f: nat, s: nat)
    requires And(m, s) == 0
    ensures And(Or(And(p, m), And(f, s)), m) == And(p, m)
    decreases m
  {
    if m != 0 {
      var a, b := And(p, m), And(f, s);
      JoinedBit(p, m, f, s);
      JoinedFirst(p / 2, m / 2, f / 2, s / 2);
      SameNumber(And(Or(a, b), m), a);
    }
  }

  lemma {:induction false} AndCommutes(x: nat, y: nat)
    ensures And(x, y) == And(y, x)
  {
    if x != 0 && y != 0 {
      AndCommutes(x / 2, y / 2);
    }
  }

  lemma {:induction false} OrCommutes(x: nat, y: nat)
    ensures Or(x, y) == Or(y, x)
    decreases x + y
  {
    if x != 0 && y != 0 {
      OrCommutes(x / 2, y / 2);
    }
  }

  /** Two masked values joined: with disjoint masks each can be read back. */
  lemma Joined(p: nat, m: nat, f: nat, s: nat)
    requires And(m, s) == 0
    ensures And(Or(And(p, m), And(f, s)), m) == And(p, m)
    ensures And(Or(And(p, m), And(f, s)), s) == And(f, s)
  {
    JoinedFirst(p, m, f, s);
    AndCommutes(m, s);
    JoinedFirst(f, s, p, m);
    OrCommutes(And(p, m), And(f, s));
  }

  lemma Distributed(a: nat, b: nat, c: nat, e: nat)
    ensures a * (b * c + e) == a * b * c + a * e
  {
  }

  lemma Grows(a: nat, b: nat, c: nat)
    requires b <= c
    ensures a * b <= a * c
  {
  }

  lemma Small(d: int, k: int)
    requires -d < d * k < d
    ensures k == 0
  {
    assert k >= 1 ==> d * k >= d;
    assert k <= -1 ==> d * k <= -d;
  }

  lemma QuotientIs(x: nat, d: nat, q: nat, r: nat)
    requires x == d * q + r && r < d
    ensures x / d == q && x % d == r
  {
    var k := x / d - q;
    assert d * k == r - x % d;
    Small(d, k);
  }

  lemma SplitIs(x: nat, low: nat, high: nat, q: nat, t: nat, h: nat, r: nat)
    requires x == low * q + r && q == high * t + h && h < high && r < low
    ensures low * high > 0 && x % (low * high) == low * h + r
  {
    var d := low * high;
    assert low * q == d * t + low * h by {
      Distributed(low, high, t, h);
    }
    assert low * h + low <= d by {
      Grows(low, h + 1, high);
    }
    QuotientIs(x, d, t, low * h + r);
  }

  /** Splitting a remainder into a high and a low part. */
  lemma RemainderSplit(x: nat, low: nat, high: nat)
    requires low > 0 && high > 0
    ensures low * high > 0 && x % (low * high) == low * (x / low % high) + x % low
  {
    SplitIs(x, low, high, x / low, x / low / high, x / low % high, x % low);
  }

  lemma {:induction false} NextBit(x: nat, p: nat)
    requires p > 0 && And(x / 2, p - 1) == x / 2 % p
    ensures And(x, 2 * p - 1) == x % (2 * p)
  {
    hide And;
    AndUnfold(x, 2 * p - 1);
    RemainderSplit(x, 2, p);
  }

  /** A mask of low bits takes a remainder. */
  lemma {:induction false} LowBits(x: nat, k: nat)
    ensures And(x, Pow2(k) - 1) == x % Pow2(k)
  {
    if k > 0 {
      LowBits(x / 2, k - 1);
      NextBit(x, Pow2(k - 1));
    }
  }

  function Shr(x: nat, k: nat): nat {
    if k == 0 then x else Shr(x / 2, k - 1)
  }

  lemma {:induction false} ShrTwice(x: nat, j: nat, k: nat)
    ensures Shr(Shr(x, j), k) == Shr(x, j + k)
  {
    if j > 0 {
      ShrTwice(x / 2, j - 1, k);
    }
  }

  lemma DividedTwice(x: nat, p: nat)
    requires p > 0
    ensures x / 2 / p == x / (2 * p)
  {
    var q, r := x / 2 / p, x / 2 % p;
    assert x / 2 == p * q + r;
    assert x == 2 * p * q + (2 * r + x % 2);
    QuotientIs(x, 2 * p, q, 2 * r + x % 2);
  }

  /** Shifting right divides. */
  lemma {:induction false} ShrDivides(x: nat, k: nat)
    ensures Shr(x, k) == x / Pow2(k)
  {
    if k > 0 {
      ShrDivides(x / 2, k - 1);
      DividedTwice(x, Pow2(k - 1));
    }
  }

  function Shl(x: nat, k: nat): nat {
    if k == 0 then x else 2 * Shl(x, k - 1)
  }

  lemma {:induction false} AndDoubled(x: nat, y: nat)
    ensures And(2 * x, y) == 2 * And(x, y / 2)
  {
    hide And;
    AndUnfold(2 * x, y);
    SameNumber(And(2 * x, y), 2 * And(x, y / 2));
  }

  lemma {:induction false} AndShifted(x: nat, y: nat, k: nat)
    ensures And(Shl(x, k), y) == Shl(And(x, Shr(y, k)), k)
  {
    if k > 0 {
      AndShifted(x, y / 2, k - 1);
      AndDoubled(Shl(x, k - 1), y);
    }
  }

  lemma {:induction false} ShiftedTwelve(x: nat)
    ensures Shl(x, 12) == 0x1000 * x
  {
    assert Shl(x, 0) == x;
    assert Shl(x, 2) == 4 * x;
    assert Shl(x, 4) == 16 * x;
    assert Shl(x, 6) == 64 * x;
    assert Shl(x, 8) == 256 * x;
    assert Shl(x, 10) == 1024 * x;
  }

  lemma AndPages(page: nat, y: nat)
    ensures And(0x1000 * page, y) == 0x1000 * And(page, y / 0x1000)
  {
    hide And, Shl;
    AndShifted(page, y, 12);
    ShiftedTwelve(page);
    ShiftedTwelve(And(page, y / 0x1000));
    ShrDivides(y, 12);
  }

  /** A mask of `width` bits from bit 12 up keeps the page-aligned addresses that fit it. */
  lemma PageMaskKeeps(page: nat, width: nat)
    requires page < Pow2(width)
    ensures And(0x1000 * page, 0x1000 * (Pow2(width) - 1)) == 0x1000 * page
  {
    hide And, Pow2;
    LowBits(page, width);
    AndPages(page, 0x1000 * (Pow2(width) - 1));
  }
}
