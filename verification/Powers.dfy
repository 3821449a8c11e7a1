/** minpow2: rounding up to a power of two by smearing bits. */
module Powers {

  function Pow2(k: nat): (r: nat)
    ensures r > 0
  {
    if k == 0 then 1 else 2 * Pow2(k - 1)
  }

  ghost predicate IsPow2(n: int) { exists k: nat :: n == Pow2(k) }

  lemma {:induction false} Pow2Add(a: nat, b: nat)
    ensures Pow2(a + b) == Pow2(a) * Pow2(b)
  {
    if a > 0 {
      Pow2Add(a - 1, b);
      assert Pow2(a + b) == 2 * Pow2(a - 1 + b);
    }
  }

  lemma {:induction false} Pow2Grows(a: nat, b: nat)
    requires a < b
    ensures 2 * Pow2(a) <= Pow2(b)
  {
    if a + 1 < b { Pow2Grows(a, b - 1); }
  }

  /** Bitwise or of two non-negative integers. */
  function Or(a: nat, b: nat): nat {
    if a == 0 && b == 0 then 0
    else (if a % 2 == 1 || b % 2 == 1 then 1 else 0) + 2 * Or(a / 2, b / 2)
  }

  function ShiftRight(n: nat, k: nat): nat { if k == 0 then n else ShiftRight(n / 2, k - 1) }

  lemma {:induction false} ShiftDivides(n: nat, k: nat)
    ensures Pow2(k) * ShiftRight(n, k) <= n < Pow2(k) * (ShiftRight(n, k) + 1)
  {
    if k > 0 {
      ShiftDivides(n / 2, k - 1);
      var p, c := Pow2(k - 1), ShiftRight(n, k);
      assert Pow2(k) * c == 2 * (p * c) && Pow2(k) * (c + 1) == 2 * (p * (c + 1));
    }
  }

  /** High bits of one operand are untouched; the low ones only gain bits of the other. */
  lemma {:induction false} OrLow(a: nat, b: nat, c: nat, k: nat)
    requires b < Pow2(k) && c < Pow2(k)
    ensures Or(a * Pow2(k) + b, c) == a * Pow2(k) + Or(b, c)
    ensures c <= Or(b, c) < Pow2(k)
  {
    if k == 0 {
      OrZero(a);
    } else {
      var h := a * Pow2(k - 1);
      assert a * Pow2(k) == 2 * h;
      assert (2 * h + b) / 2 == h + b / 2 && (2 * h + b) % 2 == b % 2;
      OrLow(a, b / 2, c / 2, k - 1);
    }
  }

  lemma {:induction false} OrZero(a: nat)
    ensures Or(a, 0) == a
  {
    if a > 0 { OrZero(a / 2); }
  }

  /** The top `m` of the `h` bits of n are all ones. */
  predicate TopOnes(n: nat, h: nat, m: nat)
    requires m <= h
  {
    Pow2(h) - Pow2(h - m) <= n < Pow2(h)
  }

  function Min(a: nat, b: nat): nat { if a < b then a else b }

  lemma Cancel(d: nat, a: nat, b: nat)
    requires d > 0 && d * a < d * b
    ensures a < b
  {
  }

  /** With the top bits of n all ones, or-ing in something lower only adds to the rest. */
  lemma OrBelowTop(n: nat, h: nat, m: nat, c: nat)
    requires m <= h && TopOnes(n, h, m) && c < Pow2(h - m)
    ensures Pow2(h) - Pow2(h - m) + c <= Or(n, c) < Pow2(h)
  {
    var low := Pow2(h - m);
    Pow2Add(m, h - m);
    var a := Pow2(m) - 1;
    assert a * low == Pow2(h) - low;
    OrLow(a, n - a * low, c, h - m);
  }

  /** The shifted copy starts with a run of ones as well. */
  lemma ShiftBounds(n: nat, whole: nat, d: nat, low: nat, q: nat, c: nat)
    requires d > 0 && whole == d * low && whole - low <= n < whole && q <= low <= d * q
    requires d * c <= n < d * (c + 1)
    ensures low - q <= c < low
  {
    Cancel(d, c, low);
    assert d * (low - q) == whole - d * q;
    Cancel(d, low - q, c + 1);
  }

  lemma SmearTop(n: nat, h: nat, m: nat, q: nat)
    requires 0 < m <= h && TopOnes(n, h, m) && q <= Pow2(h - m) <= Pow2(m) * q
    ensures Pow2(h) - q <= Or(n, ShiftRight(n, m)) < Pow2(h)
  {
    var c := ShiftRight(n, m);
    assert Pow2(h - m) - q <= c < Pow2(h - m) by {
      Pow2Add(m, h - m);
      ShiftDivides(n, m);
      ShiftBounds(n, Pow2(h), Pow2(m), Pow2(h - m), q, c);
    }
    OrBelowTop(n, h, m, c);
  }

  /** n |= n >> m doubles the run of ones at the top. */
  lemma SmearDoubles(n: nat, h: nat, m: nat)
    requires 0 < m <= h && TopOnes(n, h, m)
    ensures TopOnes(Or(n, ShiftRight(n, m)), h, Min(2 * m, h))
  {
    if 2 * m <= h {
      Pow2Add(m, h - 2 * m);
      Pow2Grows(h - 2 * m, h - m);
      SmearTop(n, h, m, Pow2(h - 2 * m));
    } else {
      Pow2Grows(h - m, m);
      SmearTop(n, h, m, 1);
      assert Pow2(h - h) == 1;
    }
  }

  /** One line of minpow2, whatever the shift. */
  lemma SmearStep(n: nat, h: nat, k: nat)
    requires 0 < k && 0 < h && TopOnes(n, h, Min(k, h))
    ensures TopOnes(Or(n, ShiftRight(n, k)), h, Min(2 * k, h))
  {
    if k <= h {
      SmearDoubles(n, h, k);
    } else {
      assert Pow2(h - h) == 1;
      Pow2Grows(h, k);
      ShiftDivides(n, k);
      Cancel(Pow2(k), ShiftRight(n, k), 1);
      OrZero(n);
    }
  }

  lemma {:induction false} BitLength(n: nat) returns (h: nat)
    requires n > 0
    ensures h > 0 && Pow2(h - 1) <= n < Pow2(h)
  {
    if n == 1 {
      h := 1;
    } else {
      h := BitLength(n / 2);
      h := h + 1;
    }
  }

  /** For every size a buffer may ask for, the least power of two that holds it. */
  method MinPow2(n: nat) returns (r: nat)
    requires n <= Pow2(62)
    ensures n == 0 ==> r == 0
    ensures n > 0 ==> IsPow2(r) && n <= r && forall k: nat :: n <= Pow2(k) ==> r <= Pow2(k)
  {
    if n == 0 { return 0; } // all bits of -1 stay set, and adding one makes 0
    var x := n - 1;
    if x > 0 { x := Smear(x); }
    r := x + 1;
    if n == 1 { assert r == Pow2(0); }
  }

  method SmearBy(n: nat, k: nat, ghost h: nat) returns (x: nat)
    requires 0 < k && 0 < h && TopOnes(n, h, Min(k, h))
    ensures TopOnes(x, h, Min(2 * k, h))
  {
    SmearStep(n, h, k);
    x := Or(n, ShiftRight(n, k));
  }

  method Smear(n: nat) returns (x: nat)
    requires 0 < n < Pow2(62)
    ensures IsPow2(x + 1) && n < x + 1 && forall k: nat :: n < Pow2(k) ==> x + 1 <= Pow2(k)
  {
    ghost var h := BitLength(n);
    assert h <= 62 by { if h > 62 { Pow2Grows(62, h); } }
    assert Pow2(h) == 2 * Pow2(h - 1);
    x := SmearBy(n, 1, h);
    x := SmearBy(x, 2, h);
    x := SmearBy(x, 4, h);
    x := SmearBy(x, 8, h);
    x := SmearBy(x, 16, h);
    x := SmearBy(x, 32, h);
    assert Pow2(h - h) == 1;
    forall k: nat | n < Pow2(k) ensures x + 1 <= Pow2(k) {
      if k < h - 1 { Pow2Grows(k, h - 1); }
      if h < k { Pow2Grows(h, k); }
    }
  }
}
