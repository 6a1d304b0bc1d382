// Powers of two and the binary digits of ranks.
module Powers {

  function Pow2(n: nat): (p: nat)
    ensures p >= 1
  {
    if n == 0 then 1 else 2 * Pow2(n - 1)
  }

  // The number of rounds for n ranks: the least l with n <= 2^l.
  function Log2Up(n: nat): (l: nat)
    ensures n <= Pow2(l)
    ensures n >= 2 ==> l >= 1 && Pow2(l - 1) < n
  {
    if n <= 1 then 0 else 1 + Log2Up((n + 1) / 2)
  }

  lemma {:induction false} Pow2Grows(a: nat, b: nat)
    requires a <= b
    ensures Pow2(a) <= Pow2(b)
    ensures a < b ==> 2 * Pow2(a) <= Pow2(b)
    decreases b
  {
    if a < b { Pow2Grows(a, b - 1); }
  }

  // Log2Up is the only l with 2^(l-1) < n <= 2^l.
  lemma Log2UpUnique(n: nat, l: nat)
    requires n >= 2 && l >= 1 && Pow2(l - 1) < n <= Pow2(l)
    ensures l == Log2Up(n)
  {
    if l < Log2Up(n) { Pow2Grows(l, Log2Up(n) - 1); }
    if Log2Up(n) < l { Pow2Grows(Log2Up(n), l - 1); }
  }

  // v without its t lowest binary digits.
  function Hi(v: nat, t: nat): nat { if t == 0 then v else Hi(v, t - 1) / 2 }

  // Digit t of v is 0.
  predicate Low(v: nat, t: nat) { Hi(v, t) % 2 == 0 }

  // v with its t lowest binary digits cleared: where v's aligned block of 2^t
  // numbers starts.
  function Block(v: nat, t: nat): int {
    if t == 0 then v else Block(v, t - 1) - (if Low(v, t - 1) then 0 else Pow2(t - 1))
  }

  lemma {:induction false} BlockFacts(v: nat, t: nat)
    ensures Block(v, t) <= v < Block(v, t) + Pow2(t)
    ensures Block(v, t) == Hi(v, t) * Pow2(t)
  {
    if t > 0 {
      BlockFacts(v, t - 1);
      Halve(Hi(v, t - 1), Pow2(t - 1));
    }
  }

  lemma Halve(h: nat, p: nat)
    ensures h / 2 * (2 * p) == h * p - (if h % 2 == 0 then 0 else p)
  {
    var q := h / 2;
    if h % 2 == 0 {
      assert h == 2 * q;
      assert q * (2 * p) == (2 * q) * p;
    } else {
      assert h == 2 * q + 1;
      assert q * (2 * p) == (2 * q) * p;
      assert (2 * q + 1) * p == (2 * q) * p + p;
    }
  }

  lemma QuotientIs(v: nat, d: nat, q: nat)
    requires d > 0 && q * d <= v < q * d + d
    ensures v / d == q && v % d == v - q * d
  {
    var e := v / d;
    assert e * d <= v < e * d + d;
    if e > q {
      Multiples(q + 1, e, d);
    } else if e < q {
      Multiples(e + 1, q, d);
    }
  }

  lemma Multiples(a: int, b: int, p: nat)
    requires a <= b
    ensures a * p <= b * p
    ensures (a + 1) * p == a * p + p
    ensures (a - 1) * p == a * p - p
  {
    assert b * p == a * p + (b - a) * p;
  }

  // Digits as isLowerPartner computes them: (v / 2^t) % 2.
  lemma HiIsQuotient(v: nat, t: nat)
    ensures Hi(v, t) == v / Pow2(t)
  {
    BlockFacts(v, t);
    QuotientIs(v, Pow2(t), Hi(v, t));
  }

  lemma {:induction false} HiShift(v: nat, t: nat, i: nat)
    requires i <= t
    ensures Hi(v + Pow2(t), i) == Hi(v, i) + Pow2(t - i)
    decreases i
  {
    if i > 0 { HiShift(v, t, i - 1); }
  }

  lemma {:induction false} HiBound(v: nat, t: nat, l: nat)
    requires t <= l && v < Pow2(l)
    ensures Hi(v, t) < Pow2(l - t)
    decreases t
  {
    if t > 0 { HiBound(v, t - 1, l); }
  }

  // With all digits cleared nothing is left.
  lemma BlockAll(v: nat, l: nat)
    requires v < Pow2(l)
    ensures Block(v, l) == 0
  {
    HiBound(v, l, l);
    hide Hi, Block;
    assert Pow2(l - l) == 1;
    BlockFacts(v, l);
    NoTimes(Hi(v, l), Pow2(l));
  }

  lemma NoTimes(h: nat, p: nat)
    ensures h == 0 ==> h * p == 0
  {
  }

  lemma {:induction false} Pow2Sum(a: nat, b: nat)
    ensures Pow2(a + b) == Pow2(a) * Pow2(b)
    decreases a
  {
    if a > 0 {
      Pow2Sum(a - 1, b);
      TwiceProduct(Pow2(a - 1), Pow2(b));
    }
  }

  lemma TwiceProduct(a: nat, b: nat)
    ensures (2 * a) * b == 2 * (a * b)
  {
  }

  // The number that differs from v in digit t only.
  function Flip(v: nat, t: nat): int {
    if Low(v, t) then v + Pow2(t) else v - Pow2(t)
  }

  lemma RoomAbove(v: nat, h: nat, p: nat, q: nat)
    requires v < h * p + p && h + 2 <= q
    ensures v + p < q * p
  {
    Multiples(h + 2, q, p);
    Multiples(h + 1, h + 1, p);
    Multiples(h, h, p);
  }

  lemma FlipInRange(v: nat, t: nat, l: nat)
    requires t < l && v < Pow2(l)
    ensures 0 <= Flip(v, t) < Pow2(l)
  {
    var h, p := Hi(v, t), Pow2(t);
    BlockFacts(v, t);
    if Low(v, t) {
      HiBound(v, t, l);
      assert Pow2(l - t) == 2 * Pow2(l - t - 1);
      RoomAbove(v, h, p, Pow2(l - t));
      Pow2Sum(l - t, t);
    } else {
      Multiples(1, h, p);
    }
  }

  lemma FlipDigits(v: nat, t: nat, i: nat)
    requires i <= t && Flip(v, t) >= 0
    ensures Hi(Flip(v, t), i) == if Low(v, t) then Hi(v, i) + Pow2(t - i) else Hi(v, i) - Pow2(t - i)
  {
    HiShift(if Low(v, t) then v else Flip(v, t), t, i);
  }

  lemma FlipBlock(v: nat, t: nat)
    requires Flip(v, t) >= 0
    ensures Block(Flip(v, t), t) == if Low(v, t) then Block(v, t) + Pow2(t) else Block(v, t) - Pow2(t)
  {
    FlipDigits(v, t, t);
    hide Hi, Low, Block, Flip;
    assert Pow2(t - t) == 1;
    BlockFacts(v, t);
    BlockFacts(Flip(v, t), t);
    NextMultiple(Hi(v, t), Hi(Flip(v, t), t), Pow2(t));
  }

  lemma NextMultiple(h: nat, h': nat, p: nat)
    ensures h' == h + 1 ==> h' * p == h * p + p
    ensures h' == h - 1 ==> h' * p == h * p - p
  {
  }

  lemma FlipLow(v: nat, t: nat, i: nat)
    requires i <= t && Flip(v, t) >= 0
    ensures Low(Flip(v, t), i) == if i < t then Low(v, i) else !Low(v, i)
  {
    FlipDigits(v, t, i);
    var h, h' := Hi(v, i), Hi(Flip(v, t), i);
    if i < t {
      var q := Pow2(t - i - 1);
      assert Pow2(t - i) == 2 * q;
      Parity(h, h', q);
    } else {
      assert Pow2(t - i) == 1;
    }
  }

  lemma Parity(h: int, h': int, q: int)
    requires h' == h + 2 * q || h' == h - 2 * q
    ensures h' % 2 == h % 2
  {
  }

  lemma FlipFacts(v: nat, t: nat, l: nat)
    requires t < l && v < Pow2(l)
    ensures 0 <= Flip(v, t) < Pow2(l)
    ensures Low(Flip(v, t), t) != Low(v, t) && Flip(Flip(v, t), t) == v
    ensures forall i: nat :: i < t ==> Low(Flip(v, t), i) == Low(v, i)
    ensures Block(Flip(v, t), t) == if Low(v, t) then Block(v, t) + Pow2(t) else Block(v, t) - Pow2(t)
  {
    FlipInRange(v, t, l);
    FlipBlock(v, t);
    FlipLow(v, t, t);
    forall i: nat | i < t ensures Low(Flip(v, t), i) == Low(v, i) {
      FlipLow(v, t, i);
    }
  }

  // A product by name, where its value is not to be looked into.
  function Times(a: nat, b: nat): nat { a * b }
}
