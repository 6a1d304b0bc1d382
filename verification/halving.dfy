// Recursive halving (sumi/allreduce.cc, sumi/reduce.cc): which part of the
// vector a virtual rank still works on after t rounds.
module Halving {
  import opened Actions
  import opened Powers

  // divide_by_2_round_up
  function Up(x: nat): nat { x / 2 + x % 2 }

  // After t rounds v keeps the elements [Off, Off + Len): in round t the rank
  // whose digit t is 0 keeps the (larger) first half, its partner the second.
  function Off(v: nat, t: nat, n: nat): nat {
    if t == 0 then 0 else Off(v, t - 1, n) + (if Low(v, t - 1) then 0 else Up(Len(v, t - 1, n)))
  }

  function Len(v: nat, t: nat, n: nat): nat {
    if t == 0 then n
    else if Low(v, t - 1) then Len(v, t - 1, n) - Len(v, t - 1, n) / 2
    else Len(v, t - 1, n) - Up(Len(v, t - 1, n))
  }

  function Kept(v: nat, t: nat, n: nat): Span { Span(0, Off(v, t, n), Len(v, t, n)) }

  // What is kept lies in the vector.
  lemma {:induction false} KeptInside(v: nat, t: nat, n: nat)
    ensures Off(v, t, n) + Len(v, t, n) <= n
  {
    if t > 0 { KeptInside(v, t - 1, n); }
  }

  ghost predicate Apart(a: Span, b: Span) { forall c :: a.Has(c) ==> !b.Has(c) }

  lemma {:induction false} KeptSame(v: nat, w: nat, t: nat, n: nat)
    requires forall i: nat :: i < t ==> Low(v, i) == Low(w, i)
    ensures Kept(v, t, n) == Kept(w, t, n)
  {
    if t > 0 { KeptSame(v, w, t - 1, n); }
  }

  // Partners agree on the range they split, and split it exactly.
  lemma KeptSplit(v: nat, t: nat, n: nat, l: nat)
    requires t < l && v < Pow2(l)
    ensures Flip(v, t) >= 0 && Kept(Flip(v, t), t, n) == Kept(v, t, n)
    ensures forall c :: Kept(v, t, n).Has(c) <==> Kept(v, t + 1, n).Has(c) || Kept(Flip(v, t), t + 1, n).Has(c)
    ensures Apart(Kept(v, t + 1, n), Kept(Flip(v, t), t + 1, n))
  {
    FlipFacts(v, t, l);
    KeptSame(v, Flip(v, t), t, n);
  }

  lemma {:induction false} KeptNested(v: nat, t: nat, t': nat, n: nat, c: Cell)
    requires t <= t' && Kept(v, t', n).Has(c)
    ensures Kept(v, t, n).Has(c)
    decreases t'
  {
    if t < t' { KeptNested(v, t, t' - 1, n, c); }
  }

  // The rank below 2^t that keeps element i after t rounds.
  function Owner(i: nat, t: nat, n: nat): nat {
    if t == 0 then 0
    else
      var w := Owner(i, t - 1, n);
      if Kept(w, t, n).Has(Cell(0, i)) then w else w + Pow2(t - 1)
  }

  lemma TopDigit(v: nat, t: nat)
    requires v < Pow2(t)
    ensures Low(v, t)
  {
    HiBound(v, t, t);
  }

  // What rank b kept before round t - 1 is split between b and b + 2^(t-1).
  lemma KeptHalves(b: nat, t: nat, n: nat, c: Cell)
    requires t > 0 && b < Pow2(t - 1)
    ensures var up := b + Pow2(t - 1);
            && (Kept(b, t - 1, n).Has(c) <==> Kept(b, t, n).Has(c) || Kept(up, t, n).Has(c))
            && !(Kept(b, t, n).Has(c) && Kept(up, t, n).Has(c))
  {
    hide Kept, Low;
    TopDigit(b, t - 1);
    KeptSplit(b, t - 1, n, t);
    assert Flip(b, t - 1) == b + Pow2(t - 1);
  }

  // After t rounds the kept ranges of the 2^t ranks partition the vector.
  lemma {:induction false} KeptPartition(i: nat, t: nat, n: nat, v: nat)
    requires i < n && v < Pow2(t)
    ensures Owner(i, t, n) < Pow2(t)
    ensures Kept(v, t, n).Has(Cell(0, i)) <==> v == Owner(i, t, n)
    decreases t
  {
    if t > 0 {
      hide Kept;
      var b: nat := if v < Pow2(t - 1) then v else v - Pow2(t - 1);
      KeptPartition(i, t - 1, n, b);
      KeptHalves(b, t, n, Cell(0, i));
    }
  }
}
