// The binomial tree on the numbers below a power of two: the parent of a number
// is that number with its lowest binary digit 1 cleared.
module Trees {
  import opened Powers

  // The position of the lowest digit 1.
  function LowBit(o: nat): nat
    requires o > 0
  {
    if o % 2 == 1 then 0 else 1 + LowBit(o / 2)
  }

  lemma {:induction false} LowBitIs(o: nat)
    requires o > 0
    ensures Pow2(LowBit(o)) <= o
  {
    if o % 2 == 0 { LowBitIs(o / 2); }
  }

  function Parent(o: nat): nat
    requires o > 0
  {
    LowBitIs(o);
    o - Pow2(LowBit(o))
  }

  // The parent's own digit is higher, and adding a lower digit leads back.
  lemma {:induction false} ParentReach(o: nat)
    requires o > 0
    ensures Parent(o) == 0 || LowBit(Parent(o)) > LowBit(o)
  {
    if o % 2 == 0 {
      ParentReach(o / 2);
      assert Parent(o) == 2 * Parent(o / 2);
    }
  }

  lemma {:induction false} ChildOf(o: nat, b: nat)
    requires o == 0 || b < LowBit(o)
    ensures LowBit(o + Pow2(b)) == b && Parent(o + Pow2(b)) == o
  {
    if b > 0 {
      assert o % 2 == 0 && Pow2(b) == 2 * Pow2(b - 1);
      ChildOf(o / 2, b - 1);
      assert (o + Pow2(b)) / 2 == o / 2 + Pow2(b - 1);
    }
  }
}
