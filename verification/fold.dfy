// The mathematical result of a reduction: every rank's element, combined once.
module FoldOp {

  ghost predicate Associative<E(!new)>(op: (E, E) -> E) { forall a, b, c :: op(op(a, b), c) == op(a, op(b, c)) }

  ghost predicate Commutative<E(!new)>(op: (E, E) -> E) { forall a, b :: op(a, b) == op(b, a) }

  // f(a) op f(a+1) op .. op f(b-1)
  function Fold<E>(op: (E, E) -> E, f: nat -> E, a: nat, b: nat): E
    requires a < b
    decreases b
  {
    if b == a + 1 then f(a) else op(Fold(op, f, a, b - 1), f(b - 1))
  }

  lemma {:induction false} FoldSplit<E(!new)>(op: (E, E) -> E, f: nat -> E, a: nat, b: nat, c: nat)
    requires Associative(op) && a < b < c
    ensures Fold(op, f, a, c) == op(Fold(op, f, a, b), Fold(op, f, b, c))
    decreases c
  {
    if c > b + 1 { FoldSplit(op, f, a, b, c - 1); }
  }

  lemma {:induction false} FoldSame<E(!new)>(op: (E, E) -> E, f: nat -> E, g: nat -> E, a: nat, b: nat)
    requires a < b && forall i: nat :: a <= i < b ==> f(i) == g(i)
    ensures Fold(op, f, a, b) == Fold(op, g, a, b)
    decreases b
  {
    if b > a + 1 { FoldSame(op, f, g, a, b - 1); }
  }

  // For numbers and addition the fold of ones counts the ranks.
  lemma {:induction false} FoldOnes(op: (int, int) -> int, f: nat -> int, a: nat, b: nat)
    requires a < b && (forall x, y :: op(x, y) == x + y) && forall i: nat :: a <= i < b ==> f(i) == 1
    ensures Fold(op, f, a, b) == b - a
    decreases b
  {
    if b > a + 1 { FoldOnes(op, f, a, b - 1); }
  }
}
