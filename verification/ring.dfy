// Rank numbers modulo the number of ranks.
module Ring {

  function Above(n: nat, r: nat, j: nat): (q: nat)
    requires r < n && j <= n
    ensures q < n
  {
    if r + j < n then r + j else r + j - n
  }

  function Below(n: nat, r: nat, j: nat): (q: nat)
    requires r < n && j <= n
    ensures q < n
  {
    if j <= r then r - j else r + n - j
  }

  // x mod n, for the wrap-around of rank numbers.
  function Wrap(x: nat, n: nat): nat
    requires n > 0
  {
    x % n
  }

  lemma RingIs(n: nat, r: nat, j: nat)
    requires r < n && j < n
    ensures Wrap(r + j, n) == Above(n, r, j) && Wrap(r + n - j, n) == Below(n, r, j)
    ensures Above(n, Below(n, r, j), j) == r == Below(n, Above(n, r, j), j)
    ensures j > 0 ==> Above(n, r, j) != r && Below(n, r, j) != r
  {
    ModIs(r + j, n);
    ModIs(r + n - j, n);
  }

  lemma ModIs(x: nat, n: nat)
    requires n > 0 && x < 2 * n
    ensures x % n == if x < n then x else x - n
  {
  }
}
