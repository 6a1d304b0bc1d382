// Virtual ranks: n real ranks play the 2^l roles of a power-of-two algorithm.
module VirtualRanks {
  import opened Powers

  // RecursiveDoubling::computeTree
  method ComputeTree(nproc: nat) returns (log2nproc: nat, midpoint: nat, pow2nproc: nat)
    requires nproc >= 2
    ensures log2nproc == Log2Up(nproc) && pow2nproc == Pow2(log2nproc)
    ensures midpoint == Pow2(log2nproc - 1) && midpoint < nproc <= pow2nproc
  {
    pow2nproc, log2nproc := 1, 0;
    while pow2nproc < nproc
      invariant pow2nproc == Pow2(log2nproc)
      invariant log2nproc == 0 || Pow2(log2nproc - 1) < nproc
      decreases 2 * nproc - pow2nproc
    {
      log2nproc := log2nproc + 1;
      pow2nproc := pow2nproc * 2;
    }
    midpoint := pow2nproc / 2;
    Log2UpUnique(nproc, log2nproc);
  }

  // The number of virtual ranks, and of real ranks with two roles.
  function VNproc(n: nat): nat { Pow2(Log2Up(n)) }

  function Twos(n: nat): nat { VNproc(n) - n }

  // VirtualRankMap::realToVirtual
  function Roles(n: nat, r: nat): seq<nat> {
    if r >= Twos(n) then [Twos(n) + r] else [2 * r, 2 * r + 1]
  }

  // VirtualRankMap::virtualToReal
  function Real(n: nat, v: nat): nat {
    if v >= 2 * Twos(n) then v - Twos(n) else v / 2
  }

  method RealToVirtual(n: nat, r: nat, ret: array<nat>) returns (count: nat)
    requires ret.Length >= 2
    modifies ret
    ensures count == |Roles(n, r)| && ret[..count] == Roles(n, r)
  {
    var twos := VNproc(n) - n;
    if r >= twos {
      ret[0] := twos + r;
      return 1;
    } else {
      ret[0] := 2 * r;
      ret[1] := ret[0] + 1;
      return 2;
    }
  }

  // The roles of the real ranks partition [0, 2^l): a virtual rank is a role of
  // a real rank exactly if it maps back to it.
  lemma RolesPartition(n: nat, r: nat, v: nat)
    requires n >= 2 && r < n
    ensures v in Roles(n, r) <==> v < VNproc(n) && Real(n, v) == r
    ensures v < VNproc(n) ==> Real(n, v) < n
  {
    var l := Log2Up(n);
    assert VNproc(n) == 2 * Pow2(l - 1);
  }

  // Two roles of one rank are partners in round 0 and in no other round.
  lemma SharedRoles(n: nat, v: nat, t: nat)
    requires n >= 2 && v < VNproc(n) && t < Log2Up(n)
    ensures 0 <= Flip(v, t) < VNproc(n)
    ensures Real(n, Flip(v, t)) == Real(n, v) <==> t == 0 && v < 2 * Twos(n)
  {
    FlipFacts(v, t, Log2Up(n));
    if t > 0 { assert Pow2(t) == 2 * Pow2(t - 1); }
  }
}
