// Within the bounds the 32-bit ids allow, no two actions of one rank share an id,
// for any of the modelled schedules.
module Ids {
  import opened Actions
  import opened Protocol
  import opened Powers
  import W = Wilke
  import Bruck
  import Alltoall
  import Gather
  import Bcast

  const MAX_RANKS: nat := 1431655

  ghost predicate DistinctIds(dag: Dag) {
    forall a, b :: a in dag.acts && b in dag.acts && MessageId(a) == MessageId(b) ==> a == b
  }

  // Few rounds and no large partner: the ids are distinct.
  lemma SmallKeys(dag: Dag, n: nat, rounds: nat)
    requires n <= MAX_RANKS && rounds <= MAX_ROUND
    requires forall k :: k in dag.acts ==> k.round < rounds && k.partner < n
    ensures DistinctIds(dag)
  {
    forall a, b | a in dag.acts && b in dag.acts && MessageId(a) == MessageId(b) ensures a == b {
      MessageIdInjective(a, b);
    }
  }

  lemma FewRounds(n: nat)
    requires n <= MAX_RANKS
    ensures Log2Up(n) <= 21
  {
    if Log2Up(n) > 21 {
      Pow2Grows(21, Log2Up(n) - 1);
      Pow2Is21();
    }
  }

  lemma Pow2Is21()
    ensures Pow2(21) == 2097152
  {
    Pow2Sum(7, 7);
    Pow2Sum(7, 14);
    assert Pow2(3) == 8;
    Pow2Sum(3, 4);
    assert Pow2(4) == 16;
  }

  lemma ReductionIds(p: W.Plan, r: nat)
    requires W.Ok(p) && r < p.n <= MAX_RANKS
    ensures DistinctIds(W.RankDag(p, r))
  {
    FewRounds(p.n);
    SmallKeys(W.RankDag(p, r), p.n, 4 * W.L(p));
  }

  lemma AllgatherIds(p: Bruck.Plan, r: nat)
    requires Bruck.Ok(p) && r < p.n <= MAX_RANKS
    ensures DistinctIds(Bruck.RankDag(p, r))
  {
    FewRounds(p.n);
    SmallKeys(Bruck.RankDag(p, r), p.n, Bruck.Steps(p) + 1);
  }

  lemma AlltoallIds(p: Alltoall.Plan, r: nat)
    requires Alltoall.Ok(p) && r < p.n <= MAX_RANKS
    ensures DistinctIds(Alltoall.RankDag(p, r))
  {
    FewRounds(p.n);
    SmallKeys(Alltoall.RankDag(p, r), p.n, Alltoall.Rounds(p));
  }

  lemma GatherIds(p: Gather.Plan, r: nat)
    requires Gather.Ok(p) && r < p.n <= MAX_RANKS
    ensures DistinctIds(Gather.RankDag(p, r))
  {
    FewRounds(p.n);
    SmallKeys(Gather.RankDag(p, r), p.n, Gather.L(p) + 1);
  }

  lemma BcastIds(p: Bcast.Plan, r: nat)
    requires Bcast.Ok(p) && r < p.n <= MAX_RANKS
    ensures DistinctIds(Bcast.RankDag(p, r))
  {
    SmallKeys(Bcast.RankDag(p, r), p.n, 1);
  }
}
