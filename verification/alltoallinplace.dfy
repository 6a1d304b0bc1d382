// The all-to-all when send and result buffer are one: initBuffers overwrites data
// before it has been moved, and exactly which blocks arrive nevertheless.
module AlltoallInPlace {
  import opened Actions
  import opened Protocol
  import opened Schedule
  import opened WaitGraphs
  import opened Liveness
  import opened Powers
  import opened Ring
  import opened Alltoall
  import opened AlltoallProof
  import AB = AlltoallBuffers

  // The index to which initBuffers should take the caller's element x.
  function Goal(p: Plan, q: nat, x: int): int {
    if x >= q * p.nelems then x - q * p.nelems else x - q * p.nelems + p.n * p.nelems
  }

  // Where the element comes from that stands there instead.
  function Instead(p: Plan, q: nat, x: int): int { AB.InPlaceFrom(p, q, Goal(p, q, x)) }

  // The collective runs as if this had been the caller's data.
  function Overwritten<E(==,!new)>(p: Plan, data: (nat, int) -> E): (nat, int) -> E {
    (q: nat, x: int) => data(q, Instead(p, q, x))
  }

  lemma GoalHome(p: Plan, r: nat, i: nat)
    requires r * p.nelems <= p.n * p.nelems && i < p.n * p.nelems
    ensures Goal(p, r, Home(p, r, i)) == i
  {
  }

  // That is the memory in-place initBuffers leaves.
  lemma InPlaceStart<E(!new)>(p: Plan, data: (nat, int) -> E, other: (nat, Cell) -> E, r: nat, i: nat)
    requires Ok(p) && r < p.n && i < p.n * p.nelems
    ensures Rotated(p, Overwritten(p, data), other)(r, Cell(0, i)) == data(r, AB.InPlaceFrom(p, r, i))
  {
    hide AB.InPlaceFrom;
    Multiples(r, p.n, p.nelems);
    GoalHome(p, r, i);
    var x := Home(p, r, i);
    assert Rotated(p, Overwritten(p, data), other)(r, Cell(0, i)) == Overwritten(p, data)(r, x);
    assert Overwritten(p, data)(r, x) == data(r, Instead(p, r, x));
  }

  lemma InsteadInside(p: Plan, q: nat, x: nat)
    requires Ok(p) && q < p.n && x < p.n * p.nelems
    ensures 0 <= Instead(p, q, x) < p.n * p.nelems
  {
    assert p.nelems > 0 by { if p.nelems == 0 { assert p.n * 0 == 0; } }
    ElemBelow(p, q, 0, p.n);
  }

  lemma InsteadIs(offset: nat, total: nat, x: nat)
    requires offset < total && x < total
    ensures var i := if x >= offset then x - offset else x - offset + total;
            var from := if i + offset < total then i + offset
                        else if i + 2 * offset < 2 * total then i + 2 * offset - total else i + offset - total;
            from == x <==> x >= offset || x + offset >= total
  {
  }

  // An element of rank q's block for rank r keeps its place exactly if the block
  // is not before q's own, or reaches beyond what the first copy has overwritten.
  lemma InsteadExactly(p: Plan, q: nat, r: nat, e: nat)
    requires Ok(p) && q < p.n && r < p.n && e < p.nelems
    ensures Instead(p, q, r * p.nelems + e) == r * p.nelems + e <==> r >= q || q + r >= p.n
  {
    var m := p.nelems;
    ElemBelow(p, r, e, p.n);
    ElemBelow(p, q, 0, p.n);
    if r >= q { Multiples(q, r, m); } else { ElemBelow(p, r, e, q); }
    Sum(q, r, m);
    if q + r >= p.n { Multiples(p.n, q + r, m); } else { ElemBelow(p, q + r, e, p.n); }
    InsteadIs(q * m, p.n * m, r * m + e);
  }

  lemma Sum(a: nat, b: nat, m: nat)
    ensures (a + b) * m == a * m + b * m
  {
  }

  // What an in-place all-to-all leaves: block q of a completed rank r is made of
  // the elements that stood in for it.
  lemma InPlaceResult<E(!new)>(p: Plan, op: (E, E) -> E, data: (nat, int) -> E, other: (nat, Cell) -> E, ue: nat -> bool, ug: bool,
                               cfg: Config<E>, steps: seq<Step<E>>, r: nat, q: nat, e: nat)
    requires Ok(p) && cfg == Cfg(p, op, Overwritten(p, data), other, ue, ug) && Shaped(cfg) && IsRun(cfg, steps)
    requires r < p.n && After(cfg, steps).ranks[r].complete && q < p.n && e < p.nelems
    ensures After(cfg, steps).ranks[r].mem(Elem(p, 0, q, e)) == data(q, Instead(p, q, r * p.nelems + e))
  {
    hide Instead, IsRun, After, Cfg;
    AlltoallCorrect(p, op, Overwritten(p, data), other, ue, ug, cfg, steps, r, q, e);
  }

  // On all data and in all runs, a completed rank r has block q as rank q meant it.
  ghost predicate BlockArrives(p: Plan, op: (int, int) -> int, ue: nat -> bool, ug: bool, q: nat, r: nat)
    requires Ok(p) && q < p.n && r < p.n
  {
    forall data: (nat, int) -> int, other: (nat, Cell) -> int, steps: seq<Step<int>>, e: nat ::
      var cfg := Cfg(p, op, Overwritten(p, data), other, ue, ug);
      Shaped(cfg) && IsRun(cfg, steps) && After(cfg, steps).ranks[r].complete && e < p.nelems ==>
        After(cfg, steps).ranks[r].mem(Elem(p, 0, q, e)) == data(q, r * p.nelems + e)
  }

  // Exactly when that is so.
  lemma ArrivesExactly(p: Plan, op: (int, int) -> int, ue: nat -> bool, ug: bool, q: nat, r: nat)
    requires Ok(p) && q < p.n && r < p.n
    ensures BlockArrives(p, op, ue, ug, q, r) <==> r >= q || q + r >= p.n || p.nelems == 0
  {
    hide Instead, IsRun, After;
    if r >= q || q + r >= p.n || p.nelems == 0 {
      forall data: (nat, int) -> int, other: (nat, Cell) -> int, steps: seq<Step<int>>, e: nat, cfg: Config<int> |
        && cfg == Cfg(p, op, Overwritten(p, data), other, ue, ug)
        && Shaped(cfg) && IsRun(cfg, steps) && After(cfg, steps).ranks[r].complete && e < p.nelems
        ensures After(cfg, steps).ranks[r].mem(Elem(p, 0, q, e)) == data(q, r * p.nelems + e)
      {
        InPlaceResult(p, op, data, other, ue, ug, cfg, steps, r, q, e);
        InsteadExactly(p, q, r, e);
      }
    } else {
      BlockLost(p, op, ue, ug, q, r);
    }
  }

  // The failing run: every rank's data are the indices.
  lemma BlockLost(p: Plan, op: (int, int) -> int, ue: nat -> bool, ug: bool, q: nat, r: nat)
    requires Ok(p) && q < p.n && r < p.n && r < q && q + r < p.n && p.nelems > 0
    ensures !BlockArrives(p, op, ue, ug, q, r)
  {
    hide Instead, IsRun, After;
    var data, other := (t: nat, x: int) => x, (t: nat, c: Cell) => 0;
    var cfg := Cfg(p, op, Overwritten(p, data), other, ue, ug);
    var steps := Completed(p, cfg, op, data, other, ue, ug);
    InPlaceResult(p, op, data, other, ue, ug, cfg, steps, r, q, 0);
    InsteadExactly(p, q, r, 0);
  }

  lemma Completed(p: Plan, cfg: Config<int>, op: (int, int) -> int, data: (nat, int) -> int, other: (nat, Cell) -> int,
                  ue: nat -> bool, ug: bool) returns (steps: seq<Step<int>>)
    requires Ok(p) && cfg == Cfg(p, op, Overwritten(p, data), other, ue, ug)
    ensures Shaped(cfg) && cfg.n == p.n && IsRun(cfg, steps) && AllComplete(After(cfg, steps))
  {
    hide Timed, RaceFree, ScratchOk, Matched, After, FollowsAt, Closed, Acyclic, RankDag;
    CfgFollows(p, op, Overwritten(p, data), other, ue, ug);
    AlltoallWellFormed(p, cfg);
    TimedAcyclic(cfg);
    forall r: nat | r < p.n ensures cfg.dag[r].acts != map[] { FirstShuffle(p, r); }
    steps := RunsComplete(cfg, []);
  }

  // The whole in-place collective transposes, on all data and in all runs, exactly
  // if there is nothing to send: otherwise rank 0 loses its block of rank 1.
  lemma TransposesExactly(p: Plan, op: (int, int) -> int, ue: nat -> bool, ug: bool)
    requires Ok(p)
    ensures (forall q: nat, r: nat :: q < p.n && r < p.n ==> BlockArrives(p, op, ue, ug, q, r)) <==> p.nelems == 0
  {
    hide BlockArrives;
    forall q: nat, r: nat | q < p.n && r < p.n
      ensures BlockArrives(p, op, ue, ug, q, r) <==> r >= q || q + r >= p.n || p.nelems == 0
    {
      ArrivesExactly(p, op, ue, ug, q, r);
    }
    assert BlockArrives(p, op, ue, ug, 1, 0) <==> p.nelems == 0;
  }
}
