// Allgather, allgatherv and barrier over whole runs.
module Gathers {
  import opened Actions
  import opened Protocol
  import opened Schedule
  import opened Invariant
  import opened Safety
  import opened Powers
  import opened Ring
  import opened Bruck
  import opened BruckProof

  lemma WellFormedPlan<E(!new)>(p: Plan, cfg: Config<E>, op: (E, E) -> E, init: (nat, Cell) -> E, ue: nat -> bool, ug: bool)
    requires Ok(p) && cfg == Cfg(p, op, init, ue, ug)
    ensures Follows(p, cfg) && WellFormed(cfg) && cfg.init == init
    ensures forall r, m :: cfg.finish(r, m) == Rotated(MyOff(p, r), Disp(p.counts, p.n), m)
  {
    CfgFollows(p, op, init, ue, ug);
    BruckWellFormed(p, cfg);
  }

  // ---------- the gathered result ----------

  // Where rank q's block sits on rank r before finalize.
  function Place(n: nat, r: nat, q: nat): (j: nat)
    requires r < n && q < n
    ensures j < n && Above(n, r, j) == q
  {
    if q >= r then q - r else q + n - r
  }

  // finalize takes every block to its place in rank order.
  lemma RotationPlaces(p: Plan, r: nat, q: nat, e: nat)
    requires Ok(p) && r < p.n && q < p.n && e < p.counts[q]
    ensures var i := Disp(p.counts, q) + e;
            i < Disp(p.counts, p.n) && From(Disp(p.counts, r), Disp(p.counts, p.n), i) == Off(p, r, Place(p.n, r, q)) + e
  {
    DispGrows(p.counts, q + 1, p.n);
    DispGrows(p.counts, r, p.n);
    if q >= r { DispGrows(p.counts, r, q); } else { DispGrows(p.counts, q + 1, r); }
  }

  lemma FinalBlock<E(!new)>(p: Plan, cfg: Config<E>, r: nat, mem: Mem<E>, q: nat, e: nat)
    requires Follows(p, cfg) && WellFormed(cfg) && r < p.n && q < p.n && e < p.counts[q] && Sealed(cfg, r, mem)
    requires forall m :: cfg.finish(r, m) == Rotated(Disp(p.counts, r), Disp(p.counts, p.n), m)
    ensures mem(Cell(0, Disp(p.counts, q) + e)) == cfg.init(q, Cell(0, e))
  {
    hide At, Off, Timed, RaceFree, Matched, ScratchOk, Disp, Above, From, FollowsAt, Place, Pow2, Log2Up;
    var m: Mem<E> :| mem == cfg.finish(r, m) && FinalMem(cfg, r, m);
    RotationPlaces(p, r, q, e);
    Gathered(p, cfg, Steps(p), r, Place(p.n, r, q), e);
    var c := Cell(0, Off(p, r, Place(p.n, r, q)) + e);
    assert !cfg.notes.scratch(r, c);
  }

  // Allgatherv: a completed rank holds the blocks of all ranks, of whatever
  // lengths, packed in rank order.
  lemma AllgathervCorrect<E(!new)>(p: Plan, op: (E, E) -> E, init: (nat, Cell) -> E, ue: nat -> bool, ug: bool,
                                   cfg: Config<E>, steps: seq<Step<E>>, r: nat, q: nat, e: nat)
    requires Ok(p) && cfg == Cfg(p, op, init, ue, ug) && Shaped(cfg) && IsRun(cfg, steps)
    requires r < p.n && After(cfg, steps).ranks[r].complete && q < p.n && e < p.counts[q]
    ensures After(cfg, steps).ranks[r].mem(Cell(0, Disp(p.counts, q) + e)) == init(q, Cell(0, e))
  {
    WellFormedPlan(p, cfg, op, init, ue, ug);
    RunsAreCorrect(cfg, steps, r);
    assert MyOff(p, r) == Disp(p.counts, r);
    hide Follows, WellFormed, Sealed, Rotated, IsRun, After, Disp, Cfg;
    FinalBlock(p, cfg, r, After(cfg, steps).ranks[r].mem, q, e);
  }

  lemma {:induction false} EvenDisp(n: nat, nelems: nat, k: nat)
    requires k <= n
    ensures Disp(seq(n, _ => nelems), k) == k * nelems
    decreases k
  {
    if k > 0 {
      EvenDisp(n, nelems, k - 1);
      assert (k - 1) * nelems + nelems == k * nelems;
    }
  }

  function EvenPlan(n: nat, nelems: nat): Plan { Plan(n, seq(n, _ => nelems), true) }

  // Allgather: the special case of equal blocks.
  lemma AllgatherCorrect<E(!new)>(n: nat, nelems: nat, op: (E, E) -> E, init: (nat, Cell) -> E, ue: nat -> bool, ug: bool,
                                  cfg: Config<E>, steps: seq<Step<E>>, r: nat, q: nat, e: nat)
    requires n >= 2 && cfg == Cfg(EvenPlan(n, nelems), op, init, ue, ug) && Shaped(cfg) && IsRun(cfg, steps)
    requires r < n && After(cfg, steps).ranks[r].complete && q < n && e < nelems
    ensures After(cfg, steps).ranks[r].mem(Cell(0, q * nelems + e)) == init(q, Cell(0, e))
  {
    hide IsRun, After, Cfg, Disp;
    AllgathervCorrect(EvenPlan(n, nelems), op, init, ue, ug, cfg, steps, r, q, e);
    EvenDisp(n, nelems, q);
  }

  // ---------- barrier ----------

  // In a reachable state a finished receive means that its send was started.
  lemma RecvdMeansSent<E(!new)>(cfg: Config<E>, g: Global<E>, c: Chan)
    requires WellFormed(cfg) && Inv(cfg, g) && IsChan(cfg, c) && RecvKey(c) in g.ranks[c.dst].fin
    ensures SendKey(c) in g.ranks[c.src].started
  {
    var lg := Expected(cfg);
    var _ := SendAct(cfg, c);
    assert Conserved(cfg, lg, g, c);
    assert LookAt(cfg, lg, g, c).recvd;
  }

  lemma StartedBefore<E(!new)>(p: Plan, cfg: Config<E>, g: Global<E>, r: nat, s: nat, send: bool)
    requires Follows(p, cfg) && WellFormed(cfg) && Inv(cfg, g) && r < p.n && s < Steps(p)
    requires StepKey(p, r, s, send) in g.ranks[r].started
    ensures g.ranks[r].begun && (s > 0 ==> StepKey(p, r, s - 1, false) in g.ranks[r].fin)
  {
    var k := StepKey(p, r, s, send);
    assert Local(cfg, Expected(cfg), r, g.ranks[r]);
    assert FollowsAt(p, cfg, r, k);
    StepIs(p, r, s, send);
    assert s > 0 ==> StepKey(p, r, s - 1, false) in cfg.dag[r].pre[k];
  }

  // Once rank r has finished the receive of step s, the ranks up to 2^(s+1)
  // above it have begun.
  lemma {:induction false} Reached<E(!new)>(p: Plan, cfg: Config<E>, g: Global<E>, r: nat, s: nat, j: nat)
    requires Follows(p, cfg) && WellFormed(cfg) && Inv(cfg, g) && r < p.n && s < Steps(p) && j < Have(p, s + 1) <= p.n
    requires StepKey(p, r, s, false) in g.ranks[r].fin
    ensures g.ranks[Above(p.n, r, j)].begun
    decreases s
  {
    hide WellFormed, Inv, FollowsAt, Rnd;
    var w := Source(p, r, s);
    var b := Passes(p, s);
    FinishedStarted(p, cfg, g, r, s);
    StartedBefore(p, cfg, g, r, s, false);
    StartedBefore(p, cfg, g, w, s, true);
    if j < Pow2(s) {
      if s > 0 { Reached(p, cfg, g, r, s - 1, j); }
    } else {
      if s > 0 { Reached(p, cfg, g, w, s - 1, j - Pow2(s)); }
      assert Above(p.n, w, j - Pow2(s)) == Above(p.n, r, j);
    }
  }

  lemma FinishedStarted<E(!new)>(p: Plan, cfg: Config<E>, g: Global<E>, r: nat, s: nat)
    requires Follows(p, cfg) && WellFormed(cfg) && Inv(cfg, g) && r < p.n && s < Steps(p)
    requires StepKey(p, r, s, false) in g.ranks[r].fin
    ensures StepKey(p, r, s, false) in g.ranks[r].started
    ensures StepKey(p, Source(p, r, s), s, true) in g.ranks[Source(p, r, s)].started
  {
    var w := Source(p, r, s);
    assert Local(cfg, Expected(cfg), r, g.ranks[r]);
    PartnersAgree(p, r, s);
    StepIs(p, w, s, true);
    assert FollowsAt(p, cfg, w, StepKey(p, w, s, true));
    RecvdMeansSent(cfg, g, Chan(w, r, Rnd(p, s)));
  }

  // Barrier (every block empty), and any other collective on this schedule: no
  // rank completes before every rank has started.
  lemma BarrierSafe<E(!new)>(p: Plan, op: (E, E) -> E, init: (nat, Cell) -> E, ue: nat -> bool, ug: bool,
                             cfg: Config<E>, steps: seq<Step<E>>, r: nat, q: nat)
    requires Ok(p) && cfg == Cfg(p, op, init, ue, ug) && Shaped(cfg) && IsRun(cfg, steps)
    requires r < p.n && q < p.n && After(cfg, steps).ranks[r].complete
    ensures After(cfg, steps).ranks[q].begun
  {
    WellFormedPlan(p, cfg, op, init, ue, ug);
    RunInv(cfg, steps);
    RunsAreCorrect(cfg, steps, r);
    var s := Steps(p) - 1;
    StepIs(p, r, s, false);
    assert FollowsAt(p, cfg, r, StepKey(p, r, s, false));
    Reached(p, cfg, After(cfg, steps), r, s, Place(p.n, r, q));
  }
}
