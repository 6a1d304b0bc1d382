// What a rank's memory holds in the middle of a run.
module MidRuns {
  import opened Actions
  import opened Protocol
  import opened Schedule
  import opened Invariant
  import opened MemorySteps
  import opened Safety
  import opened Powers
  import opened Ring
  import B = Bruck
  import BP = BruckProof
  import A = Alltoall
  import AP = AlltoallProof
  import G = Gather
  import GP = GatherProof

  // Just the actions of rank r with a time stamp below t have been carried out,
  // and no other has been started.
  ghost predicate Between<E(!new)>(cfg: Config<E>, r: nat, st: Rank<E>, t: nat)
    requires Shaped(cfg) && r < cfg.n
  {
    forall k :: k in cfg.dag[r].acts ==> if cfg.notes.time(r, k) < t then k in st.fin else k !in st.started
  }

  lemma ThresholdValue<E(!new)>(cfg: Config<E>, steps: seq<Step<E>>, r: nat, c: Cell, t: nat)
    requires WellFormed(cfg) && IsRun(cfg, steps) && r < cfg.n && !cfg.notes.scratch(r, c)
    requires !After(cfg, steps).ranks[r].complete && Threshold(cfg, r, After(cfg, steps).ranks[r], c, t)
    ensures After(cfg, steps).ranks[r].mem(c) == At(cfg, t, r, c)
  {
    hide At, RaceFree, ScratchOk, Timed, Matched, IsRun, After, Threshold, Control;
    RunInv(cfg, steps);
    assert CellOk(cfg, r, After(cfg, steps).ranks[r], c);
  }

  // In every run, a rank between two rounds holds what the round-by-round reading
  // says, whatever the other ranks have done.
  lemma BetweenRounds<E(!new)>(cfg: Config<E>, steps: seq<Step<E>>, r: nat, t: nat, c: Cell)
    requires WellFormed(cfg) && IsRun(cfg, steps) && r < cfg.n && !cfg.notes.scratch(r, c)
    requires !After(cfg, steps).ranks[r].complete && Between(cfg, r, After(cfg, steps).ranks[r], t)
    ensures After(cfg, steps).ranks[r].mem(c) == At(cfg, t, r, c)
  {
    hide At, RaceFree, ScratchOk, Timed, Matched, IsRun, After, Applied;
    var st := After(cfg, steps).ranks[r];
    InRun(cfg, steps, r);
    forall k | Writes(cfg, r, k, c) ensures Applied(cfg, r, st, k) <==> cfg.notes.time(r, k) < t {
      if Applied(cfg, r, st, k) { AppliedStarted(cfg, r, st, k); }
      AppliedFin(cfg, r, st, k);
    }
    ThresholdValue(cfg, steps, r, c, t);
  }

  // A cell all of whose writers are finished has its value for good.
  lemma CellSettled<E(!new)>(cfg: Config<E>, steps: seq<Step<E>>, r: nat, t: nat, c: Cell)
    requires WellFormed(cfg) && IsRun(cfg, steps) && r < cfg.n && !cfg.notes.scratch(r, c)
    requires !After(cfg, steps).ranks[r].complete
    requires forall k :: Writes(cfg, r, k, c) ==> k in After(cfg, steps).ranks[r].fin && cfg.notes.time(r, k) < t
    ensures After(cfg, steps).ranks[r].mem(c) == At(cfg, t, r, c)
  {
    hide At, RaceFree, ScratchOk, Timed, Matched, IsRun, After, Applied;
    var st := After(cfg, steps).ranks[r];
    forall k | Writes(cfg, r, k, c) ensures Applied(cfg, r, st, k) { AppliedFin(cfg, r, st, k); }
    ThresholdValue(cfg, steps, r, c, t);
  }

  lemma InRun<E(!new)>(cfg: Config<E>, steps: seq<Step<E>>, r: nat)
    requires WellFormed(cfg) && IsRun(cfg, steps) && r < cfg.n
    ensures RankOk(cfg, r, After(cfg, steps).ranks[r]) && LandedOk(cfg, r, After(cfg, steps).ranks[r])
  {
    hide IsRun, After, Control, MemOk, RankOk, LandedOk;
    RunInv(cfg, steps);
    LandedFacts(cfg, After(cfg, steps), r);
  }

  lemma AppliedFin<E(!new)>(cfg: Config<E>, r: nat, st: Rank<E>, k: Key)
    requires WellFormed(cfg) && r < cfg.n && k in cfg.dag[r].acts
    ensures k in st.fin ==> Applied(cfg, r, st, k)
    ensures !cfg.dag[r].acts[k].RecvAction? ==> (Applied(cfg, r, st, k) <==> k in st.fin)
  {
  }

  // In a layered schedule, what has started has all earlier actions finished.
  lemma EarlierFinished<E(!new)>(cfg: Config<E>, r: nat, st: Rank<E>, a: Key, b: Key)
    requires Basic(cfg) && Timed(cfg) && Layered(cfg) && r < cfg.n && RankOk(cfg, r, st)
    requires a in cfg.dag[r].acts && b in st.started && cfg.notes.time(r, a) < cfg.notes.time(r, b)
    ensures a in st.fin
  {
    hide Timed, Layered, Prec, Matched;
    LayeredPrec(cfg, r, a, b);
    PrecFin(cfg, r, st, a, b);
  }

  // ---------- allgather and allgatherv ----------

  // Once the receive of a step is finished, so are those before it.
  lemma {:induction false} EarlierSteps<E(!new)>(p: B.Plan, cfg: Config<E>, r: nat, st: Rank<E>, s: nat, s': nat)
    requires BP.Follows(p, cfg) && Basic(cfg) && Timed(cfg) && Layered(cfg) && r < p.n && RankOk(cfg, r, st) && s' <= s < B.Steps(p)
    requires B.StepKey(p, r, s, false) in st.fin
    ensures B.StepKey(p, r, s', false) in st.fin
  {
    if s' < s {
      var a, b := B.StepKey(p, r, s', false), B.StepKey(p, r, s, false);
      BP.StepIs(p, r, s, false);
      BP.StepIs(p, r, s', false);
      assert BP.FollowsAt(p, cfg, r, a) && BP.FollowsAt(p, cfg, r, b);
      EarlierFinished(cfg, r, st, a, b);
    }
  }

  // Only the receives of steps up to s write the blocks a rank holds after step s.
  lemma BlockWriters<E(!new)>(p: B.Plan, cfg: Config<E>, r: nat, s: nat, j: nat, e: nat, k: Key)
    requires BP.Follows(p, cfg) && Shaped(cfg) && r < p.n && s < B.Steps(p) && j < B.Have(p, s + 1) <= p.n
    requires e < p.counts[Above(p.n, r, j)] && Writes(cfg, r, k, Cell(0, B.Off(p, r, j) + e))
    ensures var s' := B.StepOf(p, k.round); s' <= s && k == B.StepKey(p, r, s', false) && cfg.notes.time(r, k) == s'
  {
    hide B.Off, BP.FollowsAt;
    var c := Cell(0, B.Off(p, r, j) + e);
    assert Mutates(cfg, r, k, c);
    BP.Touches(p, cfg, r, k, c);
    var s' := B.StepOf(p, k.round);
    BP.InBlock(p, r, j);
    if s' > s {
      var _ := B.Passes(p, s');
      Pow2Grows(s + 1, s');
      B.OffGrows(p, r, j + 1, Pow2(s'));
    }
    assert BP.FollowsAt(p, cfg, r, k);
    StepTime(p, cfg, r, k);
  }

  lemma StepTime<E(!new)>(p: B.Plan, cfg: Config<E>, r: nat, k: Key)
    requires BP.Follows(p, cfg) && r < p.n && BP.FollowsAt(p, cfg, r, k) && B.IsKey(p, r, k)
    ensures cfg.notes.time(r, k) == B.StepOf(p, k.round)
  {
  }

  // In every run: a rank that has finished the receive of step s, and has not
  // completed, holds the block of the rank j above it in slot j, for every slot
  // it has after that step, whatever else is under way.
  lemma BlocksInRun<E(!new)>(p: B.Plan, cfg: Config<E>, steps: seq<Step<E>>, r: nat, s: nat, j: nat, e: nat)
    requires BP.Follows(p, cfg) && WellFormed(cfg) && IsRun(cfg, steps) && r < p.n && s < B.Steps(p)
    requires j < B.Have(p, s + 1) <= p.n && e < p.counts[Above(p.n, r, j)]
    requires B.StepKey(p, r, s, false) in After(cfg, steps).ranks[r].fin && !After(cfg, steps).ranks[r].complete
    ensures After(cfg, steps).ranks[r].mem(Cell(0, B.Off(p, r, j) + e)) == cfg.init(Above(p.n, r, j), Cell(0, e))
  {
    hide At, RaceFree, ScratchOk, Timed, Matched, Layered, IsRun, After, B.Off, B.StepKey, BP.FollowsAt, Writes, RankOk, LandedOk;
    var st, c := After(cfg, steps).ranks[r], Cell(0, B.Off(p, r, j) + e);
    InRun(cfg, steps, r);
    BP.BruckLayered(p, cfg);
    forall k | Writes(cfg, r, k, c) ensures k in st.fin && cfg.notes.time(r, k) < s + 1 {
      BlockWriters(p, cfg, r, s, j, e, k);
      EarlierSteps(p, cfg, r, st, s, B.StepOf(p, k.round));
    }
    assert !cfg.notes.scratch(r, c);
    CellSettled(cfg, steps, r, s + 1, c);
    BP.Gathered(p, cfg, s + 1, r, j, e);
  }

  // ---------- all-to-all ----------

  // Only the unpacking of a round writes the result buffer.
  lemma SlotWriters<E(!new)>(p: A.Plan, cfg: Config<E>, r: nat, c: Cell, k: Key)
    requires AP.Follows(p, cfg) && Shaped(cfg) && r < p.n && c.buf == 0 && Writes(cfg, r, k, c)
    ensures k.round < A.Rounds(p) && k == A.ShuffleKey(k.round, A.OUT) && !cfg.dag[r].acts[k].RecvAction?
    ensures cfg.notes.time(r, k) == 3 * k.round + 2
  {
    assert AP.FollowsAt(p, cfg, r, k);
  }

  // In every run: a rank that has unpacked s rounds, and not the next, holds in
  // slot j what slot j held at first on the rank as far below as the digits of j
  // below s say.
  lemma SlotsInRun<E(!new)>(p: A.Plan, cfg: Config<E>, steps: seq<Step<E>>, r: nat, s: nat, j: nat, e: nat)
    requires AP.Follows(p, cfg) && WellFormed(cfg) && IsRun(cfg, steps) && r < p.n && s <= A.Rounds(p) && j < p.n && e < p.nelems
    requires !After(cfg, steps).ranks[r].complete
    requires s > 0 ==> A.ShuffleKey(s - 1, A.OUT) in After(cfg, steps).ranks[r].fin
    requires s < A.Rounds(p) ==> A.ShuffleKey(s, A.OUT) !in After(cfg, steps).ranks[r].fin
    ensures After(cfg, steps).ranks[r].mem(A.Elem(p, 0, j, e)) == cfg.init(Below(p.n, r, AP.Travelled(j, s)), A.Elem(p, 0, j, e))
  {
    hide At, RaceFree, ScratchOk, Timed, Matched, Layered, IsRun, After, AP.FollowsAt, RankOk, LandedOk, Applied, AP.Travelled;
    var st, c := After(cfg, steps).ranks[r], A.Elem(p, 0, j, e);
    InRun(cfg, steps, r);
    AP.AlltoallLayered(p, cfg);
    forall k | Writes(cfg, r, k, c) ensures Applied(cfg, r, st, k) <==> cfg.notes.time(r, k) < 3 * s {
      SlotWriters(p, cfg, r, c, k);
      AppliedFin(cfg, r, st, k);
      Unpacked(p, cfg, r, st, s, k.round);
    }
    assert !cfg.notes.scratch(r, c);
    ThresholdValue(cfg, steps, r, c, 3 * s);
    AP.SlotValue(p, cfg, s, r, j, e);
  }

  // Rounds are unpacked in order.
  lemma Unpacked<E(!new)>(p: A.Plan, cfg: Config<E>, r: nat, st: Rank<E>, s: nat, t: nat)
    requires AP.Follows(p, cfg) && Basic(cfg) && Timed(cfg) && Layered(cfg) && r < p.n && RankOk(cfg, r, st)
    requires s <= A.Rounds(p) && t < A.Rounds(p)
    requires s > 0 ==> A.ShuffleKey(s - 1, A.OUT) in st.fin
    requires s < A.Rounds(p) ==> A.ShuffleKey(s, A.OUT) !in st.fin
    ensures A.ShuffleKey(t, A.OUT) in st.fin <==> t < s
  {
    hide Timed, Layered, Matched;
    if t + 1 < s { UnpackedBefore(p, cfg, r, st, t, s - 1); }
    if s < t && A.ShuffleKey(t, A.OUT) in st.fin { UnpackedBefore(p, cfg, r, st, s, t); }
  }

  lemma UnpackedBefore<E(!new)>(p: A.Plan, cfg: Config<E>, r: nat, st: Rank<E>, a: nat, b: nat)
    requires AP.Follows(p, cfg) && Basic(cfg) && Timed(cfg) && Layered(cfg) && r < p.n && RankOk(cfg, r, st) && a < b < A.Rounds(p)
    requires A.ShuffleKey(b, A.OUT) in st.fin
    ensures A.ShuffleKey(a, A.OUT) in st.fin
  {
    AP.KeyIs(p, r, A.ShuffleKey(a, A.OUT));
    assert AP.FollowsAt(p, cfg, r, A.ShuffleKey(a, A.OUT)) && AP.FollowsAt(p, cfg, r, A.ShuffleKey(b, A.OUT));
    EarlierFinished(cfg, r, st, A.ShuffleKey(a, A.OUT), A.ShuffleKey(b, A.OUT));
  }

  // ---------- gather ----------

  // In every run: after t rounds, before the next, a rank that is a multiple of
  // 2^t holds the blocks of the next 2^t ranks in order.
  lemma BlocksHeldInRun<E(!new)>(p: G.Plan, cfg: Config<E>, steps: seq<Step<E>>, t: nat, r: nat, j: nat, e: nat)
    requires GP.Follows(p, cfg) && WellFormed(cfg) && IsRun(cfg, steps) && t <= G.Depth(p) && r < p.n && G.Whole(r, t)
    requires j < Pow2(t) && r + j < p.n && e < p.nelems
    requires !After(cfg, steps).ranks[r].complete && Between(cfg, r, After(cfg, steps).ranks[r], t)
    ensures After(cfg, steps).ranks[r].mem(GP.Elem(p, j, e)) == cfg.init(r + j, GP.Elem(p, 0, e))
  {
    hide At, RaceFree, ScratchOk, Timed, Matched, IsRun, After, GP.FollowsAt, Between;
    assert !cfg.notes.scratch(r, GP.Elem(p, j, e));
    BetweenRounds(cfg, steps, r, t, GP.Elem(p, j, e));
    GP.Held(p, cfg, t, r, j, e);
  }
}
