// What the halving schedule computes, read round by round.
module WilkeSync {
  import opened Actions
  import opened Protocol
  import opened Schedule
  import opened Powers
  import opened VirtualRanks
  import opened Halving
  import opened FoldOp
  import opened Wilke
  import opened WilkeProof

  // Element i of each rank's contribution.
  ghost function Input<E(!new)>(cfg: Config<E>, i: nat): nat -> E { (r: nat) => cfg.init(r, Cell(0, i)) }

  // ---------- one step ----------

  lemma StepWrites<E(!new)>(p: Plan, cfg: Config<E>, v: nat, s: nat, c: Cell)
    requires Follows(p, cfg) && WellFormed(cfg) && Performs(p, v, s) && Real(p.n, v) < p.n && Received(p, v, s).Has(c)
    ensures var r, k := Real(p.n, v), StepKey(p, v, s, false);
            && Writer(cfg, r, s, c, k) && (Reduces(cfg, r, k) <==> s < L(p))
            && Origin(cfg, r, k, c) == (Real(p.n, Partner(p, v, s)), c)
  {
    hide At, RaceFree, ScratchOk, Timed, Matched, Off, Len, Performs;
    var r, k, w := Real(p.n, v), StepKey(p, v, s, false), Partner(p, v, s);
    StepIsStep(p, v, s, false);
    PartnerStep(p, v, s);
    StepRound(p, v, s);
    StepIsStep(p, w, s, true);
    assert FollowsAt(p, cfg, r, k);
    assert FollowsAt(p, cfg, Real(p.n, w), StepKey(p, w, s, true));
    assert ChanOf(r, k) == Chan(Real(p.n, w), r, Rnd(p, v, s));
  }

  lemma StepValue<E(!new)>(p: Plan, cfg: Config<E>, v: nat, s: nat, c: Cell)
    requires Follows(p, cfg) && WellFormed(cfg) && Performs(p, v, s) && Real(p.n, v) < p.n && Received(p, v, s).Has(c)
    ensures Real(p.n, Partner(p, v, s)) < p.n
    ensures var mine, other := At(cfg, s, Real(p.n, v), c), At(cfg, s, Real(p.n, Partner(p, v, s)), c);
            At(cfg, s + 1, Real(p.n, v), c) == if s < L(p) then cfg.op(mine, other) else other
  {
    hide At, RaceFree, ScratchOk, Timed, Matched, FollowsAt, Off, Len, Writer, Reduces, Origin;
    StepRound(p, v, s);
    StepWrites(p, cfg, v, s, c);
    AtWrite(cfg, s, Real(p.n, v), c, StepKey(p, v, s, false));
  }

  // A cell no role of r receives in step s keeps its value.
  lemma StepFrame<E(!new)>(p: Plan, cfg: Config<E>, r: nat, s: nat, c: Cell)
    requires Follows(p, cfg) && WellFormed(cfg) && r < p.n && s <= 2 * L(p)
    requires forall v :: Performs(p, v, s) && Real(p.n, v) == r ==> !Received(p, v, s).Has(c)
    ensures At(cfg, s + 1, r, c) == At(cfg, s, r, c)
  {
    hide At, RaceFree, ScratchOk, Timed, Matched, Off, Len;
    forall k ensures !Writer(cfg, r, s, c, k) {
      if Writer(cfg, r, s, c, k) {
        TouchesZone(p, cfg, r, k, c);
        assert FollowsAt(p, cfg, r, k);
        KeyCases(p, r, k);
        if IsStep(p, r, k) {
          StepIsStep(p, RoleOf(p, r, k.round), s, false);
        } else {
          HandOffIs(p, r, k);
        }
      }
    }
    AtFrame(cfg, s, r, c);
  }

  // ---------- halving ----------

  // The contributions of the real ranks behind the virtual ranks [b, b + 2^t),
  // each once.
  ghost function BlockFold<E(!new)>(p: Plan, cfg: Config<E>, b: nat, t: nat, i: nat): E
    requires Ok(p)
  {
    var lo, hi := Real(p.n, b), Real(p.n, b + Pow2(t));
    if lo < hi then Fold(cfg.op, Input(cfg, i), lo, hi) else cfg.init(lo, Cell(0, i))
  }

  // What v has combined after t rounds: its rank's own element, then its block's.
  ghost function Group<E(!new)>(p: Plan, cfg: Config<E>, v: nat, t: nat, i: nat): E
    requires Ok(p)
  {
    if t == 0 || Block(v, t) < 0 then cfg.init(Real(p.n, v), Cell(0, i)) else BlockFold(p, cfg, Block(v, t), t, i)
  }

  lemma BlockEven(v: nat, t: nat)
    requires t >= 1
    ensures Block(v, t) >= 0 && Block(v, t) % 2 == 0
  {
    BlockFacts(v, t);
    assert Pow2(t) == 2 * Pow2(t - 1);
    EvenProduct(Hi(v, t), Pow2(t - 1));
  }

  lemma EvenProduct(h: nat, q: nat)
    ensures h * (2 * q) >= 0 && h * (2 * q) % 2 == 0
  {
    assert h * (2 * q) == 2 * (h * q);
  }

  // Two or more virtual ranks from an even one on stand for a real rank at least.
  lemma RealGrows(n: nat, b: nat, w: nat)
    requires b % 2 == 0 && w >= 2 && w % 2 == 0
    ensures Real(n, b) < Real(n, b + w)
  {
  }

  lemma BlockFoldStep<E(!new)>(p: Plan, cfg: Config<E>, b: nat, t: nat, i: nat)
    requires Ok(p) && t >= 1 && b % 2 == 0 && Associative(cfg.op)
    ensures BlockFold(p, cfg, b, t + 1, i) == cfg.op(BlockFold(p, cfg, b, t, i), BlockFold(p, cfg, b + Pow2(t), t, i))
  {
    hide Real, Fold, Associative, Input, Twos;
    var w := Pow2(t);
    assert w == 2 * Pow2(t - 1) && Pow2(t + 1) == w + w;
    RealGrows(p.n, b, w);
    RealGrows(p.n, b + w, w);
    FoldSplit(cfg.op, Input(cfg, i), Real(p.n, b), Real(p.n, b + w), Real(p.n, b + w + w));
  }

  lemma GroupPair<E(!new)>(p: Plan, cfg: Config<E>, v: nat, i: nat)
    requires Ok(p) && v < VNproc(p.n) && v >= 2 * Twos(p.n) && Commutative(cfg.op)
    ensures Flip(v, 0) >= 0 && Group(p, cfg, v, 1, i) == cfg.op(Group(p, cfg, v, 0, i), Group(p, cfg, Flip(v, 0), 0, i))
  {
    var lo: nat := v - v % 2;
    assert Pow2(0) == 1 && Pow2(1) == 2;
    assert Block(v, 1) == lo && Real(p.n, lo + 1) == Real(p.n, lo) + 1 && Real(p.n, lo + 2) == Real(p.n, lo) + 2;
    var a, x := Real(p.n, lo), Input(cfg, i);
    assert Fold(cfg.op, x, a, a + 2) == cfg.op(x(a), x(a + 1));
  }

  lemma BlockHalves(v: nat, t: nat)
    requires Flip(v, t) >= 0
    ensures var lo := Block(v, t + 1);
            && Block(v, t) == lo + (if Low(v, t) then 0 else Pow2(t))
            && Block(Flip(v, t), t) == lo + (if Low(v, t) then Pow2(t) else 0)
  {
    FlipBlock(v, t);
  }

  lemma GroupWide<E(!new)>(p: Plan, cfg: Config<E>, v: nat, t: nat, i: nat)
    requires Ok(p) && t >= 1 && Flip(v, t) >= 0 && Associative(cfg.op) && Commutative(cfg.op)
    ensures Group(p, cfg, v, t + 1, i) == cfg.op(Group(p, cfg, v, t, i), Group(p, cfg, Flip(v, t), t, i))
  {
    hide BlockFold, Real, Hi, Pow2, Block, Flip, Associative;
    BlockEven(v, t + 1);
    BlockHalves(v, t);
    BlockFoldStep(p, cfg, Block(v, t + 1), t, i);
  }

  // Combining the blocks of two partners gives the block of the next round.
  lemma GroupStep<E(!new)>(p: Plan, cfg: Config<E>, v: nat, t: nat, i: nat)
    requires Ok(p) && t < L(p) && v < VNproc(p.n) && (t > 0 || v >= 2 * Twos(p.n))
    requires Associative(cfg.op) && Commutative(cfg.op)
    ensures Flip(v, t) >= 0 && Group(p, cfg, v, t + 1, i) == cfg.op(Group(p, cfg, v, t, i), Group(p, cfg, Flip(v, t), t, i))
  {
    FlipInRange(v, t, L(p));
    if t == 0 { GroupPair(p, cfg, v, i); } else { GroupWide(p, cfg, v, t, i); }
  }

  // A rank with two roles starts with the value of both.
  lemma GroupShared<E(!new)>(p: Plan, cfg: Config<E>, v: nat, i: nat)
    requires Ok(p) && v < 2 * Twos(p.n)
    ensures Group(p, cfg, v, 1, i) == Group(p, cfg, v, 0, i)
  {
    assert Pow2(1) == 2 && Pow2(0) == 1;
    var b := Block(v, 1);
    assert Hi(v, 0) == v && Block(v, 0) == v;
    assert b == v - v % 2;
    assert Real(p.n, b) == v / 2 && Real(p.n, b + 2) == v / 2 + 1;
  }

  lemma HalvingStart<E(!new)>(p: Plan, cfg: Config<E>, v: nat, i: nat)
    requires Ok(p) && Basic(cfg) && Real(p.n, v) < cfg.n
    ensures At(cfg, 0, Real(p.n, v), Cell(0, i)) == Group(p, cfg, v, 0, i)
  {
  }

  // After t halving rounds every element v still keeps combines v's block.
  lemma {:induction false} HalvingValue<E(!new)>(p: Plan, cfg: Config<E>, v: nat, t: nat, i: nat)
    requires Follows(p, cfg) && WellFormed(cfg) && Associative(cfg.op) && Commutative(cfg.op)
    requires t <= L(p) && v < VNproc(p.n) && Kept(v, t, p.nelems).Has(Cell(0, i)) && Real(p.n, v) < p.n
    ensures At(cfg, t, Real(p.n, v), Cell(0, i)) == Group(p, cfg, v, t, i)
    decreases t
  {
    hide At, RaceFree, ScratchOk, Timed, Matched, FollowsAt, Off, Len, Group;
    HalvingStart(p, cfg, v, i);
    if t > 0 {
      var s, c, r := t - 1, Cell(0, i), Real(p.n, v);
      KeptSplit(v, s, p.nelems, L(p));
      HalvingValue(p, cfg, v, s, i);
      if Performs(p, v, s) {
        var w := Partner(p, v, s);
        RolesPartition(p.n, 0, w);
        HalvingValue(p, cfg, w, s, i);
        StepValue(p, cfg, v, s, c);
        GroupStep(p, cfg, v, s, i);
      } else {
        StepFrame(p, cfg, r, s, c);
        GroupShared(p, cfg, v, i);
      }
    }
  }

  // ---------- mirrored exchange ----------

  ghost function Full<E(!new)>(p: Plan, cfg: Config<E>, i: nat): E
    requires Ok(p)
  {
    Fold(cfg.op, Input(cfg, i), 0, p.n)
  }

  lemma GroupAll<E(!new)>(p: Plan, cfg: Config<E>, v: nat, i: nat)
    requires Ok(p) && v < VNproc(p.n)
    ensures Group(p, cfg, v, L(p), i) == Full(p, cfg, i)
  {
    BlockFacts(v, L(p));
    HiBound(v, L(p), L(p));
    assert Block(v, L(p)) == 0;
    assert Real(p.n, VNproc(p.n)) == p.n;
  }

  // v took part in the mirrored steps for the digits d and above.
  predicate Took(p: Plan, v: nat, d: nat)
    requires d <= L(p)
  {
    d == L(p) || Takes(p, v, 2 * L(p) - 1 - d)
  }

  lemma TookBefore(p: Plan, v: nat, d: nat)
    requires Ok(p) && d < L(p) && v < VNproc(p.n) && Took(p, v, d)
    ensures Took(p, v, d + 1) && Took(p, Partner(p, v, 2 * L(p) - 1 - d), d + 1)
  {
    var s := 2 * L(p) - 1 - d;
    SameSide(p, v, s);
    Pow2Grows(2 * L(p) - s, 2 * L(p) - s + 1);
  }

  // A mirrored step completes v's next larger range from the two halves.
  lemma MirrorStep<E(!new)>(p: Plan, cfg: Config<E>, v: nat, s: nat, i: nat)
    requires Follows(p, cfg) && WellFormed(cfg)
    requires L(p) <= s < 2 * L(p) && v < VNproc(p.n) && Takes(p, v, s) && Real(p.n, v) < p.n && Real(p.n, Partner(p, v, s)) < p.n
    requires var d, c := Digit(p, s), Cell(0, i);
             && Kept(v, d, p.nelems).Has(c)
             && (Kept(v, d + 1, p.nelems).Has(c) ==> At(cfg, s, Real(p.n, v), c) == Full(p, cfg, i))
             && (Kept(Partner(p, v, s), d + 1, p.nelems).Has(c) ==> At(cfg, s, Real(p.n, Partner(p, v, s)), c) == Full(p, cfg, i))
    ensures At(cfg, s + 1, Real(p.n, v), Cell(0, i)) == Full(p, cfg, i)
  {
    var d, c, w := Digit(p, s), Cell(0, i), Partner(p, v, s);
    KeptSplit(v, d, p.nelems, L(p));
    if Kept(v, d + 1, p.nelems).Has(c) {
      MirrorKeeps(p, cfg, v, s, c);
    } else if Performs(p, v, s) {
      StepValue(p, cfg, v, s, c);
    } else {
      SharedRoles(p.n, v, d);
      MirrorKeeps(p, cfg, w, s, c);
    }
  }

  // After the mirrored step for digit d a participating v holds the final
  // value of every element it kept after d halving rounds.
  lemma {:induction false} MirrorValue<E(!new)>(p: Plan, cfg: Config<E>, v: nat, d: nat, i: nat)
    requires Follows(p, cfg) && WellFormed(cfg) && Associative(cfg.op) && Commutative(cfg.op)
    requires d <= L(p) && v < VNproc(p.n) && Took(p, v, d) && Real(p.n, v) < p.n
    requires Kept(v, d, p.nelems).Has(Cell(0, i))
    ensures At(cfg, 2 * L(p) - d, Real(p.n, v), Cell(0, i)) == Full(p, cfg, i)
    decreases L(p) - d
  {
    hide At, RaceFree, ScratchOk, Timed, Matched, FollowsAt, Off, Len, Full;
    if d == L(p) {
      HalvingValue(p, cfg, v, d, i);
      GroupAll(p, cfg, v, i);
    } else {
      var s := 2 * L(p) - 1 - d;
      var w := Partner(p, v, s);
      TookBefore(p, v, d);
      RolesPartition(p.n, 0, w);
      if Kept(v, d + 1, p.nelems).Has(Cell(0, i)) { MirrorValue(p, cfg, v, d + 1, i); }
      if Kept(w, d + 1, p.nelems).Has(Cell(0, i)) { MirrorValue(p, cfg, w, d + 1, i); }
      MirrorStep(p, cfg, v, s, i);
    }
  }

  // A mirrored step does not touch what a role of the rank already holds.
  lemma MirrorKeeps<E(!new)>(p: Plan, cfg: Config<E>, v: nat, s: nat, c: Cell)
    requires Follows(p, cfg) && WellFormed(cfg) && v < VNproc(p.n) && Real(p.n, v) < p.n && L(p) <= s < 2 * L(p)
    requires c.buf == 0 && Kept(v, Digit(p, s) + 1, p.nelems).Has(c)
    ensures At(cfg, s + 1, Real(p.n, v), c) == At(cfg, s, Real(p.n, v), c)
  {
    hide At, RaceFree, ScratchOk, Timed, Matched, FollowsAt, Off, Len;
    forall u | Performs(p, u, s) && Real(p.n, u) == Real(p.n, v) ensures !Received(p, u, s).Has(c) {
      KeptSplit(u, Digit(p, s), p.nelems, L(p));
      if u != v {
        TwoHalves(p, v, u, Digit(p, s), c);
      }
    }
    StepFrame(p, cfg, Real(p.n, v), s, c);
  }

  // The two roles of one rank never hold or receive the same element.
  lemma TwoHalves(p: Plan, v: nat, u: nat, d: nat, c: Cell)
    requires Ok(p) && v < VNproc(p.n) && u < VNproc(p.n) && u != v && Real(p.n, u) == Real(p.n, v) && 0 < d < L(p)
    requires Kept(v, d + 1, p.nelems).Has(c)
    ensures !Kept(u, d, p.nelems).Has(c)
  {
    KeptNested(v, 1, d + 1, p.nelems, c);
    KeptSplit(v, 0, p.nelems, L(p));
    if Kept(u, d, p.nelems).Has(c) { KeptNested(u, 1, d, p.nelems, c); }
  }

  // ---------- the results ----------

  lemma WholeKept(v: nat, n: nat, i: nat)
    requires i < n
    ensures Kept(v, 0, n).Has(Cell(0, i))
  {
  }

  // Which half of the vector role v keeps after the first round.
  lemma HalfKept(v: nat, n: nat, i: nat)
    ensures Kept(v, 1, n).Has(Cell(0, i)) <==> if v % 2 == 0 then i < Up(n) else Up(n) <= i < n
  {
    assert Hi(v, 0) == v && Kept(v, 0, n) == Span(0, 0, n);
  }

  lemma AnyRole(n: nat, r: nat) returns (v: nat)
    requires n >= 2 && r < n
    ensures v < VNproc(n) && Real(n, v) == r
  {
    v := if r >= Twos(n) then Twos(n) + r else 2 * r;
    RolesPartition(n, r, v);
  }

  // No action writes cell c of rank r from time t on (hand-off aside).
  lemma Settled<E(!new)>(p: Plan, cfg: Config<E>, r: nat, t: nat, t': nat, c: Cell)
    requires Follows(p, cfg) && WellFormed(cfg) && r < p.n && t <= t' <= 2 * L(p) + 1
    requires forall v, s :: Performs(p, v, s) && Real(p.n, v) == r && t <= s ==> !Received(p, v, s).Has(c)
    ensures At(cfg, t', r, c) == At(cfg, t, r, c)
    decreases t' - t
  {
    if t < t' {
      Settled(p, cfg, r, t, t' - 1, c);
      StepFrame(p, cfg, r, t' - 1, c);
    }
  }

  // Without a hand-off at rank r for c, the last unit of time changes nothing.
  lemma NoHandOff<E(!new)>(p: Plan, cfg: Config<E>, r: nat, c: Cell)
    requires Follows(p, cfg) && WellFormed(cfg) && r < p.n
    requires forall k :: IsHandOff(p, r, k) && k.kind == Recv ==> !Zone(p, r, k).Has(Cell(0, c.idx))
    ensures At(cfg, cfg.notes.horizon, r, c) == At(cfg, 2 * L(p) + 1, r, c)
  {
    var t := 2 * L(p) + 1;
    forall k ensures !Writer(cfg, r, t, c, k) {
      if Writer(cfg, r, t, c, k) {
        TouchesZone(p, cfg, r, k, c);
        assert FollowsAt(p, cfg, r, k);
        KeyCases(p, r, k);
        if IsStep(p, r, k) { StepIsStep(p, RoleOf(p, r, k.round), StepOf(p, k.round), false); }
      }
    }
    AtFrame(cfg, t, r, c);
  }

  // Allreduce: every rank ends with every element fully combined.
  lemma AllreduceValue<E(!new)>(p: Plan, cfg: Config<E>, r: nat, i: nat)
    requires Follows(p, cfg) && WellFormed(cfg) && Associative(cfg.op) && Commutative(cfg.op)
    requires p.root.None? && r < p.n && i < p.nelems
    ensures At(cfg, cfg.notes.horizon, r, Cell(0, i)) == Full(p, cfg, i)
  {
    var v := AnyRole(p.n, r);
    WholeKept(v, p.nelems, i);
    MirrorValue(p, cfg, v, 0, i);
    Settled(p, cfg, r, 2 * L(p), 2 * L(p) + 1, Cell(0, i));
    NoHandOff(p, cfg, r, Cell(0, i));
  }

  // Reduce to rank 0.
  lemma ReduceToZero<E(!new)>(p: Plan, cfg: Config<E>, i: nat)
    requires Follows(p, cfg) && WellFormed(cfg) && Associative(cfg.op) && Commutative(cfg.op)
    requires p.root == Some(0) && i < p.nelems
    ensures At(cfg, cfg.notes.horizon, 0, Cell(0, i)) == Full(p, cfg, i)
  {
    WholeKept(0, p.nelems, i);
    assert Real(p.n, 0) == 0;
    assert Took(p, 0, 0);
    MirrorValue(p, cfg, 0, 0, i);
    Settled(p, cfg, 0, 2 * L(p), 2 * L(p) + 1, Cell(0, i));
    NoHandOff(p, cfg, 0, Cell(0, i));
  }

  // Reduce to another rank: before the hand-off rank 0 holds the first half ..
  lemma FirstHalf<E(!new)>(p: Plan, cfg: Config<E>, i: nat)
    requires Follows(p, cfg) && WellFormed(cfg) && Associative(cfg.op) && Commutative(cfg.op)
    requires p.root.Some? && p.root.value != 0 && i < Up(p.nelems)
    ensures At(cfg, 2 * L(p) + 1, 0, Cell(0, i)) == Full(p, cfg, i)
  {
    HalfKept(0, p.nelems, i);
    assert Real(p.n, 0) == 0;
    assert Took(p, 0, 1);
    MirrorValue(p, cfg, 0, 1, i);
    Settled(p, cfg, 0, 2 * L(p) - 1, 2 * L(p) + 1, Cell(0, i));
  }

  // .. and rank 1 the second half, unless it plays virtual rank 2 only.
  lemma SecondHalf<E(!new)>(p: Plan, cfg: Config<E>, i: nat)
    requires Follows(p, cfg) && WellFormed(cfg) && Associative(cfg.op) && Commutative(cfg.op)
    requires p.root.Some? && p.root.value != 0 && Up(p.nelems) <= i < p.nelems && Twos(p.n) != 1
    ensures At(cfg, 2 * L(p) + 1, 1, Cell(0, i)) == Full(p, cfg, i)
  {
    hide At, WellFormed, FollowsAt, Kept, Took, Performs, Full, Associative, Commutative, Received, VNproc, Real;
    var v := OddRole(p);
    HalfKept(v, p.nelems, i);
    MirrorValue(p, cfg, v, 1, i);
    NoLastStep(p);
    Settled(p, cfg, 1, 2 * L(p) - 1, 2 * L(p) + 1, Cell(0, i));
  }

  // The odd role of rank 1, which has taken part in all mirrored rounds but the last.
  lemma OddRole(p: Plan) returns (v: nat)
    requires Ok(p) && p.root.Some? && p.root.value != 0 && Twos(p.n) != 1
    ensures v < VNproc(p.n) && v % 2 == 1 && Real(p.n, v) == 1 && Took(p, v, 1)
  {
    v := if Twos(p.n) == 0 then 1 else 3;
    assert VNproc(p.n) == 2 * Pow2(L(p) - 1);
    RolesPartition(p.n, 1, v);
    if L(p) >= 2 { assert Pow2(2) == 4; }
  }

  // A reduce to a root other than 0 has no last mirrored round.
  lemma NoLastStep(p: Plan)
    requires Ok(p) && p.root.Some? && p.root.value != 0
    ensures forall v: nat, s: nat :: Performs(p, v, s) ==> s < 2 * L(p) - 1
  {
  }

  // With exactly one two-role rank, rank 1 plays virtual rank 2, which gives the
  // second half away in round 0 and never gets it back.
  lemma SecondHalfLost<E(!new)>(p: Plan, cfg: Config<E>, i: nat)
    requires Follows(p, cfg) && WellFormed(cfg)
    requires p.root.Some? && p.root.value != 0 && Up(p.nelems) <= i < p.nelems && Twos(p.n) == 1
    ensures At(cfg, 2 * L(p) + 1, 1, Cell(0, i)) == cfg.init(1, Cell(0, i))
  {
    var c := Cell(0, i);
    forall v, s | Performs(p, v, s) && Real(p.n, v) == 1 && 0 <= s ensures !Received(p, v, s).Has(c) {
      assert v == 2;
      if Received(p, v, s).Has(c) { SecondHalfStays(p, s, c); }
    }
    Settled(p, cfg, 1, 0, 2 * L(p) + 1, c);
  }

  lemma SecondHalfStays(p: Plan, s: nat, c: Cell)
    requires Ok(p) && p.root.Some? && p.root.value != 0 && Performs(p, 2, s) && Received(p, 2, s).Has(c) && c.buf == 0
    ensures c.idx < Up(p.nelems)
  {
    var d := Digit(p, s);
    assert c == Cell(0, c.idx);
    if d == 0 {
      HalfKept(2, p.nelems, c.idx);
    } else {
      KeptSplit(2, d, p.nelems, L(p));
      KeptNested(2, 1, d, p.nelems, c);
      HalfKept(2, p.nelems, c.idx);
    }
  }

  // What the root gets from the hand-off.
  lemma HandOffValue<E(!new)>(p: Plan, cfg: Config<E>, src: nat, i: nat)
    requires Follows(p, cfg) && WellFormed(cfg) && p.root.Some? && p.root.value != 0
    requires src == 0 || (src == 1 && p.root.value != 1)
    requires HalfOff(p, src) <= i < HalfOff(p, src) + HalfLen(p, src)
    ensures At(cfg, cfg.notes.horizon, p.root.value, Cell(0, i)) == At(cfg, 2 * L(p) + 1, src, Cell(0, i))
  {
    hide At, RaceFree, ScratchOk, Timed, Matched;
    var r, k, c := p.root.value, Key(Recv, LastRound(p), src), Cell(0, i);
    var sk := Key(Send, LastRound(p), r);
    assert IsHandOff(p, r, k) && IsHandOff(p, src, sk);
    HandOffIs(p, r, k);
    HandOffIs(p, src, sk);
    assert FollowsAt(p, cfg, r, k) && FollowsAt(p, cfg, src, sk);
    assert ChanOf(r, k) == Chan(src, r, LastRound(p));
    assert Writes(cfg, r, k, c) && Origin(cfg, r, k, c) == (src, c) && !Reduces(cfg, r, k);
    AtWrite(cfg, 2 * L(p) + 1, r, c, k);
  }

  // Reduce: the root ends with every element fully combined, with one
  // exception: for a root other than 0 and exactly one two-role rank, the
  // elements of the second half are rank 1's own contribution.
  lemma ReduceValue<E(!new)>(p: Plan, cfg: Config<E>, i: nat)
    requires Follows(p, cfg) && WellFormed(cfg) && Associative(cfg.op) && Commutative(cfg.op)
    requires p.root.Some? && i < p.nelems
    ensures At(cfg, cfg.notes.horizon, p.root.value, Cell(0, i))
            == if p.root.value != 0 && Twos(p.n) == 1 && i >= Up(p.nelems) then cfg.init(1, Cell(0, i)) else Full(p, cfg, i)
  {
    var root := p.root.value;
    if root == 0 {
      ReduceToZero(p, cfg, i);
    } else if i < Up(p.nelems) {
      FirstHalf(p, cfg, i);
      HandOffValue(p, cfg, 0, i);
    } else {
      if Twos(p.n) == 1 { SecondHalfLost(p, cfg, i); } else { SecondHalf(p, cfg, i); }
      if root == 1 { NoHandOff(p, cfg, 1, Cell(0, i)); } else { HandOffValue(p, cfg, 1, i); }
    }
  }
}
