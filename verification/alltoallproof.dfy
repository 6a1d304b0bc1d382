// The Bruck all-to-all schedule is well formed and transposes the blocks.
module AlltoallProof {
  import opened Actions
  import opened Protocol
  import opened Schedule
  import opened Invariant
  import opened Safety
  import opened Powers
  import opened Ring
  import opened Alltoall

  // ---------- the DAG ----------

  ghost predicate Follows<E(!new)>(p: Plan, cfg: Config<E>) {
    && Ok(p) && cfg.n == |cfg.dag| == |cfg.ptrs| == p.n && cfg.notes.horizon == 3 * Rounds(p)
    && (forall r: nat, k {:trigger FollowsAt(p, cfg, r, k)} :: r < p.n ==> FollowsAt(p, cfg, r, k))
    && (forall r, k, c {:trigger cfg.move(r, k, c)} :: cfg.move(r, k, c) == Moved(p, k, c))
    && (forall r, c {:trigger cfg.notes.scratch(r, c)} :: !cfg.notes.scratch(r, c))
  }

  ghost predicate FollowsAt<E(!new)>(p: Plan, cfg: Config<E>, r: nat, k: Key)
    requires Ok(p) && r < |cfg.dag| && r < |cfg.ptrs| && r < p.n
  {
    && cfg.ptrs[r] == Ptrs(1, 2, 0)
    && (k in cfg.dag[r].acts <==> IsKey(p, r, k)) && (k in cfg.dag[r].pre <==> IsKey(p, r, k))
    && (IsKey(p, r, k) ==> cfg.dag[r].acts[k] == ActionOf(p, r, k) && cfg.dag[r].pre[k] == PreOf(p, r, k))
    && cfg.notes.time(r, k) == TimeOf(k)
  }

  lemma KeyIs(p: Plan, r: nat, k: Key)
    requires Ok(p) && r < p.n && IsKey(p, r, k)
    ensures k in Keys(p, r) && ActionOf(p, r, k).Id() == k && TimeOf(k) < 3 * Rounds(p)
  {
  }

  lemma CfgFollows<E(!new)>(p: Plan, op: (E, E) -> E, input: (nat, int) -> E, other: (nat, Cell) -> E, ue: nat -> bool, ug: bool)
    requires Ok(p)
    ensures Follows(p, Cfg(p, op, input, other, ue, ug))
  {
    var cfg := Cfg(p, op, input, other, ue, ug);
    forall r: nat, k | r < p.n ensures FollowsAt(p, cfg, r, k) {
      if IsKey(p, r, k) { KeyIs(p, r, k); }
    }
  }

  lemma CommMatched<E(!new)>(p: Plan, cfg: Config<E>, r: nat, k: Key)
    requires Follows(p, cfg) && Shaped(cfg) && r < cfg.n && k in cfg.dag[r].acts && IsComm(k)
    ensures ChanOk(cfg, ChanOf(r, k)) && Simultaneous(cfg, ChanOf(r, k))
  {
    assert FollowsAt(p, cfg, r, k);
    var s := k.round;
    RingIs(p.n, r, Gap(p, s));
    assert FollowsAt(p, cfg, k.partner, CommKey(p, k.partner, s, k.kind == Recv));
  }

  lemma AlltoallBasic<E(!new)>(p: Plan, cfg: Config<E>)
    requires Follows(p, cfg)
    ensures Basic(cfg)
  {
    forall r, k | 0 <= r < cfg.n && k in cfg.dag[r].acts ensures cfg.dag[r].acts[k].Id() == k && k in cfg.dag[r].pre {
      assert FollowsAt(p, cfg, r, k);
      KeyIs(p, r, k);
    }
    forall r: nat, k | r < cfg.n && k in cfg.dag[r].acts && IsComm(k) ensures ChanOk(cfg, ChanOf(r, k)) {
      CommMatched(p, cfg, r, k);
    }
  }

  lemma PreIs(p: Plan, r: nat, k: Key, d: Key)
    requires Ok(p) && r < p.n && IsKey(p, r, k) && d in PreOf(p, r, k)
    ensures IsKey(p, r, d) && TimeOf(d) + 1 == TimeOf(k)
  {
  }

  lemma AlltoallTimed<E(!new)>(p: Plan, cfg: Config<E>)
    requires Follows(p, cfg) && Shaped(cfg)
    ensures Timed(cfg)
  {
    hide PreOf, IsKey, TimeOf, ActionOf;
    forall r: nat, k | r < cfg.n && k in cfg.dag[r].acts && IsComm(k) ensures Simultaneous(cfg, ChanOf(r, k)) {
      CommMatched(p, cfg, r, k);
    }
    forall r: nat, k, d | r < cfg.n && k in cfg.dag[r].acts && d in cfg.dag[r].pre[k]
      ensures d in cfg.dag[r].acts && cfg.notes.time(r, d) < cfg.notes.time(r, k)
    {
      assert FollowsAt(p, cfg, r, k);
      PreIs(p, r, k, d);
      assert FollowsAt(p, cfg, r, d);
    }
    forall r: nat, k | r < cfg.n && k in cfg.dag[r].acts ensures cfg.notes.time(r, k) < cfg.notes.horizon {
      assert FollowsAt(p, cfg, r, k);
      KeyIs(p, r, k);
    }
  }

  // The keys one time step before k are what k waits for, and there are some.
  lemma LayerIs(p: Plan, r: nat, k: Key) returns (e: Key)
    requires Ok(p) && r < p.n && IsKey(p, r, k) && TimeOf(k) > 0
    ensures IsKey(p, r, e) && TimeOf(e) + 1 == TimeOf(k)
    ensures forall d :: IsKey(p, r, d) && TimeOf(d) + 1 == TimeOf(k) ==> d in PreOf(p, r, k)
  {
    e := if k.kind != Shuffle then ShuffleKey(k.round, IN)
         else if k.partner == OUT then CommKey(p, r, k.round, true)
         else ShuffleKey(k.round - 1, OUT);
  }

  lemma AlltoallLayered<E(!new)>(p: Plan, cfg: Config<E>)
    requires Follows(p, cfg) && Shaped(cfg)
    ensures Layered(cfg)
  {
    hide PreOf, IsKey, TimeOf, ActionOf;
    forall r: nat, d, k | r < cfg.n && Adjacent(cfg, r, d, k) ensures d in cfg.dag[r].pre[k] {
      assert FollowsAt(p, cfg, r, k) && FollowsAt(p, cfg, r, d);
      var e := LayerIs(p, r, k);
      assert FollowsAt(p, cfg, r, e);
      assert cfg.notes.time(r, e) == TimeOf(k) - 1;
    }
  }

  // Receives write the receive workspace, sends read the send workspace.
  lemma CommTouches<E(!new)>(p: Plan, cfg: Config<E>, r: nat, k: Key, c: Cell)
    requires Follows(p, cfg) && Shaped(cfg) && r < cfg.n && k.kind != Shuffle && (Mutates(cfg, r, k, c) || Reads(cfg, r, k, c))
    ensures if k.kind == Recv then c.buf == 2 && !Reads(cfg, r, k, c) else c.buf == 1 && !Mutates(cfg, r, k, c)
    ensures k.kind == Recv || k.kind == Send
  {
    assert FollowsAt(p, cfg, r, k);
  }

  // Two actions at one time are the send and the receive of a round.
  lemma SameTime(p: Plan, r: nat, a: Key, b: Key)
    requires Ok(p) && r < p.n && IsKey(p, r, a) && IsKey(p, r, b) && a != b && TimeOf(a) == TimeOf(b)
    ensures a.kind != Shuffle && b.kind != Shuffle && a.kind != b.kind
  {
  }

  lemma AlltoallWellFormed<E(!new)>(p: Plan, cfg: Config<E>)
    requires Follows(p, cfg)
    ensures WellFormed(cfg)
  {
    hide PreOf, IsKey, TimeOf, ActionOf, Layered, Timed, Matched, Mutates, Reads;
    AlltoallBasic(p, cfg);
    AlltoallTimed(p, cfg);
    AlltoallLayered(p, cfg);
    forall r: nat, a, b, c | r < cfg.n && a != b && b in cfg.dag[r].acts
                               && cfg.notes.time(r, a) == cfg.notes.time(r, b) && Mutates(cfg, r, a, c)
      ensures !Mutates(cfg, r, b, c) && !Reads(cfg, r, b, c)
    {
      assert FollowsAt(p, cfg, r, a) && FollowsAt(p, cfg, r, b);
      MutatorIsKey(cfg, r, a, c);
      SameTime(p, r, a, b);
      CommTouches(p, cfg, r, a, c);
      if Mutates(cfg, r, b, c) || Reads(cfg, r, b, c) { CommTouches(p, cfg, r, b, c); }
    }
    LayersRaceFree(cfg);
    NoStaging(p, cfg);
  }

  lemma MutatorIsKey<E(!new)>(cfg: Config<E>, r: nat, k: Key, c: Cell)
    requires Shaped(cfg) && r < cfg.n && Mutates(cfg, r, k, c)
    ensures k in cfg.dag[r].acts
  {
  }

  lemma NoStaging<E(!new)>(p: Plan, cfg: Config<E>)
    requires Follows(p, cfg) && Shaped(cfg)
    ensures ScratchOk(cfg)
  {
    forall r: nat, k, c | r < cfg.n ensures !Stages(cfg, r, k, c) {
      assert FollowsAt(p, cfg, r, k);
    }
  }

  // ---------- packing ----------

  lemma {:induction false} PackedGrows(s: nat, a: nat, b: nat)
    requires a <= b
    ensures Packed(s, a) <= Packed(s, b)
    ensures a < b && Moves(s, a) ==> Packed(s, a) < Packed(s, b)
    decreases b
  {
    if a + 1 < b { PackedGrows(s, a, b - 1); }
  }

  // Unpacking undoes packing.
  lemma {:induction false} UnpackedIs(s: nat, j: nat, b: nat)
    requires j < b && Moves(s, j)
    ensures Unpacked(s, Packed(s, j), b) == j
    decreases b
  {
    if j < b - 1 {
      PackedGrows(s, j, b - 1);
      UnpackedIs(s, j, b - 1);
    }
  }

  lemma ElemIs(p: Plan, buf: nat, b: nat, e: nat)
    requires e < p.nelems
    ensures var c := Elem(p, buf, b, e); c.idx >= 0 && c.idx / p.nelems == b && c.idx % p.nelems == e
  {
    QuotientIs(b * p.nelems + e, p.nelems, b);
  }

  lemma ElemBelow(p: Plan, b: nat, e: nat, n: nat)
    requires e < p.nelems && b < n
    ensures 0 <= b * p.nelems + e < n * p.nelems
  {
    Multiples(b + 1, n, p.nelems);
    Multiples(b, b, p.nelems);
  }

  // ---------- one round ----------

  lemma PackMoves(p: Plan, s: nat, j: nat, e: nat)
    requires Ok(p) && s < Rounds(p) && j < p.n && Moves(s, j) && e < p.nelems
    ensures Packed(s, j) < NumSendBlocks(p, s)
    ensures Moved(p, ShuffleKey(s, IN), Elem(p, 1, Packed(s, j), e)) == Some(Elem(p, 0, j, e))
    ensures Moved(p, ShuffleKey(s, OUT), Elem(p, 0, j, e)) == Some(Elem(p, 2, Packed(s, j), e))
  {
    hide Packed, Unpacked, Moves;
    PackedGrows(s, j, p.n);
    UnpackedIs(s, j, p.n);
    ElemIs(p, 1, Packed(s, j), e);
    ElemIs(p, 0, j, e);
  }

  // A shuffle is the only action of its time.
  lemma ShuffleValue<E(!new)>(p: Plan, cfg: Config<E>, r: nat, s: nat, way: nat, c: Cell, from: Cell)
    requires Follows(p, cfg) && WellFormed(cfg) && r < p.n && s < Rounds(p) && (way == IN || way == OUT)
    requires Moved(p, ShuffleKey(s, way), c) == Some(from)
    ensures var t := TimeOf(ShuffleKey(s, way)); At(cfg, t + 1, r, c) == At(cfg, t, r, from)
  {
    hide At, Moved, RaceFree, ScratchOk, Timed, Matched;
    var k := ShuffleKey(s, way);
    assert FollowsAt(p, cfg, r, k);
    AtWrite(cfg, TimeOf(k), r, c, k);
  }

  lemma RecvIs<E(!new)>(p: Plan, cfg: Config<E>, r: nat, s: nat)
    requires Follows(p, cfg) && Shaped(cfg) && r < p.n && s < Rounds(p)
    ensures var k, w := CommKey(p, r, s, false), Below(p.n, r, Gap(p, s));
            && cfg.n == p.n && k in cfg.dag[r].acts && cfg.dag[r].acts[k] == RecvAction(s, w, 0, Size(p, s), PackedTemp)
            && cfg.notes.time(r, k) == 3 * s + 1 && ChanOf(r, k) == Chan(w, r, s)
            && Key(Send, s, r) in cfg.dag[w].acts && cfg.dag[w].acts[Key(Send, s, r)] == SendAction(s, r, 0, Size(p, s), TempSend)
            && cfg.ptrs[r] == cfg.ptrs[w] == Ptrs(1, 2, 0)
  {
    var k, w := CommKey(p, r, s, false), Below(p.n, r, Gap(p, s));
    RingIs(p.n, r, Gap(p, s));
    assert FollowsAt(p, cfg, r, k) && FollowsAt(p, cfg, w, Key(Send, s, r));
  }

  lemma RecvWrites<E(!new)>(p: Plan, cfg: Config<E>, r: nat, s: nat, i: nat)
    requires Follows(p, cfg) && Basic(cfg) && r < p.n && s < Rounds(p) && i < Size(p, s)
    ensures var k, c := CommKey(p, r, s, false), Cell(2, i);
            && Writer(cfg, r, 3 * s + 1, c, k) && !Reduces(cfg, r, k)
            && Origin(cfg, r, k, c) == (Below(p.n, r, Gap(p, s)), Cell(1, i))
  {
    hide FollowsAt, Follows, Matched, Size, CommKey, Below, Gap;
    RecvIs(p, cfg, r, s);
  }

  lemma SendValue<E(!new)>(p: Plan, cfg: Config<E>, r: nat, s: nat, i: nat)
    requires Follows(p, cfg) && WellFormed(cfg) && r < p.n && s < Rounds(p) && i < Size(p, s)
    ensures At(cfg, 3 * s + 2, r, Cell(2, i)) == At(cfg, 3 * s + 1, Below(p.n, r, Gap(p, s)), Cell(1, i))
  {
    hide At, FollowsAt, RaceFree, ScratchOk, Timed, Matched, CommKey, Writer, Origin, Size;
    RecvWrites(p, cfg, r, s, i);
    AtWrite(cfg, 3 * s + 1, r, Cell(2, i), CommKey(p, r, s, false));
  }

  // What writes into the result buffer.
  lemma OnlyUnpacking<E(!new)>(p: Plan, cfg: Config<E>, r: nat, k: Key, c: Cell)
    requires Follows(p, cfg) && Shaped(cfg) && r < cfg.n && c.buf == 0 && Writes(cfg, r, k, c)
    ensures IsKey(p, r, k) && k == ShuffleKey(k.round, OUT) && Moved(p, k, c).Some? && cfg.notes.time(r, k) == 3 * k.round + 2
  {
    assert FollowsAt(p, cfg, r, k);
  }

  // A slot keeps its content until its round's unpacking, if it moves at all.
  lemma SlotStays<E(!new)>(p: Plan, cfg: Config<E>, r: nat, s: nat, j: nat, e: nat)
    requires Follows(p, cfg) && WellFormed(cfg) && r < p.n && s < Rounds(p) && j < p.n && e < p.nelems && !Moves(s, j)
    ensures At(cfg, 3 * s + 3, r, Elem(p, 0, j, e)) == At(cfg, 3 * s, r, Elem(p, 0, j, e))
  {
    hide At, FollowsAt, RaceFree, ScratchOk, Timed, Matched, Elem, Writes;
    var c := Elem(p, 0, j, e);
    ElemIs(p, 0, j, e);
    assert c.buf == 0 by { ElemBuf(p, 0, j, e); }
    forall k | Writes(cfg, r, k, c) ensures cfg.notes.time(r, k) < 3 * s || 3 * s + 3 <= cfg.notes.time(r, k) {
      OnlyUnpacking(p, cfg, r, k, c);
    }
    AtStable(cfg, 3 * s, 3 * s + 3, r, c);
  }

  lemma ElemBuf(p: Plan, buf: nat, b: nat, e: nat)
    ensures Elem(p, buf, b, e).buf == buf
  {
  }

  // A slot that moves in round s is taken over from the rank 2^s below.
  lemma SlotMoves<E(!new)>(p: Plan, cfg: Config<E>, r: nat, s: nat, j: nat, e: nat)
    requires Follows(p, cfg) && WellFormed(cfg) && r < p.n && s < Rounds(p) && j < p.n && e < p.nelems && Moves(s, j)
    ensures At(cfg, 3 * s + 3, r, Elem(p, 0, j, e)) == At(cfg, 3 * s, Below(p.n, r, Gap(p, s)), Elem(p, 0, j, e))
  {
    hide At, FollowsAt, RaceFree, ScratchOk, Timed, Matched, Moved, Moves, Packed;
    var w, t := Below(p.n, r, Gap(p, s)), Packed(s, j);
    PackMoves(p, s, j, e);
    ShuffleValue(p, cfg, w, s, IN, Elem(p, 1, t, e), Elem(p, 0, j, e));
    ElemBelow(p, t, e, NumSendBlocks(p, s));
    SendValue(p, cfg, r, s, t * p.nelems + e);
    ShuffleValue(p, cfg, r, s, OUT, Elem(p, 0, j, e), Elem(p, 2, t, e));
  }

  // ---------- all rounds ----------

  // The sum of the digits of j below 2^s: how far slot j has travelled.
  function Travelled(j: nat, s: nat): (d: nat)
    ensures d <= j
  {
    BlockFacts(j, s);
    j - Block(j, s)
  }

  lemma TravelledNext(j: nat, s: nat)
    ensures Travelled(j, 0) == 0
    ensures Travelled(j, s + 1) == Travelled(j, s) + (if Moves(s, j) then Pow2(s) else 0)
  {
  }

  lemma AtFirst<E(!new)>(cfg: Config<E>, r: nat, c: Cell)
    requires Basic(cfg) && r < cfg.n
    ensures At(cfg, 0, r, c) == cfg.init(r, c)
  {
  }

  // Before round s, slot j of rank r holds what slot j held at first on the
  // rank as far below as the processed digits of j say.
  lemma {:induction false} SlotValue<E(!new)>(p: Plan, cfg: Config<E>, s: nat, r: nat, j: nat, e: nat)
    requires Follows(p, cfg) && WellFormed(cfg) && s <= Rounds(p) && r < p.n && j < p.n && e < p.nelems
    ensures At(cfg, 3 * s, r, Elem(p, 0, j, e)) == cfg.init(Below(p.n, r, Travelled(j, s)), Elem(p, 0, j, e))
    decreases s
  {
    hide At, FollowsAt, RaceFree, ScratchOk, Timed, Matched, Moves, Travelled, Elem;
    if s == 0 {
      TravelledNext(j, 0);
      AtFirst(cfg, r, Elem(p, 0, j, e));
    } else {
      TravelledNext(j, s - 1);
      if Moves(s - 1, j) {
        SlotMoves(p, cfg, r, s - 1, j, e);
        SlotValue(p, cfg, s - 1, Below(p.n, r, Gap(p, s - 1)), j, e);
      } else {
        SlotStays(p, cfg, r, s - 1, j, e);
        SlotValue(p, cfg, s - 1, r, j, e);
      }
    }
  }

  lemma FullyTravelled(p: Plan, j: nat)
    requires Ok(p) && j < p.n
    ensures Travelled(j, Rounds(p)) == j
  {
    BlockAll(j, Rounds(p));
  }

  // Every rank has an action.
  lemma FirstShuffle(p: Plan, r: nat)
    requires Ok(p) && r < p.n
    ensures RankDag(p, r).acts != map[]
  {
    KeyIs(p, r, ShuffleKey(0, IN));
    NotEmpty(RankDag(p, r).acts, ShuffleKey(0, IN));
  }

  // ---------- the result ----------

  // initBuffers put the block for rank r into slot r - q of rank q.
  lemma RotatedIs<E(!new)>(p: Plan, input: (nat, int) -> E, other: (nat, Cell) -> E, q: nat, r: nat, e: nat)
    requires Ok(p) && q < p.n && r < p.n && e < p.nelems
    ensures Rotated(p, input, other)(q, Elem(p, 0, Below(p.n, r, q), e)) == input(q, r * p.nelems + e)
  {
    var i, m := Below(p.n, r, q), p.nelems;
    ElemBelow(p, i, e, p.n);
    ElemBelow(p, r, e, p.n);
    var idx := i * m + e;
    if q <= r {
      assert i * m + q * m == r * m;
      assert Home(p, q, idx) == r * m + e;
    } else {
      assert i * m + q * m == r * m + p.n * m;
      assert Home(p, q, idx) == r * m + e;
    }
  }

  lemma FinalBlock<E(!new)>(p: Plan, cfg: Config<E>, r: nat, mem: Mem<E>, q: nat, e: nat)
    requires Follows(p, cfg) && WellFormed(cfg) && r < p.n && q < p.n && e < p.nelems && Sealed(cfg, r, mem)
    requires forall m :: cfg.finish(r, m) == Reordered(p, r, m)
    ensures mem(Elem(p, 0, q, e)) == cfg.init(q, Elem(p, 0, Below(p.n, r, q), e))
  {
    hide At, FollowsAt, RaceFree, ScratchOk, Timed, Matched, Travelled, Moved;
    var m: Mem<E> :| mem == cfg.finish(r, m) && FinalMem(cfg, r, m);
    var i := Below(p.n, r, q);
    ElemIs(p, 0, q, e);
    ElemBelow(p, q, e, p.n);
    SlotValue(p, cfg, Rounds(p), r, i, e);
    FullyTravelled(p, i);
    assert !cfg.notes.scratch(r, Elem(p, 0, i, e));
  }

  // All-to-all transposes: once rank r has completed, its block q is the block
  // that rank q had for r.
  lemma AlltoallCorrect<E(!new)>(p: Plan, op: (E, E) -> E, input: (nat, int) -> E, other: (nat, Cell) -> E, ue: nat -> bool, ug: bool,
                                 cfg: Config<E>, steps: seq<Step<E>>, r: nat, q: nat, e: nat)
    requires Ok(p) && cfg == Cfg(p, op, input, other, ue, ug) && Shaped(cfg) && IsRun(cfg, steps)
    requires r < p.n && After(cfg, steps).ranks[r].complete && q < p.n && e < p.nelems
    ensures After(cfg, steps).ranks[r].mem(Cell(0, q * p.nelems + e)) == input(q, r * p.nelems + e)
  {
    hide FollowsAt, WellFormed, Sealed, IsRun, After, Reordered, Rotated, RankDag, Below;
    CfgFollows(p, op, input, other, ue, ug);
    AlltoallWellFormed(p, cfg);
    RunsAreCorrect(cfg, steps, r);
    FinalBlock(p, cfg, r, After(cfg, steps).ranks[r].mem, q, e);
    RotatedIs(p, input, other, q, r, e);
  }
}
