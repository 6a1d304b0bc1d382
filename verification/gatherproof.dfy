// The gather schedule is well formed and brings every block to the root.
module GatherProof {
  import opened Actions
  import opened Protocol
  import opened Schedule
  import opened Invariant
  import opened Safety
  import opened Powers
  import opened Trees
  import opened Gather

  // ---------- keys ----------

  lemma KeyIs(p: Plan, r: nat, k: Key)
    requires Ok(p) && r < p.n && IsKey(p, r, k)
    ensures k in Keys(p, r) && ActionOf(p, r, k).Id() == k && TimeOf(p, k) < L(p) + 2 && k.partner < p.n
    ensures k.kind == Send || k.kind == Recv || k.kind == Shuffle
    ensures IsTree(p, r, k) ==> TimeOf(p, k) == k.round < L(p) && k.kind != Shuffle
    ensures k.kind == Shuffle ==> TimeOf(p, k) == L(p) && Shuffles(p, r) && k == ShuffleKey(p, r)
    ensures IsLast(p, r, k) ==> TimeOf(p, k) == L(p) + 1
  {
    if IsTree(p, r, k) && k.kind == Send { LowBitIs(r); }
  }

  // The two ends of a tree edge.
  lemma TreeEnds(p: Plan, r: nat, i: nat)
    requires Ok(p) && r < p.n && Busy(p, r, i)
    ensures Sends(p, r, i) ==> Parent(r) + Pow2(i) == r && Receives(p, Parent(r), i) && !Sends(p, Parent(r), i)
    ensures Receives(p, r, i) ==> !Sends(p, r, i) && Sends(p, r + Pow2(i), i) && Parent(r + Pow2(i)) == r
  {
    if Sends(p, r, i) {
      LowBitIs(r);
      ParentReach(r);
    } else {
      ChildOf(r, i);
    }
  }

  lemma TreeOther(p: Plan, r: nat, k: Key)
    requires Ok(p) && r < p.n && IsTree(p, r, k)
    ensures var k' := Key(if k.kind == Send then Recv else Send, k.round, r);
            && k.partner < p.n && k.partner != r && IsTree(p, k.partner, k')
            && Blocks(p, k.partner, k') == Blocks(p, r, k)
  {
    hide LowBit, Parent, Chunk, Whole;
    KeyIs(p, r, k);
    TreeEnds(p, r, k.round);
    Apart(p, k.round);
  }

  lemma Apart(p: Plan, i: nat)
    requires Ok(p) && i < Depth(p)
    ensures Pow2(i) > 0 && i < L(p)
  {
  }

  lemma LastOther(p: Plan, r: nat, k: Key)
    requires Ok(p) && r < p.n && IsLast(p, r, k)
    ensures var k' := Key(if k.kind == Send then Recv else Send, k.round, r);
            && k.partner < p.n && k.partner != r && IsLast(p, k.partner, k')
            && Blocks(p, k.partner, k') == Blocks(p, r, k)
  {
  }

  // ---------- the DAG ----------

  ghost predicate Follows<E(!new)>(p: Plan, cfg: Config<E>) {
    && Ok(p) && cfg.n == |cfg.dag| == |cfg.ptrs| == p.n && cfg.notes.horizon == L(p) + 2
    && (forall r: nat, k {:trigger FollowsAt(p, cfg, r, k)} :: r < p.n ==> FollowsAt(p, cfg, r, k))
    && (forall r, k, c {:trigger cfg.move(r, k, c)} :: cfg.move(r, k, c) == Moved(p, k, c))
    && (forall r, c {:trigger cfg.notes.scratch(r, c)} :: !cfg.notes.scratch(r, c))
  }

  ghost predicate FollowsAt<E(!new)>(p: Plan, cfg: Config<E>, r: nat, k: Key)
    requires Ok(p) && r < |cfg.dag| && r < |cfg.ptrs|
  {
    && cfg.ptrs[r] == Ptrs(0, 0, 0)
    && (k in cfg.dag[r].acts <==> IsKey(p, r, k)) && (k in cfg.dag[r].pre <==> IsKey(p, r, k))
    && (IsKey(p, r, k) ==> cfg.dag[r].acts[k] == ActionOf(p, r, k) && cfg.dag[r].pre[k] == PreOf(p, r, k))
    && cfg.notes.time(r, k) == TimeOf(p, k)
  }

  lemma CfgFollows<E(!new)>(p: Plan, op: (E, E) -> E, init: (nat, Cell) -> E, ue: nat -> bool, ug: bool)
    requires Ok(p)
    ensures Follows(p, Cfg(p, op, init, ue, ug))
  {
    var cfg := Cfg(p, op, init, ue, ug);
    forall r: nat, k | r < p.n ensures FollowsAt(p, cfg, r, k) {
      if IsKey(p, r, k) { KeyIs(p, r, k); }
    }
  }

  lemma GatherBasic<E(!new)>(p: Plan, cfg: Config<E>)
    requires Follows(p, cfg)
    ensures Basic(cfg)
  {
    hide IsKey, PreOf, ActionOf, TimeOf;
    forall r, k | 0 <= r < cfg.n && k in cfg.dag[r].acts ensures cfg.dag[r].acts[k].Id() == k && k in cfg.dag[r].pre {
      assert FollowsAt(p, cfg, r, k);
      KeyIs(p, r, k);
    }
    forall r: nat, k | r < cfg.n && k in cfg.dag[r].acts && IsComm(k) ensures ChanOk(cfg, ChanOf(r, k)) {
      CommMatched(p, cfg, r, k);
    }
  }

  lemma CommMatched<E(!new)>(p: Plan, cfg: Config<E>, r: nat, k: Key)
    requires Follows(p, cfg) && Shaped(cfg) && r < cfg.n && k in cfg.dag[r].acts && IsComm(k)
    ensures ChanOk(cfg, ChanOf(r, k)) && Simultaneous(cfg, ChanOf(r, k))
  {
    hide IsTree, IsLast, PreOf, Blocks, Slot;
    assert FollowsAt(p, cfg, r, k);
    KeyIs(p, r, k);
    var k' := Key(if k.kind == Send then Recv else Send, k.round, r);
    if IsTree(p, r, k) { TreeOther(p, r, k); } else { LastOther(p, r, k); }
    assert FollowsAt(p, cfg, k.partner, k');
  }

  lemma {:induction false} LastBusyIs(p: Plan, r: nat, t: nat)
    requires Ok(p)
    ensures LastBusy(p, r, t).None? ==> forall i: nat :: i < t ==> !Busy(p, r, i)
    ensures LastBusy(p, r, t).Some? ==>
              var b := LastBusy(p, r, t).value; b < t && Busy(p, r, b) && forall i: nat :: b < i < t ==> !Busy(p, r, i)
  {
    if t > 0 { LastBusyIs(p, r, t - 1); }
  }

  lemma TreeKeyIs(p: Plan, r: nat, i: nat)
    requires Ok(p) && r < p.n && Busy(p, r, i)
    ensures var k := TreeKey(p, r, i); IsTree(p, r, k) && IsKey(p, r, k) && k.round == i && TimeOf(p, k) == i && i < Depth(p) <= L(p)
    ensures forall k :: IsTree(p, r, k) && k.round == i ==> k == TreeKey(p, r, i)
  {
  }

  lemma PrevIs(p: Plan, r: nat, t: nat, d: Key)
    requires Ok(p) && r < p.n && d in PrevSet(p, r, t)
    ensures IsKey(p, r, d) && TimeOf(p, d) < t
  {
    LastBusyIs(p, r, t);
    TreeKeyIs(p, r, LastBusy(p, r, t).value);
  }

  lemma PreIs(p: Plan, r: nat, k: Key, d: Key)
    requires Ok(p) && r < p.n && IsKey(p, r, k) && d in PreOf(p, r, k)
    ensures IsKey(p, r, d) && TimeOf(p, d) < TimeOf(p, k)
  {
    hide Busy, Blocks, Slot, LastBusy, TreeKey, PrevSet;
    KeyIs(p, r, k);
    if IsTree(p, r, k) {
      PrevIs(p, r, k.round, d);
    } else if k.kind != Shuffle && Shuffles(p, r) {
      KeyIs(p, r, d);
    } else {
      PrevIs(p, r, Depth(p), d);
    }
  }

  lemma GatherTimed<E(!new)>(p: Plan, cfg: Config<E>)
    requires Follows(p, cfg) && Shaped(cfg)
    ensures Timed(cfg)
  {
    hide IsKey, PreOf, ActionOf, TimeOf;
    forall r: nat, k | r < cfg.n && k in cfg.dag[r].acts && IsComm(k) ensures Simultaneous(cfg, ChanOf(r, k)) {
      CommMatched(p, cfg, r, k);
    }
    forall r: nat, k, d | r < cfg.n && k in cfg.dag[r].acts && d in cfg.dag[r].pre[k]
      ensures d in cfg.dag[r].acts && cfg.notes.time(r, d) < cfg.notes.time(r, k)
    {
      assert FollowsAt(p, cfg, r, k);
      PreIs(p, r, k, d);
      assert FollowsAt(p, cfg, r, d);
    }
    forall r: nat, k | r < cfg.n && k in cfg.dag[r].acts ensures cfg.notes.time(r, k) < cfg.notes.horizon {
      assert FollowsAt(p, cfg, r, k);
      KeyIs(p, r, k);
    }
  }

  // A tree action with no other action between it and time t is the one named
  // as previous.
  lemma PrevFound(p: Plan, r: nat, t: nat, d: Key)
    requires Ok(p) && r < p.n && IsTree(p, r, d) && d.round < t
    requires forall e :: IsTree(p, r, e) ==> e.round <= d.round || t <= e.round
    ensures d in PrevSet(p, r, t)
  {
    hide TreeKey, Busy;
    LastBusyIs(p, r, t);
    TreeKeyIs(p, r, d.round);
    var b := LastBusy(p, r, t).value;
    TreeKeyIs(p, r, b);
  }

  lemma LayerBefore<E(!new)>(p: Plan, cfg: Config<E>, r: nat, d: Key, k: Key)
    requires Follows(p, cfg) && Shaped(cfg) && r < cfg.n && Adjacent(cfg, r, d, k)
    ensures d in cfg.dag[r].pre[k]
  {
    hide TreeKey, Busy, IsLast, PrevSet, ActionOf;
    assert FollowsAt(p, cfg, r, d) && FollowsAt(p, cfg, r, k);
    KeyIs(p, r, d);
    KeyIs(p, r, k);
    forall e | IsKey(p, r, e) ensures TimeOf(p, e) <= TimeOf(p, d) || TimeOf(p, k) <= TimeOf(p, e) {
      assert FollowsAt(p, cfg, r, e);
    }
    forall e | IsTree(p, r, e) ensures TimeOf(p, e) == e.round && (e.round <= TimeOf(p, d) || TimeOf(p, k) <= e.round) {
      KeyIs(p, r, e);
    }
    if IsTree(p, r, d) {
      if Shuffles(p, r) && k.kind != Shuffle && k.round == L(p) {
        KeyIs(p, r, ShuffleKey(p, r));
      }
      PrevFound(p, r, if IsTree(p, r, k) then k.round else Depth(p), d);
    }
  }

  // The actions of one rank at one time: only the root's two last receives.
  lemma SameTime(p: Plan, r: nat, a: Key, b: Key)
    requires Ok(p) && r < p.n && IsKey(p, r, a) && IsKey(p, r, b) && a != b && TimeOf(p, a) == TimeOf(p, b)
    ensures a.kind == Recv && b.kind == Recv && a.round == b.round == L(p) && (a.partner == 0) != (b.partner == 0)
  {
    KeyIs(p, r, a);
    KeyIs(p, r, b);
  }

  // What a receive or shuffle writes, and what a send reads.
  lemma Touches<E(!new)>(p: Plan, cfg: Config<E>, r: nat, k: Key, c: Cell)
    requires Follows(p, cfg) && Shaped(cfg) && r < cfg.n && k.kind == Recv
    requires Mutates(cfg, r, k, c) || Reads(cfg, r, k, c)
    ensures Slot(p, k) * p.nelems <= c.idx < Slot(p, k) * p.nelems + Blocks(p, r, k) * p.nelems
  {
    hide IsKey, Slot, Blocks;
    assert FollowsAt(p, cfg, r, k);
  }

  lemma GatherWellFormed<E(!new)>(p: Plan, cfg: Config<E>)
    requires Follows(p, cfg)
    ensures WellFormed(cfg)
  {
    hide IsKey, PreOf, ActionOf, TimeOf, Timed, Matched, Mutates, Reads;
    GatherBasic(p, cfg);
    GatherTimed(p, cfg);
    forall r: nat, d, k | r < cfg.n && Adjacent(cfg, r, d, k) ensures d in cfg.dag[r].pre[k] {
      LayerBefore(p, cfg, r, d, k);
    }
    forall r: nat, a, b, c | r < cfg.n && a != b && b in cfg.dag[r].acts
                               && cfg.notes.time(r, a) == cfg.notes.time(r, b) && Mutates(cfg, r, a, c)
      ensures !Mutates(cfg, r, b, c) && !Reads(cfg, r, b, c)
    {
      assert FollowsAt(p, cfg, r, a) && FollowsAt(p, cfg, r, b);
      MutatorIsKey(cfg, r, a, c);
      SameTime(p, r, a, b);
      Touches(p, cfg, r, a, c);
      if Mutates(cfg, r, b, c) || Reads(cfg, r, b, c) { Touches(p, cfg, r, b, c); }
    }
    LayersRaceFree(cfg);
    NoStaging(p, cfg);
  }

  lemma MutatorIsKey<E(!new)>(cfg: Config<E>, r: nat, k: Key, c: Cell)
    requires Shaped(cfg) && r < cfg.n && Mutates(cfg, r, k, c)
    ensures k in cfg.dag[r].acts
  {
  }

  lemma NoStaging<E(!new)>(p: Plan, cfg: Config<E>)
    requires Follows(p, cfg) && Shaped(cfg)
    ensures ScratchOk(cfg)
  {
    forall r: nat, k, c | r < cfg.n ensures !Stages(cfg, r, k, c) {
      assert FollowsAt(p, cfg, r, k);
    }
  }

  // ---------- what is gathered ----------

  // Element e of slot j.
  function Elem(p: Plan, j: nat, e: nat): Cell { Cell(0, j * p.nelems + e) }

  lemma ElemIn(p: Plan, j: nat, e: nat, lo: nat, count: nat)
    requires e < p.nelems
    ensures lo <= j < lo + count <==> lo * p.nelems <= Elem(p, j, e).idx < lo * p.nelems + count * p.nelems
    ensures lo <= j ==> Elem(p, j, e).idx - lo * p.nelems == Elem(p, j - lo, e).idx
  {
    var m := p.nelems;
    Multiples(lo, lo, m);
    assert (lo + count) * m == lo * m + count * m;
    if lo <= j { Multiples(lo, j, m); assert (j - lo) * m == j * m - lo * m; } else { Multiples(j + 1, lo, m); }
    if j < lo + count { Multiples(j + 1, lo + count, m); } else { Multiples(lo + count, j, m); }
    Multiples(j, j, m);
  }

  // A receive brings its blocks from the front of the other rank's buffer.
  lemma RecvWrites<E(!new)>(p: Plan, cfg: Config<E>, r: nat, k: Key, j: nat, e: nat)
    requires Follows(p, cfg) && Basic(cfg) && r < p.n && IsKey(p, r, k) && k.kind == Recv && e < p.nelems
    requires Slot(p, k) <= j < Slot(p, k) + Blocks(p, r, k)
    ensures var c := Elem(p, j, e);
            && Writer(cfg, r, TimeOf(p, k), c, k) && !Reduces(cfg, r, k) && k.partner < p.n
            && Origin(cfg, r, k, c) == (k.partner, Elem(p, j - Slot(p, k), e))
  {
    hide IsKey, IsTree, IsLast, PreOf, Blocks, Slot, TimeOf, Matched;
    OtherSide(p, r, k);
    KeyIs(p, r, k);
    ElemIn(p, j, e, Slot(p, k), Blocks(p, r, k));
    assert FollowsAt(p, cfg, r, k) && FollowsAt(p, cfg, k.partner, Key(Send, k.round, r));
  }

  lemma OtherSide(p: Plan, r: nat, k: Key)
    requires Ok(p) && r < p.n && IsKey(p, r, k) && k.kind == Recv
    ensures k.partner < p.n && IsKey(p, k.partner, Key(Send, k.round, r))
    ensures Blocks(p, k.partner, Key(Send, k.round, r)) == Blocks(p, r, k) && Slot(p, Key(Send, k.round, r)) == 0
  {
    hide Blocks;
    if IsTree(p, r, k) { TreeOther(p, r, k); } else { LastOther(p, r, k); }
  }

  lemma RecvValue<E(!new)>(p: Plan, cfg: Config<E>, r: nat, k: Key, j: nat, e: nat)
    requires Follows(p, cfg) && WellFormed(cfg) && r < p.n && IsKey(p, r, k) && k.kind == Recv && e < p.nelems
    requires Slot(p, k) <= j < Slot(p, k) + Blocks(p, r, k)
    ensures k.partner < p.n
    ensures At(cfg, TimeOf(p, k) + 1, r, Elem(p, j, e)) == At(cfg, TimeOf(p, k), k.partner, Elem(p, j - Slot(p, k), e))
  {
    hide At, FollowsAt, RaceFree, ScratchOk, Timed, Matched, Writer, Origin, Reduces, IsKey, Slot, Blocks, TimeOf, Elem;
    RecvWrites(p, cfg, r, k, j, e);
    AtWrite(cfg, TimeOf(p, k), r, Elem(p, j, e), k);
  }

  // Which slots an action writes.
  lemma WritesSlot<E(!new)>(p: Plan, cfg: Config<E>, r: nat, k: Key, j: nat, e: nat)
    requires Follows(p, cfg) && Shaped(cfg) && r < cfg.n && e < p.nelems && Writes(cfg, r, k, Elem(p, j, e))
    ensures IsKey(p, r, k) && k.kind != Send && Slot(p, k) <= j < Slot(p, k) + Blocks(p, r, k) && cfg.notes.time(r, k) == TimeOf(p, k)
  {
    hide IsKey, Slot, Blocks, Writes, TimeOf, FollowsAt;
    WritesRange(p, cfg, r, k, Elem(p, j, e));
    ElemIn(p, j, e, Slot(p, k), Blocks(p, r, k));
  }

  lemma WriterIs<E(!new)>(p: Plan, cfg: Config<E>, r: nat, k: Key, c: Cell)
    requires Follows(p, cfg) && Shaped(cfg) && r < cfg.n && Writes(cfg, r, k, c)
    ensures IsKey(p, r, k) && cfg.notes.time(r, k) == TimeOf(p, k) && k.kind != Send && k.kind != Join
    ensures k.kind != Recv ==> Moved(p, k, c).Some?
  {
    hide IsTree, IsLast, PreOf, Blocks, Slot, TimeOf, Moved;
    assert FollowsAt(p, cfg, r, k);
    KeyIs(p, r, k);
  }

  lemma WritesRange<E(!new)>(p: Plan, cfg: Config<E>, r: nat, k: Key, c: Cell)
    requires Follows(p, cfg) && Shaped(cfg) && r < cfg.n && Writes(cfg, r, k, c)
    ensures IsKey(p, r, k) && k.kind != Send && cfg.notes.time(r, k) == TimeOf(p, k)
    ensures Slot(p, k) * p.nelems <= c.idx < Slot(p, k) * p.nelems + Blocks(p, r, k) * p.nelems
  {
    hide IsKey, Writes, TimeOf, FollowsAt;
    WriterIs(p, cfg, r, k, c);
    if k.kind == Recv { RecvRange(p, cfg, r, k, c); }
  }

  lemma RecvRange<E(!new)>(p: Plan, cfg: Config<E>, r: nat, k: Key, c: Cell)
    requires Follows(p, cfg) && Shaped(cfg) && r < cfg.n && k.kind == Recv && Writes(cfg, r, k, c)
    ensures Slot(p, k) * p.nelems <= c.idx < Slot(p, k) * p.nelems + Blocks(p, r, k) * p.nelems
  {
    hide IsKey, Slot, Blocks, FollowsAt;
    Touches(p, cfg, r, k, c);
  }

  // Slot j keeps its content while nothing writes it.
  lemma SlotStays<E(!new)>(p: Plan, cfg: Config<E>, r: nat, t: nat, t': nat, j: nat, e: nat)
    requires Follows(p, cfg) && WellFormed(cfg) && r < p.n && t <= t' && e < p.nelems
    requires forall k :: IsKey(p, r, k) && k.kind != Send && Slot(p, k) <= j < Slot(p, k) + Blocks(p, r, k) ==>
               TimeOf(p, k) < t || t' <= TimeOf(p, k)
    ensures At(cfg, t', r, Elem(p, j, e)) == At(cfg, t, r, Elem(p, j, e))
  {
    hide At, FollowsAt, RaceFree, ScratchOk, Timed, Matched, Writes, IsKey, Slot, Blocks, TimeOf, Elem;
    forall k | Writes(cfg, r, k, Elem(p, j, e)) ensures cfg.notes.time(r, k) < t || t' <= cfg.notes.time(r, k) {
      WritesSlot(p, cfg, r, k, j, e);
    }
    AtStable(cfg, t, t', r, Elem(p, j, e));
  }

  lemma TreeRecvIs(p: Plan, r: nat, k: Key)
    requires Ok(p) && r < p.n && IsKey(p, r, k) && TimeOf(p, k) < L(p) && k.kind != Send
    ensures k.kind == Recv && Slot(p, k) == Pow2(k.round) && Receives(p, r, k.round) && k == Key(Recv, k.round, r + Pow2(k.round))
    ensures TimeOf(p, k) == k.round < Depth(p) && Blocks(p, r, k) == Chunk(p, r + Pow2(k.round), k.round)
  {
  }

  // Round t of the tree leaves the first 2^t slots alone.
  lemma LowSlotStays<E(!new)>(p: Plan, cfg: Config<E>, r: nat, t: nat, j: nat, e: nat)
    requires Follows(p, cfg) && WellFormed(cfg) && r < p.n && t < Depth(p) && e < p.nelems && j < Pow2(t)
    ensures At(cfg, t + 1, r, Elem(p, j, e)) == At(cfg, t, r, Elem(p, j, e))
  {
    hide At, FollowsAt, RaceFree, ScratchOk, Timed, Matched, IsKey, Slot, Blocks, TimeOf, Elem;
    forall k | IsKey(p, r, k) && k.kind != Send && Slot(p, k) <= j < Slot(p, k) + Blocks(p, r, k)
      ensures TimeOf(p, k) < t || t + 1 <= TimeOf(p, k)
    {
      if TimeOf(p, k) == t { TreeRecvIs(p, r, k); }
    }
    SlotStays(p, cfg, r, t, t + 1, j, e);
  }

  lemma RecvKeyIs(p: Plan, r: nat, t: nat)
    requires Ok(p) && Receives(p, r, t)
    ensures var k := Key(Recv, t, r + Pow2(t));
            && IsKey(p, r, k) && Slot(p, k) == Pow2(t) && TimeOf(p, k) == t && Blocks(p, r, k) == Chunk(p, r + Pow2(t), t)
    ensures LowBit(r + Pow2(t)) == t
  {
    hide Chunk;
    TreeEnds(p, r, t);
    TreeKeyIs(p, r, t);
  }

  // After t rounds a rank that is a multiple of 2^t holds the blocks of the
  // ranks r, r+1, .. up to 2^t of them, in order.
  lemma {:induction false} Held<E(!new)>(p: Plan, cfg: Config<E>, t: nat, r: nat, j: nat, e: nat)
    requires Follows(p, cfg) && WellFormed(cfg) && t <= Depth(p) && r < p.n && Whole(r, t)
    requires j < Pow2(t) && r + j < p.n && e < p.nelems
    ensures At(cfg, t, r, Elem(p, j, e)) == cfg.init(r + j, Elem(p, 0, e))
    decreases t
  {
    hide At, FollowsAt, RaceFree, ScratchOk, Timed, Matched, IsKey, Slot, Blocks, TimeOf, Elem;
    if t == 0 {
      AtFirst(cfg, r, Elem(p, j, e));
    } else if j < Pow2(t - 1) {
      LowSlotStays(p, cfg, r, t - 1, j, e);
      Held(p, cfg, t - 1, r, j, e);
    } else {
      var w, k := r + Pow2(t - 1), Key(Recv, t - 1, r + Pow2(t - 1));
      RecvKeyIs(p, r, t - 1);
      RecvValue(p, cfg, r, k, j, e);
      Held(p, cfg, t - 1, w, j - Pow2(t - 1), e);
    }
  }

  lemma AtFirst<E(!new)>(cfg: Config<E>, r: nat, c: Cell)
    requires Basic(cfg) && r < cfg.n
    ensures At(cfg, 0, r, c) == cfg.init(r, c)
  {
  }

  // ---------- the result ----------

  lemma MidIs(p: Plan)
    requires Ok(p)
    ensures LowBit(Mid(p)) == L(p) - 1 && Pow2(L(p)) == 2 * Mid(p)
  {
    ChildOf(0, L(p) - 1);
  }

  // Before time L+1, the ranks that are no root are settled after the tree.
  lemma Settled<E(!new)>(p: Plan, cfg: Config<E>, r: nat, t: nat, j: nat, e: nat)
    requires Follows(p, cfg) && WellFormed(cfg) && r < p.n && e < p.nelems && Depth(p) <= t
    requires r != p.root || p.root == 0 || (t <= L(p) + 1 && (!Shuffles(p, r) || t <= L(p) || j < Mid(p)))
    ensures At(cfg, t, r, Elem(p, j, e)) == At(cfg, Depth(p), r, Elem(p, j, e))
  {
    hide At, FollowsAt, RaceFree, ScratchOk, Timed, Matched, Blocks, Elem;
    forall k | IsKey(p, r, k) && k.kind != Send && Slot(p, k) <= j < Slot(p, k) + Blocks(p, r, k)
      ensures TimeOf(p, k) < Depth(p) || t <= TimeOf(p, k)
    {
      KeyIs(p, r, k);
    }
    SlotStays(p, cfg, r, Depth(p), t, j, e);
  }

  // A root other than 0: the first half comes from rank 0 ..
  lemma FirstHalf<E(!new)>(p: Plan, cfg: Config<E>, j: nat, e: nat)
    requires Follows(p, cfg) && WellFormed(cfg) && p.root != 0 && j < Mid(p) && e < p.nelems
    ensures At(cfg, L(p) + 2, p.root, Elem(p, j, e)) == cfg.init(j, Elem(p, 0, e))
  {
    hide At, FollowsAt, RaceFree, ScratchOk, Timed, Matched, Elem, IsTree;
    var k := Key(Recv, L(p), 0);
    assert IsLast(p, p.root, k) && Slot(p, k) == 0 && Blocks(p, p.root, k) == Mid(p) && TimeOf(p, k) == L(p) + 1;
    RecvValue(p, cfg, p.root, k, j, e);
    Settled(p, cfg, 0, L(p) + 1, j, e);
    Held(p, cfg, Depth(p), 0, j, e);
  }

  // .. the second from the midpoint ..
  lemma SecondHalf<E(!new)>(p: Plan, cfg: Config<E>, j: nat, e: nat)
    requires Follows(p, cfg) && WellFormed(cfg) && p.root != 0 && p.root != Mid(p) && Mid(p) <= j < p.n && e < p.nelems
    ensures At(cfg, L(p) + 2, p.root, Elem(p, j, e)) == cfg.init(j, Elem(p, 0, e))
  {
    hide At, FollowsAt, RaceFree, ScratchOk, Timed, Matched, Elem, IsTree, Mid;
    var k := Key(Recv, L(p), Mid(p));
    LastIs(p);
    RecvValue(p, cfg, p.root, k, j, e);
    Settled(p, cfg, Mid(p), L(p) + 1, j - Mid(p), e);
    MidIs(p);
    Held(p, cfg, Depth(p), Mid(p), j - Mid(p), e);
  }

  lemma LastIs(p: Plan)
    requires Ok(p) && p.root != 0 && p.root != Mid(p)
    ensures var k := Key(Recv, L(p), Mid(p));
            IsKey(p, p.root, k) && Slot(p, k) == Mid(p) && Blocks(p, p.root, k) == p.n - Mid(p) && TimeOf(p, k) == L(p) + 1
    ensures Depth(p) == L(p) - 1
  {
  }

  // .. which, if it is the root itself, has moved it there.
  lemma ShuffledHalf<E(!new)>(p: Plan, cfg: Config<E>, j: nat, e: nat)
    requires Follows(p, cfg) && WellFormed(cfg) && p.root != 0 && p.root == Mid(p) && Mid(p) <= j < p.n && e < p.nelems
    ensures At(cfg, L(p) + 2, p.root, Elem(p, j, e)) == cfg.init(j, Elem(p, 0, e))
  {
    hide At, FollowsAt, RaceFree, ScratchOk, Timed, Matched, IsTree;
    var r, k := p.root, ShuffleKey(p, p.root);
    NothingLater(p, j);
    SlotStays(p, cfg, r, L(p) + 1, L(p) + 2, j, e);
    ShuffleWrites(p, cfg, j, e);
    AtWrite(cfg, L(p), r, Elem(p, j, e), k);
    Settled(p, cfg, r, L(p), j - Mid(p), e);
    MidIs(p);
    Held(p, cfg, Depth(p), r, j - Mid(p), e);
  }

  lemma NothingLater(p: Plan, j: nat)
    requires Ok(p) && p.root != 0 && p.root == Mid(p) && Mid(p) <= j
    ensures forall k :: IsKey(p, p.root, k) && k.kind != Send && Slot(p, k) <= j < Slot(p, k) + Blocks(p, p.root, k) ==>
              TimeOf(p, k) < L(p) + 1
  {
    forall k | IsKey(p, p.root, k) && k.kind != Send && Slot(p, k) <= j < Slot(p, k) + Blocks(p, p.root, k)
      ensures TimeOf(p, k) < L(p) + 1
    {
      KeyIs(p, p.root, k);
    }
  }

  lemma ShuffleWrites<E(!new)>(p: Plan, cfg: Config<E>, j: nat, e: nat)
    requires Follows(p, cfg) && Basic(cfg) && p.root != 0 && p.root == Mid(p) && Mid(p) <= j < p.n && e < p.nelems
    ensures var r, k, c := p.root, ShuffleKey(p, p.root), Elem(p, j, e);
            && Writer(cfg, r, L(p), c, k) && !Reduces(cfg, r, k) && Origin(cfg, r, k, c) == (r, Elem(p, j - Mid(p), e))
  {
    var r, k := p.root, ShuffleKey(p, p.root);
    ElemIn(p, j, e, Mid(p), p.n - Mid(p));
    assert FollowsAt(p, cfg, r, k);
  }

  // Gather: the completed root holds all blocks in rank order, for any root.
  lemma GatherCorrect<E(!new)>(p: Plan, op: (E, E) -> E, init: (nat, Cell) -> E, ue: nat -> bool, ug: bool,
                               cfg: Config<E>, steps: seq<Step<E>>, j: nat, e: nat)
    requires Ok(p) && cfg == Cfg(p, op, init, ue, ug) && Shaped(cfg) && IsRun(cfg, steps)
    requires After(cfg, steps).ranks[p.root].complete && j < p.n && e < p.nelems
    ensures After(cfg, steps).ranks[p.root].mem(Cell(0, j * p.nelems + e)) == init(j, Cell(0, e))
  {
    hide FollowsAt, RaceFree, ScratchOk, Timed, Matched, IsRun, After, RankDag, At;
    CfgFollows(p, op, init, ue, ug);
    GatherWellFormed(p, cfg);
    RunsAreCorrect(cfg, steps, p.root);
    assert !cfg.notes.scratch(p.root, Elem(p, j, e));
    if p.root == 0 {
      MidIs(p);
      Settled(p, cfg, 0, L(p) + 2, j, e);
      Held(p, cfg, Depth(p), 0, j, e);
    } else if j < Mid(p) {
      FirstHalf(p, cfg, j, e);
    } else if p.root == Mid(p) {
      ShuffledHalf(p, cfg, j, e);
    } else {
      SecondHalf(p, cfg, j, e);
    }
  }

  // The root's buffer of nproc blocks suffices, and a rank other than the root
  // never needs more than `midpoint` blocks.
  lemma WorkspaceFits(p: Plan, r: nat, k: Key)
    requires Ok(p) && r < p.n && IsKey(p, r, k)
    ensures Slot(p, k) + Blocks(p, r, k) <= p.n
    ensures r != p.root ==> k.kind != Shuffle && Slot(p, k) + Blocks(p, r, k) <= Mid(p)
  {
    KeyIs(p, r, k);
    if IsTree(p, r, k) {
      if r != p.root { TreeFits(p, r, k); }
    }
  }

  lemma TreeFits(p: Plan, r: nat, k: Key)
    requires Ok(p) && r < p.n && r != p.root && IsTree(p, r, k)
    ensures k.kind != Shuffle && Slot(p, k) + Blocks(p, r, k) <= Mid(p)
  {
    hide LowBit, Log2Up;
    KeyIs(p, r, k);
    if r > 0 { LowBitBound(p, r); }
    Pow2Grows(k.round, L(p) - 1);
    if k.kind == Recv { Pow2Grows(k.round + 1, L(p) - 1); }
  }

  lemma LowBitBound(p: Plan, r: nat)
    requires Ok(p) && 0 < r < p.n
    ensures LowBit(r) <= L(p) - 1
  {
    LowBitIs(r);
    if LowBit(r) > L(p) - 1 { Pow2Grows(L(p), LowBit(r)); }
  }
}
