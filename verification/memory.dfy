// Every step keeps the memory part of the invariant: outside the cells under
// transfer, memory agrees with the round-synchronous reading.
module MemorySteps {
  import opened Actions
  import opened Protocol
  import opened Schedule
  import opened Invariant
  import opened ControlSteps

  // Landed payloads belong to active receives.
  ghost predicate LandedOk<E(!new)>(cfg: Config<E>, r: nat, st: Rank<E>)
    requires Basic(cfg) && r < cfg.n
  {
    forall p :: p in st.payQ && !p.eager ==>
      IsChan(cfg, p.chan) && p == Exp(cfg, p.chan) && p.chan.dst == r && Active(st, RecvKey(p.chan))
  }

  lemma LandedFacts<E(!new)>(cfg: Config<E>, g: Global<E>, r: nat)
    requires Basic(cfg) && Control(cfg, Expected(cfg), g) && r < cfg.n
    ensures LandedOk(cfg, r, g.ranks[r]) && RankOk(cfg, r, g.ranks[r])
  {
    var lg := Expected(cfg);
    assert Local(cfg, lg, r, g.ranks[r]);
    forall p | p in g.ranks[r].payQ && !p.eager
      ensures IsChan(cfg, p.chan) && p == Exp(cfg, p.chan) && p.chan.dst == r && Active(g.ranks[r], RecvKey(p.chan))
    {
      PayFacts(cfg, lg, g, p);
    }
  }

  // k may run: what it waits for is finished, it is not.
  ghost predicate Due<E(!new)>(cfg: Config<E>, r: nat, st: Rank<E>, k: Key)
    requires Basic(cfg) && r < cfg.n
  {
    k in cfg.dag[r].acts && k !in st.fin && forall d :: d in cfg.dag[r].pre[k] ==> d in st.fin
  }

  lemma AppliedStarted<E(!new)>(cfg: Config<E>, r: nat, st: Rank<E>, k: Key)
    requires WellFormed(cfg) && r < cfg.n && RankOk(cfg, r, st) && LandedOk(cfg, r, st)
    requires k in cfg.dag[r].acts && Applied(cfg, r, st, k)
    ensures k in st.started
  {
    if k !in st.fin {
      var p :| p in st.payQ && !p.eager && p.chan == ChanOf(r, k);
      KeyKind(cfg, r, k);
      assert RecvKey(p.chan) == k;
    }
  }

  // When k's turn comes, exactly the earlier writers of a cell it touches have
  // been applied.
  lemma Turn<E(!new)>(cfg: Config<E>, r: nat, st: Rank<E>, k: Key, c: Cell)
    requires WellFormed(cfg) && r < cfg.n && RankOk(cfg, r, st) && LandedOk(cfg, r, st)
    requires Due(cfg, r, st, k) && !Applied(cfg, r, st, k)
    requires Mutates(cfg, r, k, c) || Reads(cfg, r, k, c)
    ensures Threshold(cfg, r, st, c, cfg.notes.time(r, k))
  {
    forall w | Writes(cfg, r, w, c)
      ensures Applied(cfg, r, st, w) <==> cfg.notes.time(r, w) < cfg.notes.time(r, k)
    {
      if w != k {
        assert Mutates(cfg, r, w, c);
        if Prec(cfg, r, w, k) {
          PrecFin(cfg, r, st, w, k);
          PrecTime(cfg, r, w, k);
        } else {
          assert Prec(cfg, r, k, w);
          PrecTime(cfg, r, k, w);
          if Applied(cfg, r, st, w) {
            AppliedStarted(cfg, r, st, w);
            PrecFin(cfg, r, st, k, w);
          }
        }
      }
    }
  }

  // Two actions that may both run do not change a common cell.
  lemma NoOverlap<E(!new)>(cfg: Config<E>, r: nat, st: Rank<E>, a: Key, b: Key, c: Cell)
    requires WellFormed(cfg) && r < cfg.n && RankOk(cfg, r, st)
    requires Due(cfg, r, st, a) && Due(cfg, r, st, b) && a != b && Mutates(cfg, r, a, c)
    ensures !Mutates(cfg, r, b, c)
  {
    if Mutates(cfg, r, b, c) {
      if Prec(cfg, r, a, b) { PrecFin(cfg, r, st, a, b); } else { PrecFin(cfg, r, st, b, a); }
    }
  }

  // c keeps its value and its writers keep their state.
  lemma CellKept<E(!new)>(cfg: Config<E>, r: nat, st: Rank<E>, st': Rank<E>, c: Cell)
    requires WellFormed(cfg) && r < cfg.n && CellOk(cfg, r, st, c) && st'.mem(c) == st.mem(c)
    requires forall w :: Writes(cfg, r, w, c) ==> (Applied(cfg, r, st', w) <==> Applied(cfg, r, st, w))
    ensures CellOk(cfg, r, st', c)
  {
    forall t: nat | Threshold(cfg, r, st', c, t) ensures st'.mem(c) == At(cfg, t, r, c) {
      assert Threshold(cfg, r, st, c, t);
    }
  }

  // k was applied to c, giving it the round-synchronous value.
  lemma CellWritten<E(!new)>(cfg: Config<E>, r: nat, st: Rank<E>, st': Rank<E>, k: Key, c: Cell)
    requires WellFormed(cfg) && r < cfg.n && Writes(cfg, r, k, c)
    requires Threshold(cfg, r, st, c, cfg.notes.time(r, k)) && Applied(cfg, r, st', k)
    requires forall w :: Writes(cfg, r, w, c) && w != k ==> (Applied(cfg, r, st', w) <==> Applied(cfg, r, st, w))
    requires st'.mem(c) == NewVal(cfg, cfg.notes.time(r, k), r, c, k)
    ensures CellOk(cfg, r, st', c)
  {
    var t0 := cfg.notes.time(r, k);
    AtWrite(cfg, t0, r, c, k);
    forall t: nat | Threshold(cfg, r, st', c, t) ensures st'.mem(c) == At(cfg, t, r, c) {
      AtStable(cfg, t0 + 1, t, r, c);
    }
  }

  // ---------- steps that leave memory alone ----------

  lemma MemKept<E(!new)>(cfg: Config<E>, r: nat, st: Rank<E>, st': Rank<E>)
    requires WellFormed(cfg) && r < cfg.n && MemOk(cfg, r, st)
    requires st'.mem == st.mem && st'.complete == st.complete
    requires forall p: Pay<E> :: !p.eager ==> (p in st'.payQ <==> p in st.payQ)
    requires forall k :: k in cfg.dag[r].acts && k.kind != Send && !cfg.dag[r].acts[k].JoinAction? ==> (k in st'.fin <==> k in st.fin)
    ensures MemOk(cfg, r, st')
  {
    if !st.complete {
      forall c | !cfg.notes.scratch(r, c) ensures CellOk(cfg, r, st', c) {
        forall w | Writes(cfg, r, w, c) ensures Applied(cfg, r, st', w) <==> Applied(cfg, r, st, w) {
          KeyKind(cfg, r, w);
        }
        CellKept(cfg, r, st, st', c);
      }
      forall p | p in st'.payQ && !p.eager && IsChan(cfg, p.chan) && p.chan.dst == r ensures ZoneOk(cfg, r, st', p) {
        assert ZoneOk(cfg, r, st, p);
      }
    }
  }

  // ---------- a shuffle ----------

  lemma ShuffleCell<E(!new)>(cfg: Config<E>, r: nat, st: Rank<E>, k: Key, c: Cell)
    requires WellFormed(cfg) && r < cfg.n && RankOk(cfg, r, st) && LandedOk(cfg, r, st) && MemOk(cfg, r, st)
    requires Due(cfg, r, st, k) && cfg.dag[r].acts[k].ShuffleAction? && !st.complete && !cfg.notes.scratch(r, c)
    ensures CellOk(cfg, r, Launch(cfg, r, st, k), c)
  {
    var st' := Launch(cfg, r, st, k);
    if cfg.move(r, k, c).Some? {
      var from := cfg.move(r, k, c).value;
      assert Reads(cfg, r, k, from) && Writes(cfg, r, k, c);
      Turn(cfg, r, st, k, from);
      Turn(cfg, r, st, k, c);
      assert CellOk(cfg, r, st, from);
      assert st'.mem(c) == st.mem(from) == At(cfg, cfg.notes.time(r, k), r, from);
      CellWritten(cfg, r, st, st', k, c);
    } else {
      CellKept(cfg, r, st, st', c);
    }
  }

  lemma ShuffleMemOk<E(!new)>(cfg: Config<E>, r: nat, st: Rank<E>, k: Key)
    requires WellFormed(cfg) && r < cfg.n && RankOk(cfg, r, st) && LandedOk(cfg, r, st) && MemOk(cfg, r, st)
    requires Due(cfg, r, st, k) && cfg.dag[r].acts[k].ShuffleAction?
    ensures MemOk(cfg, r, Launch(cfg, r, st, k))
  {
    var st' := Launch(cfg, r, st, k);
    forall c | !cfg.notes.scratch(r, c) ensures CellOk(cfg, r, st', c) {
      ShuffleCell(cfg, r, st, k, c);
    }
    forall p | p in st'.payQ && !p.eager && IsChan(cfg, p.chan) && p.chan.dst == r ensures ZoneOk(cfg, r, st', p) {
      ZoneKept(cfg, r, st, st', k, p);
    }
  }

  // Running k does not disturb another receive's landed payload.
  lemma ZoneKept<E(!new)>(cfg: Config<E>, r: nat, st: Rank<E>, st': Rank<E>, k: Key, p: Pay<E>)
    requires WellFormed(cfg) && r < cfg.n && RankOk(cfg, r, st) && LandedOk(cfg, r, st)
    requires Due(cfg, r, st, k) && p in st.payQ && !p.eager && RecvKey(p.chan) != k
    requires IsChan(cfg, p.chan) && p.chan.dst == r && ZoneOk(cfg, r, st, p)
    requires forall c :: !Mutates(cfg, r, k, c) ==> st'.mem(c) == st.mem(c)
    ensures ZoneOk(cfg, r, st', p)
  {
    var a := RecvAct(cfg, p.chan);
    var z := LandSpan(cfg.ptrs[r], a);
    forall i | 0 <= i < z.len ensures st'.mem(z.At(i)) == p.data[i] {
      assert z.Has(z.At(i));
      assert Mutates(cfg, r, RecvKey(p.chan), z.At(i));
      NoOverlap(cfg, r, st, RecvKey(p.chan), k, z.At(i));
    }
  }

  // ---------- a receive is processed ----------

  // The receive of channel ch is processed on the expected data.
  lemma RecvCell<E(!new)>(cfg: Config<E>, r: nat, st: Rank<E>, st': Rank<E>, ch: Chan, c: Cell)
    requires WellFormed(cfg) && r < cfg.n && RankOk(cfg, r, st) && LandedOk(cfg, r, st) && MemOk(cfg, r, st)
    requires IsChan(cfg, ch) && ch.dst == r && Due(cfg, r, st, RecvKey(ch)) && !st.complete && !cfg.notes.scratch(r, c)
    requires !Applied(cfg, r, st, RecvKey(ch)) && Applied(cfg, r, st', RecvKey(ch))
    requires st'.mem(c) == RecvMem(cfg, r, RecvAct(cfg, ch), EagerChan(cfg, ch), Exp(cfg, ch).data, st.mem)(c)
    requires forall w :: Writes(cfg, r, w, c) && w != RecvKey(ch) ==> (Applied(cfg, r, st', w) <==> Applied(cfg, r, st, w))
    ensures CellOk(cfg, r, st', c)
  {
    var k := RecvKey(ch);
    var a := RecvAct(cfg, ch);
    var dst := DstSpan(cfg.ptrs[r], a, EagerChan(cfg, ch));
    assert ChanOf(r, k) == ch;
    if dst.Has(c) {
      assert Writes(cfg, r, k, c);
      Turn(cfg, r, st, k, c);
      assert CellOk(cfg, r, st, c);
      var i := c.idx - dst.off;
      var o := Origin(cfg, r, k, c);
      assert o == (ch.src, SrcSpan(cfg, ch).At(i));
      assert Exp(cfg, ch).data[i] == At(cfg, cfg.notes.time(r, k), o.0, o.1);
      CellWritten(cfg, r, st, st', k, c);
    } else {
      assert !Writes(cfg, r, k, c);
      CellKept(cfg, r, st, st', c);
    }
  }

  lemma EagerMemOk<E(!new)>(cfg: Config<E>, r: nat, st: Rank<E>, st': Rank<E>, p: Pay<E>)
    requires WellFormed(cfg) && r < cfg.n && RankOk(cfg, r, st) && LandedOk(cfg, r, st) && MemOk(cfg, r, st)
    requires IsChan(cfg, p.chan) && p == Exp(cfg, p.chan) && p.chan.dst == r && p.eager && Active(st, RecvKey(p.chan))
    requires st' == st.(payQ := st'.payQ, fin := st.fin + {RecvKey(p.chan)},
                        mem := RecvMem(cfg, r, RecvAct(cfg, p.chan), true, p.data, st.mem))
    requires forall q: Pay<E> :: !q.eager ==> (q in st'.payQ <==> q in st.payQ)
    ensures MemOk(cfg, r, st')
  {
    var k := RecvKey(p.chan);
    ChanEnds(cfg, p.chan);
    assert ChanOf(r, k) == p.chan;
    assert !Applied(cfg, r, st, k);
    forall c | !cfg.notes.scratch(r, c) ensures CellOk(cfg, r, st', c) {
      RecvCell(cfg, r, st, st', p.chan, c);
    }
    forall q | q in st'.payQ && !q.eager && IsChan(cfg, q.chan) && q.chan.dst == r ensures ZoneOk(cfg, r, st', q) {
      assert q == Exp(cfg, q.chan) && q.chan != p.chan;
      ZoneKept(cfg, r, st, st', k, q);
    }
  }

  // ---------- RDMA ----------

  lemma LandCell<E(!new)>(cfg: Config<E>, r: nat, st: Rank<E>, st': Rank<E>, p: Pay<E>, c: Cell)
    requires WellFormed(cfg) && r < cfg.n && RankOk(cfg, r, st) && LandedOk(cfg, r, st) && MemOk(cfg, r, st)
    requires IsChan(cfg, p.chan) && p == Exp(cfg, p.chan) && p.chan.dst == r && !p.eager && Active(st, RecvKey(p.chan))
    requires p !in st.payQ && !st.complete && !cfg.notes.scratch(r, c)
    requires st' == st.(payQ := st.payQ + multiset{p},
                        mem := WriteSpan(st.mem, LandSpan(cfg.ptrs[r], RecvAct(cfg, p.chan)), p.data))
    ensures CellOk(cfg, r, st', c)
  {
    var k := RecvKey(p.chan);
    var a := RecvAct(cfg, p.chan);
    var z := LandSpan(cfg.ptrs[r], a);
    assert ChanOf(r, k) == p.chan;
    forall w | Writes(cfg, r, w, c) && w != k ensures Applied(cfg, r, st', w) <==> Applied(cfg, r, st, w) {
      KeyKind(cfg, r, w);
    }
    if Direct(cfg.ptrs[r], a) {
      assert p in st'.payQ;
      assert Applied(cfg, r, st', k);
      assert !Applied(cfg, r, st, k);
      assert z == DstSpan(cfg.ptrs[r], a, EagerChan(cfg, p.chan));
      RecvCell(cfg, r, st, st', p.chan, c);
    } else {
      assert z.Has(c) ==> Stages(cfg, r, k, c);
      assert Applied(cfg, r, st', k) <==> Applied(cfg, r, st, k);
      CellKept(cfg, r, st, st', c);
    }
  }

  lemma LandedHere<E(!new)>(cfg: Config<E>, r: nat, mem: Mem<E>, p: Pay<E>)
    requires Basic(cfg) && r < cfg.n && IsChan(cfg, p.chan) && p.chan.dst == r && |p.data| == RecvAct(cfg, p.chan).nelems
    ensures var z := LandSpan(cfg.ptrs[r], RecvAct(cfg, p.chan));
            forall i :: 0 <= i < z.len ==> WriteSpan(mem, z, p.data)(z.At(i)) == p.data[i]
  {
    var z := LandSpan(cfg.ptrs[r], RecvAct(cfg, p.chan));
    forall i | 0 <= i < z.len ensures WriteSpan(mem, z, p.data)(z.At(i)) == p.data[i] {
      assert z.Has(z.At(i)) && z.At(i).idx - z.off == i;
    }
  }

  lemma LandMemOk<E(!new)>(cfg: Config<E>, r: nat, st: Rank<E>, st': Rank<E>, p: Pay<E>)
    requires WellFormed(cfg) && r < cfg.n && RankOk(cfg, r, st) && LandedOk(cfg, r, st) && MemOk(cfg, r, st)
    requires IsChan(cfg, p.chan) && p == Exp(cfg, p.chan) && p.chan.dst == r && !p.eager && Active(st, RecvKey(p.chan))
    requires p !in st.payQ
    requires st' == st.(payQ := st.payQ + multiset{p},
                        mem := WriteSpan(st.mem, LandSpan(cfg.ptrs[r], RecvAct(cfg, p.chan)), p.data))
    ensures MemOk(cfg, r, st')
  {
    var k := RecvKey(p.chan);
    assert ChanOf(r, k) == p.chan;
    ChanEnds(cfg, p.chan);
    forall c | !cfg.notes.scratch(r, c) ensures CellOk(cfg, r, st', c) {
      LandCell(cfg, r, st, st', p, c);
    }
    forall q | q in st'.payQ && !q.eager && IsChan(cfg, q.chan) && q.chan.dst == r ensures ZoneOk(cfg, r, st', q) {
      if q != p {
        assert q in st.payQ && q == Exp(cfg, q.chan) && q.chan != p.chan;
        assert ZoneOk(cfg, r, st, q);
        ZoneKept(cfg, r, st, st', k, q);
      } else {
        LandedHere(cfg, r, st.mem, p);
      }
    }
  }

  lemma LandedMemOk<E(!new)>(cfg: Config<E>, r: nat, st: Rank<E>, st': Rank<E>, p: Pay<E>)
    requires WellFormed(cfg) && r < cfg.n && RankOk(cfg, r, st) && LandedOk(cfg, r, st) && MemOk(cfg, r, st)
    requires p in st.payQ && !p.eager && st.payQ[p] == 1
    requires IsChan(cfg, p.chan) && p == Exp(cfg, p.chan) && p.chan.dst == r
    requires st' == st.(payQ := st.payQ - multiset{p}, fin := st.fin + {RecvKey(p.chan)},
                        mem := RecvMem(cfg, r, RecvAct(cfg, p.chan), false,
                                       ReadSpan(st.mem, LandSpan(cfg.ptrs[r], RecvAct(cfg, p.chan))), st.mem))
    ensures MemOk(cfg, r, st')
  {
    var k := RecvKey(p.chan);
    ChanEnds(cfg, p.chan);
    assert ChanOf(r, k) == p.chan;
    forall c | !cfg.notes.scratch(r, c) ensures CellOk(cfg, r, st', c) {
      LandedCell(cfg, r, st, st', p, c);
    }
    forall q | q in st'.payQ && !q.eager && IsChan(cfg, q.chan) && q.chan.dst == r ensures ZoneOk(cfg, r, st', q) {
      assert q != p && q == Exp(cfg, q.chan) && q.chan != p.chan;
      ZoneKept(cfg, r, st, st', k, q);
    }
  }

  lemma LandedCell<E(!new)>(cfg: Config<E>, r: nat, st: Rank<E>, st': Rank<E>, p: Pay<E>, c: Cell)
    requires WellFormed(cfg) && r < cfg.n && RankOk(cfg, r, st) && LandedOk(cfg, r, st) && MemOk(cfg, r, st)
    requires p in st.payQ && !p.eager && st.payQ[p] == 1 && !st.complete && !cfg.notes.scratch(r, c)
    requires IsChan(cfg, p.chan) && p == Exp(cfg, p.chan) && p.chan.dst == r
    requires st' == st.(payQ := st.payQ - multiset{p}, fin := st.fin + {RecvKey(p.chan)},
                        mem := RecvMem(cfg, r, RecvAct(cfg, p.chan), false,
                                       ReadSpan(st.mem, LandSpan(cfg.ptrs[r], RecvAct(cfg, p.chan))), st.mem))
    ensures CellOk(cfg, r, st', c)
  {
    hide Timed, RaceFree, ScratchOk, CellOk;
    var k := RecvKey(p.chan);
    var a := RecvAct(cfg, p.chan);
    assert ChanOf(r, k) == p.chan;
    assert ZoneOk(cfg, r, st, p);
    var z := LandSpan(cfg.ptrs[r], a);
    assert ReadSpan(st.mem, z) == p.data;
    forall w | Writes(cfg, r, w, c) && w != k ensures Applied(cfg, r, st', w) <==> Applied(cfg, r, st, w) {
      KeyKind(cfg, r, w);
    }
    if Direct(cfg.ptrs[r], a) {
      assert Applied(cfg, r, st, k) by { assert p in st.payQ; }
      assert st'.mem(c) == st.mem(c) by {
        if z.Has(c) { assert c == z.At(c.idx - z.off); }
      }
      CellKept(cfg, r, st, st', c);
    } else {
      RecvCell(cfg, r, st, st', p.chan, c);
    }
  }

  // ---------- reading and finishing ----------

  // Whenever the NIC reads an active send's buffer, it finds the expected data.
  lemma ReadExpected<E(!new)>(cfg: Config<E>, r: nat, st: Rank<E>, ch: Chan)
    requires WellFormed(cfg) && r < cfg.n && RankOk(cfg, r, st) && LandedOk(cfg, r, st) && MemOk(cfg, r, st)
    requires IsChan(cfg, ch) && ch.src == r && Active(st, SendKey(ch))
    ensures ReadSpan(st.mem, SrcSpan(cfg, ch)) == Exp(cfg, ch).data
  {
    var k := SendKey(ch);
    var a := SendAct(cfg, ch);
    var s := SrcSpan(cfg, ch);
    forall i | 0 <= i < s.len ensures st.mem(s.At(i)) == At(cfg, cfg.notes.time(r, k), r, s.At(i)) {
      assert s.Has(s.At(i));
      assert Reads(cfg, r, k, s.At(i));
      Turn(cfg, r, st, k, s.At(i));
      assert CellOk(cfg, r, st, s.At(i));
    }
  }

  lemma DoneMemOk<E(!new)>(cfg: Config<E>, r: nat, st: Rank<E>)
    requires WellFormed(cfg) && r < cfg.n && RankOk(cfg, r, st) && MemOk(cfg, r, st) && CanFinish(cfg, r, st)
    ensures MemOk(cfg, r, Finish(cfg, r, st))
  {
    forall c | !cfg.notes.scratch(r, c) ensures st.mem(c) == At(cfg, cfg.notes.horizon, r, c) {
      assert CellOk(cfg, r, st, c);
      assert Threshold(cfg, r, st, c, cfg.notes.horizon);
    }
    assert FinalMem(cfg, r, st.mem);
  }
}
