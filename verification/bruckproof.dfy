// The Bruck schedule is well formed and gathers every block, read round by round.
module BruckProof {
  import opened Actions
  import opened Protocol
  import opened Schedule
  import opened Powers
  import opened Ring
  import opened Bruck

  // ---------- keys ----------

  lemma StepIs(p: Plan, r: nat, s: nat, send: bool)
    requires Ok(p) && r < p.n && s < Steps(p)
    ensures var k := StepKey(p, r, s, send);
            && IsKey(p, r, k) && StepOf(p, k.round) == s && ActionOf(p, r, k) == StepAction(p, r, s, send)
            && (k.kind == Send <==> send) && ActionOf(p, r, k).Id() == k
            && PreOf(p, r, k) == if s == 0 then {} else {StepKey(p, r, s - 1, true), StepKey(p, r, s - 1, false)}
  {
  }

  lemma KeyIs(p: Plan, r: nat, k: Key)
    requires Ok(p) && r < p.n && IsKey(p, r, k)
    ensures var s := StepOf(p, k.round);
            s < Steps(p) && k == StepKey(p, r, s, k.kind == Send) && k in Keys(p, r) && IsComm(k)
  {
  }

  // What the receive of step s reads on the other side is what the send of step
  // s offers there, element for element.
  lemma PartnersAgree(p: Plan, r: nat, s: nat)
    requires Ok(p) && r < p.n && s < Steps(p)
    ensures Source(p, r, s) != r && Target(p, Source(p, r, s), s) == r
    ensures Target(p, r, s) != r && Source(p, Target(p, r, s), s) == r
    ensures Zone(p, Source(p, r, s), s, true).len == Zone(p, r, s, false).len
    ensures Zone(p, Target(p, r, s), s, false).len == Zone(p, r, s, true).len
  {
    var b := Passes(p, s);
    RingIs(p.n, r, Pow2(s));
    OffSum(p, r, Pow2(s), b);
    OffSum(p, Below(p.n, r, Pow2(s)), Pow2(s), b);
    hide Off, Above, Below;
  }

  // ---------- the DAG ----------

  ghost predicate Follows<E(!new)>(p: Plan, cfg: Config<E>) {
    && Ok(p) && cfg.n == |cfg.dag| == |cfg.ptrs| == p.n && cfg.notes.horizon == Steps(p)
    && (forall r: nat, k {:trigger FollowsAt(p, cfg, r, k)} :: r < p.n ==> FollowsAt(p, cfg, r, k))
    && (forall r, c {:trigger cfg.notes.scratch(r, c)} :: !cfg.notes.scratch(r, c))
  }

  ghost predicate FollowsAt<E(!new)>(p: Plan, cfg: Config<E>, r: nat, k: Key)
    requires Ok(p) && r < |cfg.dag| && r < |cfg.ptrs| && r < p.n
  {
    && cfg.ptrs[r] == Ptrs(0, 0, 0)
    && (k in cfg.dag[r].acts <==> IsKey(p, r, k)) && (k in cfg.dag[r].pre <==> IsKey(p, r, k))
    && (IsKey(p, r, k) ==> cfg.dag[r].acts[k] == ActionOf(p, r, k) && cfg.dag[r].pre[k] == PreOf(p, r, k))
    && cfg.notes.time(r, k) == StepOf(p, k.round)
  }

  lemma CfgFollows<E(!new)>(p: Plan, op: (E, E) -> E, init: (nat, Cell) -> E, ue: nat -> bool, ug: bool)
    requires Ok(p)
    ensures Follows(p, Cfg(p, op, init, ue, ug))
  {
    var cfg := Cfg(p, op, init, ue, ug);
    forall r: nat, k | r < p.n ensures FollowsAt(p, cfg, r, k) {
      if IsKey(p, r, k) { KeyIs(p, r, k); }
    }
  }

  lemma BruckBasic<E(!new)>(p: Plan, cfg: Config<E>)
    requires Follows(p, cfg)
    ensures Basic(cfg)
  {
    forall r: nat, k | r < cfg.n && k in cfg.dag[r].acts ensures cfg.dag[r].acts[k].Id() == k && k in cfg.dag[r].pre {
      assert FollowsAt(p, cfg, r, k);
      StepIs(p, r, StepOf(p, k.round), k.kind == Send);
    }
    forall r: nat, k | r < cfg.n && k in cfg.dag[r].acts && IsComm(k) ensures ChanOk(cfg, ChanOf(r, k)) {
      KeyMatched(p, cfg, r, k);
    }
  }

  lemma KeyMatched<E(!new)>(p: Plan, cfg: Config<E>, r: nat, k: Key)
    requires Follows(p, cfg) && Shaped(cfg) && r < cfg.n && k in cfg.dag[r].acts
    ensures ChanOk(cfg, ChanOf(r, k)) && Simultaneous(cfg, ChanOf(r, k))
  {
    assert FollowsAt(p, cfg, r, k);
    KeyIs(p, r, k);
    var s, send := StepOf(p, k.round), k.kind == Send;
    PartnersAgree(p, r, s);
    StepIs(p, k.partner, s, !send);
    assert FollowsAt(p, cfg, k.partner, StepKey(p, k.partner, s, !send));
  }

  lemma BruckTimed<E(!new)>(p: Plan, cfg: Config<E>)
    requires Follows(p, cfg) && Shaped(cfg)
    ensures Timed(cfg)
  {
    forall r: nat, k | r < cfg.n && k in cfg.dag[r].acts && IsComm(k) ensures Simultaneous(cfg, ChanOf(r, k)) {
      KeyMatched(p, cfg, r, k);
    }
    forall r: nat, k, d | r < cfg.n && k in cfg.dag[r].acts && d in cfg.dag[r].pre[k]
      ensures d in cfg.dag[r].acts && cfg.notes.time(r, d) < cfg.notes.time(r, k)
    {
      assert FollowsAt(p, cfg, r, k);
      var s := StepOf(p, k.round);
      StepIs(p, r, s - 1, d.kind == Send);
      assert FollowsAt(p, cfg, r, d);
    }
    forall r: nat, k | r < cfg.n && k in cfg.dag[r].acts ensures cfg.notes.time(r, k) < cfg.notes.horizon {
      assert FollowsAt(p, cfg, r, k);
    }
  }

  lemma BruckLayered<E(!new)>(p: Plan, cfg: Config<E>)
    requires Follows(p, cfg) && Shaped(cfg)
    ensures Layered(cfg)
  {
    forall r: nat, d, k | r < cfg.n && Adjacent(cfg, r, d, k) ensures d in cfg.dag[r].pre[k] {
      LayerBefore(p, cfg, r, d, k);
    }
  }

  lemma LayerBefore<E(!new)>(p: Plan, cfg: Config<E>, r: nat, d: Key, k: Key)
    requires Follows(p, cfg) && Shaped(cfg) && r < cfg.n && Adjacent(cfg, r, d, k)
    ensures d in cfg.dag[r].pre[k]
  {
    hide StepKey;
    assert FollowsAt(p, cfg, r, k) && FollowsAt(p, cfg, r, d);
    var s, t := StepOf(p, d.round), StepOf(p, k.round);
    KeyIs(p, r, d);
    StepIs(p, r, t - 1, true);
    var e := StepKey(p, r, t - 1, true);
    assert FollowsAt(p, cfg, r, e);
    assert cfg.notes.time(r, e) == t - 1;
  }

  lemma Touches<E(!new)>(p: Plan, cfg: Config<E>, r: nat, k: Key, c: Cell)
    requires Follows(p, cfg) && Shaped(cfg) && r < cfg.n && (Mutates(cfg, r, k, c) || Reads(cfg, r, k, c))
    ensures IsKey(p, r, k) && Zone(p, r, StepOf(p, k.round), k.kind == Send).Has(c)
    ensures Mutates(cfg, r, k, c) <==> k.kind == Recv
    ensures Reads(cfg, r, k, c) <==> k.kind == Send
  {
    assert FollowsAt(p, cfg, r, k);
    StepIs(p, r, StepOf(p, k.round), k.kind == Send);
  }

  // What a step sends lies below what it receives.
  lemma SendBelowRecv(p: Plan, r: nat, s: nat, c: Cell)
    requires Ok(p) && r < p.n && s < Steps(p) && Zone(p, r, s, false).Has(c)
    ensures !Zone(p, r, s, true).Has(c)
  {
    OffGrows(p, r, Passes(p, s), Pow2(s));
  }

  // No action leaves the result buffer.
  lemma StaysInside(p: Plan, r: nat, s: nat, send: bool)
    requires Ok(p) && r < p.n && s < Steps(p)
    ensures 0 <= Zone(p, r, s, send).off && Zone(p, r, s, send).off + Zone(p, r, s, send).len <= Disp(p.counts, p.n)
  {
    var b := Passes(p, s);
    OffGrows(p, r, Pow2(s), Pow2(s) + b);
    OffGrows(p, r, b, b);
  }

  lemma BruckWellFormed<E(!new)>(p: Plan, cfg: Config<E>)
    requires Follows(p, cfg)
    ensures WellFormed(cfg)
  {
    BruckBasic(p, cfg);
    BruckTimed(p, cfg);
    BruckLayered(p, cfg);
    forall r: nat, a, b, c | r < cfg.n && a != b && b in cfg.dag[r].acts
                               && cfg.notes.time(r, a) == cfg.notes.time(r, b) && Mutates(cfg, r, a, c)
      ensures !Mutates(cfg, r, b, c) && !Reads(cfg, r, b, c)
    {
      Touches(p, cfg, r, a, c);
      assert FollowsAt(p, cfg, r, a) && FollowsAt(p, cfg, r, b);
      KeyIs(p, r, a);
      KeyIs(p, r, b);
      if Mutates(cfg, r, b, c) || Reads(cfg, r, b, c) {
        Touches(p, cfg, r, b, c);
        SendBelowRecv(p, r, StepOf(p, a.round), c);
      }
    }
    LayersRaceFree(cfg);
    NoStaging(p, cfg);
  }

  lemma NoStaging<E(!new)>(p: Plan, cfg: Config<E>)
    requires Follows(p, cfg) && Shaped(cfg)
    ensures ScratchOk(cfg)
  {
    forall r: nat, k, c | r < cfg.n ensures !Stages(cfg, r, k, c) {
      assert FollowsAt(p, cfg, r, k);
    }
  }

  // ---------- what is gathered ----------

  lemma RecvIs<E(!new)>(p: Plan, cfg: Config<E>, r: nat, s: nat)
    requires Follows(p, cfg) && Shaped(cfg) && r < p.n && s < Steps(p)
    ensures cfg.n == p.n && Ok(p)
    ensures var k, w := StepKey(p, r, s, false), Source(p, r, s);
            && k in cfg.dag[r].acts && cfg.dag[r].acts[k] == StepAction(p, r, s, false) && cfg.notes.time(r, k) == s
            && ChanOf(r, k) == Chan(w, r, Rnd(p, s)) && SendKey(ChanOf(r, k)) in cfg.dag[w].acts
            && cfg.dag[w].acts[SendKey(ChanOf(r, k))] == StepAction(p, w, s, true)
            && cfg.ptrs[r] == cfg.ptrs[w] == Ptrs(0, 0, 0)
  {
    var k, w := StepKey(p, r, s, false), Source(p, r, s);
    PartnersAgree(p, r, s);
    StepIs(p, r, s, false);
    StepIs(p, w, s, true);
    assert FollowsAt(p, cfg, r, k) && FollowsAt(p, cfg, w, StepKey(p, w, s, true));
  }

  lemma RecvWrites<E(!new)>(p: Plan, cfg: Config<E>, r: nat, s: nat, c: Cell)
    requires Follows(p, cfg) && Basic(cfg) && r < p.n && s < Steps(p) && Zone(p, r, s, false).Has(c)
    ensures var k := StepKey(p, r, s, false);
            && Writer(cfg, r, s, c, k) && !Reduces(cfg, r, k)
            && Origin(cfg, r, k, c) == (Source(p, r, s), Cell(0, c.idx - Off(p, r, Pow2(s))))
  {
    hide FollowsAt, Follows, Matched, Rnd, Off, Passes, Source, Target, StepKey;
    RecvIs(p, cfg, r, s);
  }

  lemma StepFrame<E(!new)>(p: Plan, cfg: Config<E>, r: nat, s: nat, c: Cell)
    requires Follows(p, cfg) && WellFormed(cfg) && r < p.n && s < Steps(p) && !Zone(p, r, s, false).Has(c)
    ensures At(cfg, s + 1, r, c) == At(cfg, s, r, c)
  {
    forall k ensures !Writer(cfg, r, s, c, k) {
      assert FollowsAt(p, cfg, r, k);
      if Writer(cfg, r, s, c, k) { Touches(p, cfg, r, k, c); }
    }
    AtFrame(cfg, s, r, c);
  }

  lemma InBlock(p: Plan, r: nat, j: nat)
    requires Ok(p) && r < p.n && j < p.n
    ensures Off(p, r, j + 1) == Off(p, r, j) + p.counts[Above(p.n, r, j)]
  {
    var q := Above(p.n, r, j);
    assert Disp(p.counts, q + 1) == Disp(p.counts, q) + p.counts[q];
  }

  // Step s leaves the first 2^s blocks alone ..
  lemma OldBlock<E(!new)>(p: Plan, cfg: Config<E>, r: nat, s: nat, j: nat, e: nat)
    requires Follows(p, cfg) && WellFormed(cfg) && r < p.n && s < Steps(p) && j < Pow2(s) < p.n
    requires e < p.counts[Above(p.n, r, j)]
    ensures var c := Cell(0, Off(p, r, j) + e); At(cfg, s + 1, r, c) == At(cfg, s, r, c)
  {
    hide At, WellFormed, Off;
    InBlock(p, r, j);
    OffGrows(p, r, j + 1, Pow2(s));
    StepFrame(p, cfg, r, s, Cell(0, Off(p, r, j) + e));
  }

  lemma RecvValue<E(!new)>(p: Plan, cfg: Config<E>, r: nat, s: nat, c: Cell)
    requires Follows(p, cfg) && WellFormed(cfg) && r < p.n && s < Steps(p) && Zone(p, r, s, false).Has(c)
    ensures At(cfg, s + 1, r, c) == At(cfg, s, Source(p, r, s), Cell(0, c.idx - Off(p, r, Pow2(s))))
  {
    hide At, Off, FollowsAt, RaceFree, ScratchOk, Timed, Matched, StepKey, Writer, Origin, Zone;
    RecvWrites(p, cfg, r, s, c);
    AtWrite(cfg, s, r, c, StepKey(p, r, s, false));
  }

  lemma BlockMoves(p: Plan, r: nat, s: nat, j: nat, e: nat)
    requires Ok(p) && r < p.n && s < Steps(p) && Pow2(s) <= j < Have(p, s + 1) <= p.n && e < p.counts[Above(p.n, r, j)]
    ensures Zone(p, r, s, false).Has(Cell(0, Off(p, r, j) + e))
    ensures Off(p, r, j) - Off(p, r, Pow2(s)) == Off(p, Source(p, r, s), j - Pow2(s))
    ensures Above(p.n, Source(p, r, s), j - Pow2(s)) == Above(p.n, r, j)
  {
    var b := Passes(p, s);
    var g := Pow2(s);
    InBlock(p, r, j);
    OffGrows(p, r, g, j);
    OffGrows(p, r, j + 1, g + b);
    OffSum(p, r, g, j - g);
  }

  // .. and takes the others from the partner, where they are 2^s places lower.
  lemma NewBlock<E(!new)>(p: Plan, cfg: Config<E>, r: nat, s: nat, j: nat, e: nat)
    requires Follows(p, cfg) && WellFormed(cfg) && r < p.n && s < Steps(p) && Pow2(s) <= j < Have(p, s + 1) <= p.n
    requires e < p.counts[Above(p.n, r, j)]
    ensures var w := Source(p, r, s);
            && At(cfg, s + 1, r, Cell(0, Off(p, r, j) + e)) == At(cfg, s, w, Cell(0, Off(p, w, j - Pow2(s)) + e))
            && Above(p.n, w, j - Pow2(s)) == Above(p.n, r, j)
  {
    hide At, Off, Above, StepKey, Zone, FollowsAt, RaceFree, ScratchOk, Timed, Matched;
    BlockMoves(p, r, s, j, e);
    RecvValue(p, cfg, r, s, Cell(0, Off(p, r, j) + e));
  }

  // Before step t, the j-th block rank r holds is that of the rank j above it.
  lemma {:induction false} Gathered<E(!new)>(p: Plan, cfg: Config<E>, t: nat, r: nat, j: nat, e: nat)
    requires Follows(p, cfg) && WellFormed(cfg) && t <= Steps(p) && r < p.n && j < Have(p, t) <= p.n
    requires e < p.counts[Above(p.n, r, j)]
    ensures At(cfg, t, r, Cell(0, Off(p, r, j) + e)) == cfg.init(Above(p.n, r, j), Cell(0, e))
    decreases t
  {
    if t > 0 {
      hide At, Off, Follows;
      var s := t - 1;
      var b := Passes(p, s);
      if j < Pow2(s) {
        OldBlock(p, cfg, r, s, j, e);
        Gathered(p, cfg, s, r, j, e);
      } else {
        NewBlock(p, cfg, r, s, j, e);
        Gathered(p, cfg, s, Source(p, r, s), j - Pow2(s), e);
      }
    }
  }
}
