// The halving schedule meets the conditions of the safety theorem.
module WilkeProof {
  import opened Actions
  import opened Protocol
  import opened Schedule
  import opened Powers
  import opened VirtualRanks
  import opened Halving
  import opened Wilke

  // ---------- keys ----------

  lemma StepRound(p: Plan, v: nat, s: nat)
    requires Ok(p) && Performs(p, v, s)
    ensures Rnd(p, v, s) < LastRound(p) && Real(p.n, v) < p.n && Real(p.n, Partner(p, v, s)) < p.n
    ensures StepOf(p, Rnd(p, v, s)) == s
    ensures RoleOf(p, Real(p.n, v), Rnd(p, v, s)) == v
  {
    RolesPartition(p.n, 0, v);
    RolesPartition(p.n, 0, Partner(p, v, s));
    SharedRoles(p.n, v, Digit(p, s));
  }

  lemma StepIsStep(p: Plan, v: nat, s: nat, send: bool)
    requires Ok(p) && Performs(p, v, s)
    ensures var k, r := StepKey(p, v, s, send), Real(p.n, v);
            && IsStep(p, r, k) && IsKey(p, r, k) && !IsHandOff(p, r, k) && k.kind != Join
            && RoleOf(p, r, k.round) == v && StepOf(p, k.round) == s
            && ActionOf(p, r, k) == StepAction(p, v, s, send) && TimeOf(p, k) == s
            && PreOf(p, r, k) == if s > 0 then StepPair(p, v, s - 1) else {}
  {
    StepRound(p, v, s);
  }

  lemma KeyCases(p: Plan, r: nat, k: Key)
    requires Ok(p) && IsKey(p, r, k)
    ensures IsStep(p, r, k) ==> Performs(p, RoleOf(p, r, k.round), StepOf(p, k.round))
    ensures IsStep(p, r, k) ==> Real(p.n, RoleOf(p, r, k.round)) == r
    ensures IsStep(p, r, k) ==> k == StepKey(p, RoleOf(p, r, k.round), StepOf(p, k.round), k.kind == Send)
    ensures !IsStep(p, r, k) ==> k == JOIN || IsHandOff(p, r, k)
  {
  }

  lemma KeysAre(p: Plan, r: nat, k: Key)
    requires Ok(p) && r < p.n
    ensures k in Keys(p, r) <==> IsKey(p, r, k)
  {
    if IsStep(p, r, k) {
      StepRound(p, RoleOf(p, r, k.round), StepOf(p, k.round));
    }
  }

  // A flip above digit 0 keeps parity.
  lemma FlipParity(v: nat, d: nat)
    requires d > 0
    ensures Flip(v, d) % 2 == v % 2
  {
    hide Low;
    assert Pow2(d) == 2 * Pow2(d - 1);
    Parity(v, Flip(v, d), Pow2(d - 1));
  }

  // Neither of two neighbours 2i, 2i+1 is below an even bound, or both are.
  lemma FlipPair(v: nat, b: int)
    requires v >= 2 * b
    ensures Flip(v, 0) >= 2 * b
  {
    assert Pow2(0) == 1;
  }

  lemma PartnerPerforms(p: Plan, v: nat, s: nat)
    requires Ok(p) && Performs(p, v, s)
    ensures var w := Partner(p, v, s);
            Performs(p, w, s) && Partner(p, w, s) == v && Rnd(p, w, s) == Rnd(p, v, s)
  {
    hide Pow2, Hi, Low, Flip;
    var d := Digit(p, s);
    FlipFacts(v, d, L(p));
    if d > 0 { FlipParity(v, d); } else { FlipPair(v, Twos(p.n)); }
    if s >= L(p) { SameSide(p, v, s); }
  }

  lemma PartnerStep(p: Plan, v: nat, s: nat)
    requires Ok(p) && Performs(p, v, s)
    ensures var w := Partner(p, v, s);
            && Performs(p, w, s) && Partner(p, w, s) == v && Rnd(p, w, s) == Rnd(p, v, s)
            && Sent(p, w, s) == Received(p, v, s) && Received(p, w, s) == Sent(p, v, s)
  {
    PartnerPerforms(p, v, s);
  }

  // Both partners of a mirrored step are still active, or neither is.
  lemma SameSide(p: Plan, v: nat, s: nat)
    requires Ok(p) && v < VNproc(p.n) && L(p) <= s < 2 * L(p)
    ensures v < Pow2(2 * L(p) - s) <==> Partner(p, v, s) < Pow2(2 * L(p) - s)
  {
    var d := Digit(p, s);
    FlipFacts(v, d, L(p));
    if v < Pow2(d + 1) { FlipInRange(v, d, d + 1); }
    if Partner(p, v, s) < Pow2(d + 1) { FlipInRange(Partner(p, v, s), d, d + 1); }
  }

  // ---------- the DAG ----------

  // cfg runs this schedule: what CfgFollows establishes for Cfg.
  ghost predicate Follows<E(!new)>(p: Plan, cfg: Config<E>) {
    && Ok(p) && cfg.n == |cfg.dag| == |cfg.ptrs| == p.n && cfg.notes.horizon == 2 * L(p) + 2
    && (forall r: nat, k {:trigger FollowsAt(p, cfg, r, k)} :: r < p.n ==> FollowsAt(p, cfg, r, k))
    && (forall r, c {:trigger cfg.notes.scratch(r, c)} :: cfg.notes.scratch(r, c) <==> c.buf == 1)
  }

  ghost predicate FollowsAt<E(!new)>(p: Plan, cfg: Config<E>, r: nat, k: Key)
    requires Ok(p) && r < |cfg.dag| && r < |cfg.ptrs|
  {
    && cfg.ptrs[r] == Ptrs(0, 1, 0)
    && (k in cfg.dag[r].acts <==> IsKey(p, r, k)) && (k in cfg.dag[r].pre <==> IsKey(p, r, k))
    && (IsKey(p, r, k) ==> cfg.dag[r].acts[k] == ActionOf(p, r, k) && cfg.dag[r].pre[k] == PreOf(p, r, k))
    && cfg.notes.time(r, k) == TimeOf(p, k)
  }

  lemma CfgFollows<E(!new)>(p: Plan, op: (E, E) -> E, init: (nat, Cell) -> E, ue: nat -> bool, ug: bool)
    requires Ok(p)
    ensures Follows(p, Cfg(p, op, init, ue, ug))
  {
    var cfg := Cfg(p, op, init, ue, ug);
    forall r: nat, k | r < p.n ensures FollowsAt(p, cfg, r, k) {
      KeysAre(p, r, k);
    }
  }

  lemma IdIs(p: Plan, r: nat, k: Key)
    requires Ok(p) && IsKey(p, r, k)
    ensures ActionOf(p, r, k).Id() == k
  {
    if IsStep(p, r, k) { StepRound(p, RoleOf(p, r, k.round), StepOf(p, k.round)); }
  }

  lemma WilkeShaped<E(!new)>(p: Plan, cfg: Config<E>)
    requires Follows(p, cfg)
    ensures Shaped(cfg)
  {
    forall r, k | 0 <= r < cfg.n && k in cfg.dag[r].acts ensures cfg.dag[r].acts[k].Id() == k && k in cfg.dag[r].pre {
      assert FollowsAt(p, cfg, r, k);
      IdIs(p, r, k);
    }
  }

  lemma StepMatched<E(!new)>(p: Plan, cfg: Config<E>, v: nat, s: nat, send: bool)
    requires Follows(p, cfg) && Shaped(cfg) && Performs(p, v, s)
    ensures var c := ChanOf(Real(p.n, v), StepKey(p, v, s, send)); ChanOk(cfg, c) && Simultaneous(cfg, c)
  {
    var w := Partner(p, v, s);
    PartnerStep(p, v, s);
    StepRound(p, v, s);
    SharedRoles(p.n, v, Digit(p, s));
    StepIsStep(p, v, s, send);
    StepIsStep(p, w, s, !send);
    assert FollowsAt(p, cfg, Real(p.n, v), StepKey(p, v, s, send));
    assert FollowsAt(p, cfg, Real(p.n, w), StepKey(p, w, s, !send));
  }

  lemma NoStepInLastRound(p: Plan, r: nat, k: Key)
    requires Ok(p) && k.round == LastRound(p)
    ensures !IsStep(p, r, k)
  {
    if IsStep(p, r, k) { StepRound(p, RoleOf(p, r, k.round), StepOf(p, k.round)); }
  }

  lemma HandOffIs(p: Plan, r: nat, k: Key)
    requires Ok(p) && IsHandOff(p, r, k)
    ensures IsKey(p, r, k) && k.kind != Join && TimeOf(p, k) == 2 * L(p) + 1 && PreOf(p, r, k) == {JOIN}
    ensures var src := if k.kind == Send then r else k.partner;
            ActionOf(p, r, k).offset == HalfOff(p, src) && ActionOf(p, r, k).nelems == HalfLen(p, src)
  {
  }

  lemma HandOffMatched<E(!new)>(p: Plan, cfg: Config<E>, r: nat, k: Key)
    requires Follows(p, cfg) && Shaped(cfg) && r < p.n && IsHandOff(p, r, k)
    ensures ChanOk(cfg, ChanOf(r, k)) && Simultaneous(cfg, ChanOf(r, k))
  {
    var c := ChanOf(r, k);
    assert IsHandOff(p, c.src, SendKey(c)) && IsHandOff(p, c.dst, RecvKey(c));
    HandOffIs(p, c.src, SendKey(c));
    HandOffIs(p, c.dst, RecvKey(c));
    assert FollowsAt(p, cfg, c.src, SendKey(c));
    assert FollowsAt(p, cfg, c.dst, RecvKey(c));
  }

  lemma WilkeMatched<E(!new)>(p: Plan, cfg: Config<E>)
    requires Follows(p, cfg)
    ensures Basic(cfg)
    ensures forall r: nat, k {:trigger ChanOf(r, k)} ::
              r < cfg.n && k in cfg.dag[r].acts && IsComm(k) ==> Simultaneous(cfg, ChanOf(r, k))
  {
    WilkeShaped(p, cfg);
    forall r: nat, k | r < cfg.n && k in cfg.dag[r].acts && IsComm(k)
      ensures ChanOk(cfg, ChanOf(r, k)) && Simultaneous(cfg, ChanOf(r, k))
    {
      assert FollowsAt(p, cfg, r, k);
      if IsStep(p, r, k) {
        StepMatched(p, cfg, RoleOf(p, r, k.round), StepOf(p, k.round), k.kind == Send);
      } else {
        HandOffMatched(p, cfg, r, k);
      }
    }
  }

  // ---------- order ----------

  lemma PairIs(p: Plan, v: nat, s: nat, d: Key)
    requires Ok(p) && d in StepPair(p, v, s)
    ensures Performs(p, v, s) && IsKey(p, Real(p.n, v), d) && TimeOf(p, d) == s
  {
    StepIsStep(p, v, s, d.kind == Send);
  }

  lemma {:induction false} LastTrueIs(f: nat -> bool, s: nat, m: nat)
    requires s <= m && f(s)
    ensures f(LastTrue(f, m)) && s <= LastTrue(f, m) <= m
  {
    if m > 0 && !f(m) { LastTrueIs(f, s, m - 1); }
  }

  lemma LastStepIs(p: Plan, v: nat, s: nat)
    requires Ok(p) && Performs(p, v, s)
    ensures Performs(p, v, LastStep(p, v)) && s <= LastStep(p, v) < 2 * L(p)
  {
    LastTrueIs((s: nat) => Performs(p, v, s), s, 2 * L(p) - 1);
  }

  // The keys the join waits for are steps of the rank's own roles.
  lemma RolePairIs(p: Plan, v: nat, d: Key)
    requires Ok(p) && d in StepPair(p, v, LastStep(p, v))
    ensures Real(p.n, v) < p.n && IsKey(p, Real(p.n, v), d) && TimeOf(p, d) < 2 * L(p)
  {
    PairIs(p, v, LastStep(p, v), d);
    RolesPartition(p.n, 0, v);
  }

  lemma RoleReal(n: nat, r: nat)
    requires n >= 2 && r < n
    ensures r >= Twos(n) ==> Real(n, Twos(n) + r) == r
    ensures r < Twos(n) ==> Real(n, 2 * r) == r && Real(n, 2 * r + 1) == r
  {
  }

  lemma JoinPreIs(p: Plan, r: nat, d: Key)
    requires Ok(p) && r < p.n && d in JoinPre(p, r)
    ensures IsKey(p, r, d) && TimeOf(p, d) < 2 * L(p)
  {
    RoleReal(p.n, r);
    var v :=
      if r >= Twos(p.n) then Twos(p.n) + r
      else if d in StepPair(p, 2 * r, LastStep(p, 2 * r)) then 2 * r else 2 * r + 1;
    RolePairIs(p, v, d);
  }

  lemma StepPreIs(p: Plan, r: nat, k: Key, d: Key)
    requires Ok(p) && r < p.n && IsStep(p, r, k) && d in PreOf(p, r, k)
    ensures IsKey(p, r, d) && TimeOf(p, d) < TimeOf(p, k)
  {
    var v, s := RoleOf(p, r, k.round), StepOf(p, k.round);
    StepIsStep(p, v, s, k.kind == Send);
    PairIs(p, v, s - 1, d);
  }

  lemma PreTimed(p: Plan, r: nat, k: Key, d: Key)
    requires Ok(p) && r < p.n && IsKey(p, r, k) && d in PreOf(p, r, k)
    ensures IsKey(p, r, d) && TimeOf(p, d) < TimeOf(p, k)
  {
    KeyCases(p, r, k);
    if IsStep(p, r, k) {
      StepPreIs(p, r, k, d);
    } else if k == JOIN {
      JoinPreIs(p, r, d);
    } else {
      HandOffIs(p, r, k);
    }
  }

  lemma TimeBound(p: Plan, r: nat, k: Key)
    requires Ok(p) && IsKey(p, r, k)
    ensures TimeOf(p, k) < 2 * L(p) + 2
  {
    if IsStep(p, r, k) { StepRound(p, RoleOf(p, r, k.round), StepOf(p, k.round)); }
  }

  lemma WilkeTimed<E(!new)>(p: Plan, cfg: Config<E>)
    requires Follows(p, cfg)
    ensures Basic(cfg) && Timed(cfg)
  {
    WilkeMatched(p, cfg);
    forall r: nat, k, d | r < cfg.n && k in cfg.dag[r].acts && d in cfg.dag[r].pre[k]
      ensures d in cfg.dag[r].acts && cfg.notes.time(r, d) < cfg.notes.time(r, k)
    {
      assert FollowsAt(p, cfg, r, k) && FollowsAt(p, cfg, r, d);
      PreTimed(p, r, k, d);
    }
    forall r: nat, k | r < cfg.n && k in cfg.dag[r].acts ensures cfg.notes.time(r, k) < cfg.notes.horizon {
      assert FollowsAt(p, cfg, r, k);
      TimeBound(p, r, k);
    }
  }

  // Every rank has an action: every role exchanges data in the first or second step.
  lemma SomeStep(p: Plan, r: nat)
    requires Ok(p) && r < p.n
    ensures RankDag(p, r).acts != map[]
  {
    var v := Roles(p.n, r)[0];
    RolesPartition(p.n, r, v);
    var s := if L(p) == 1 then 0 else 1;
    assert L(p) == 1 ==> Pow2(0) == 1 && Pow2(1) == 2;
    assert Performs(p, v, s);
    StepIsStep(p, v, s, true);
    KeysAre(p, r, StepKey(p, v, s, true));
    NotEmpty(RankDag(p, r).acts, StepKey(p, v, s, true));
  }

  // The steps of a role are consecutive.
  lemma NoGap(p: Plan, v: nat, s: nat, t: nat, s': nat)
    requires Ok(p) && Performs(p, v, s) && Performs(p, v, s') && s <= t <= s'
    ensures Performs(p, v, t)
  {
    if t >= L(p) && p.root.Some? {
      Pow2Grows(2 * L(p) - s', 2 * L(p) - t);
    }
  }

  lemma StepLink<E(!new)>(p: Plan, cfg: Config<E>, v: nat, s: nat, a: bool, b: bool)
    requires Follows(p, cfg) && Shaped(cfg) && Performs(p, v, s) && Performs(p, v, s + 1) && Real(p.n, v) < p.n
    ensures Linked(cfg, Real(p.n, v), StepKey(p, v, s, a), StepKey(p, v, s + 1, b))
  {
    var r := Real(p.n, v);
    StepIsStep(p, v, s, a);
    StepIsStep(p, v, s + 1, b);
    assert FollowsAt(p, cfg, r, StepKey(p, v, s + 1, b)) && FollowsAt(p, cfg, r, StepKey(p, v, s, a));
  }

  function ChainOf(p: Plan, v: nat, a: bool): nat -> Key
    requires Ok(p)
  {
    (s: nat) => if Performs(p, v, s) then StepKey(p, v, s, a) else JOIN
  }

  lemma StepChain<E(!new)>(p: Plan, cfg: Config<E>, v: nat, s: nat, s': nat, a: bool, b: bool)
    requires Follows(p, cfg) && Shaped(cfg) && Performs(p, v, s) && Performs(p, v, s') && s < s' && Real(p.n, v) < p.n
    ensures Prec(cfg, Real(p.n, v), StepKey(p, v, s, a), StepKey(p, v, s', b))
  {
    hide Remote, Takes, StepKey, Linked, Prec, Shaped;
    var f, r := ChainOf(p, v, a), Real(p.n, v);
    forall i: nat | s <= i < s' - 1 ensures Linked(cfg, r, f(i), f(i + 1)) {
      NoGap(p, v, s, i, s');
      NoGap(p, v, s, i + 1, s');
      StepLink(p, cfg, v, i, a, a);
    }
    NoGap(p, v, s, s' - 1, s');
    StepLink(p, cfg, v, s' - 1, a, b);
    ChainPrec(cfg, r, f, s, s', StepKey(p, v, s', b));
  }

  // A role's last step is linked to the join.
  lemma JoinLink<E(!new)>(p: Plan, cfg: Config<E>, v: nat, a: bool)
    requires Follows(p, cfg) && Shaped(cfg) && Performs(p, v, LastStep(p, v)) && Real(p.n, v) < p.n && p.root.Some?
    ensures Linked(cfg, Real(p.n, v), StepKey(p, v, LastStep(p, v), a), JOIN)
  {
    var r, s := Real(p.n, v), LastStep(p, v);
    StepIsStep(p, v, s, a);
    assert v == Twos(p.n) + r || v == 2 * r || v == 2 * r + 1;
    assert StepKey(p, v, s, a) in StepPair(p, v, s);
    assert FollowsAt(p, cfg, r, JOIN) && FollowsAt(p, cfg, r, StepKey(p, v, s, a));
  }

  // Every step precedes the hand-off.
  lemma StepThenHandOff<E(!new)>(p: Plan, cfg: Config<E>, v: nat, s: nat, a: bool, h: Key)
    requires Follows(p, cfg) && Shaped(cfg) && Performs(p, v, s) && Real(p.n, v) < p.n
    requires IsHandOff(p, Real(p.n, v), h)
    ensures Prec(cfg, Real(p.n, v), StepKey(p, v, s, a), h)
  {
    hide Performs, StepKey, Linked, Prec, Shaped, LastStep;
    var r, m := Real(p.n, v), LastStep(p, v);
    LastStepIs(p, v, s);
    JoinLink(p, cfg, v, a);
    if s < m { StepChain(p, cfg, v, s, m, a, a); }
    LinkPrec(cfg, r, StepKey(p, v, s, a), StepKey(p, v, m, a), JOIN);
    HandOffIs(p, r, h);
    assert FollowsAt(p, cfg, r, h) && FollowsAt(p, cfg, r, JOIN);
    LinkPrec(cfg, r, StepKey(p, v, s, a), JOIN, h);
  }

  // ---------- cells ----------

  // The elements an action touches, in whichever buffer.
  function Zone(p: Plan, r: nat, k: Key): Span
    requires Ok(p) && IsKey(p, r, k) && k.kind != Join
  {
    if IsHandOff(p, r, k) then
      var src := if k.kind == Send then r else k.partner;
      Span(0, HalfOff(p, src), HalfLen(p, src))
    else
      var v, s := RoleOf(p, r, k.round), StepOf(p, k.round);
      if k.kind == Send then Sent(p, v, s) else Received(p, v, s)
  }

  lemma ActionZone(p: Plan, r: nat, k: Key)
    requires Ok(p) && IsKey(p, r, k)
    ensures var a := ActionOf(p, r, k);
            if k.kind == Join then a.JoinAction?
            else a.offset == Zone(p, r, k).off && a.nelems == Zone(p, r, k).len && Zone(p, r, k).buf == 0
                 && (if k.kind == Send then a.SendAction? && a.sbuf == SendInPlace
                     else a.RecvAction? && a.rbuf == if IsStep(p, r, k) && StepOf(p, k.round) < L(p) then Reduce else InPlace)
  {
    if k.round == LastRound(p) { NoStepInLastRound(p, r, k); }
  }

  lemma TouchesZone<E(!new)>(p: Plan, cfg: Config<E>, r: nat, k: Key, c: Cell)
    requires Follows(p, cfg) && Shaped(cfg) && r < p.n
    requires Mutates(cfg, r, k, c) || Reads(cfg, r, k, c)
    ensures IsKey(p, r, k) && k.kind != Join && Zone(p, r, k).Has(Cell(0, c.idx))
    ensures Writes(cfg, r, k, c) || Reads(cfg, r, k, c) ==> c.buf == 0
    ensures Mutates(cfg, r, k, c) ==> k.kind == Recv
  {
    assert FollowsAt(p, cfg, r, k);
    ActionZone(p, r, k);
  }

  // No action leaves the vector.
  lemma StaysInside(p: Plan, r: nat, k: Key)
    requires Ok(p) && IsKey(p, r, k) && k.kind != Join
    ensures 0 <= Zone(p, r, k).off && Zone(p, r, k).off + Zone(p, r, k).len <= p.nelems
  {
    if !IsHandOff(p, r, k) {
      var v, s := RoleOf(p, r, k.round), StepOf(p, k.round);
      KeptInside(v, Digit(p, s) + 1, p.nelems);
      KeptInside(Partner(p, v, s), Digit(p, s) + 1, p.nelems);
    }
  }

  // A rank with two roles works for each of them inside that role's half.
  lemma TwoRoles(p: Plan, v: nat, s: nat, send: bool, i: int)
    requires Ok(p) && Performs(p, v, s) && v < 2 * Twos(p.n)
    requires (if send then Sent(p, v, s) else Received(p, v, s)).Has(Cell(0, i))
    ensures Kept(v, 1, p.nelems).Has(Cell(0, i))
  {
    var d := Digit(p, s);
    var c := Cell(0, i);
    KeptSplit(v, d, p.nelems, L(p));
    assert Kept(v, d, p.nelems).Has(c);
    KeptNested(v, 1, d, p.nelems, c);
  }

  lemma RolesApart(p: Plan, v: nat, s: nat, a: bool, w: nat, t: nat, b: bool, i: int)
    requires Ok(p) && Performs(p, v, s) && Performs(p, w, t) && Real(p.n, v) == Real(p.n, w)
    requires (if a then Sent(p, v, s) else Received(p, v, s)).Has(Cell(0, i))
    requires (if b then Sent(p, w, t) else Received(p, w, t)).Has(Cell(0, i))
    ensures v == w
  {
    if v != w {
      TwoRoles(p, v, s, a, i);
      TwoRoles(p, w, t, b, i);
      KeptSplit(v, 0, p.nelems, L(p));
    }
  }

  // Two actions of steps that share an element belong to one role and to
  // different steps.
  lemma StepsApart(p: Plan, v: nat, s: nat, a: bool, w: nat, t: nat, b: bool, i: int)
    requires Ok(p) && Performs(p, v, s) && Performs(p, w, t) && Real(p.n, v) == Real(p.n, w)
    requires (if a then Sent(p, v, s) else Received(p, v, s)).Has(Cell(0, i))
    requires (if b then Sent(p, w, t) else Received(p, w, t)).Has(Cell(0, i))
    ensures v == w && (s == t ==> a == b)
  {
    hide Off, Len;
    RolesApart(p, v, s, a, w, t, b, i);
    KeptSplit(v, Digit(p, s), p.nelems, L(p));
  }

  lemma WilkeRaceFree<E(!new)>(p: Plan, cfg: Config<E>, r: nat, a: Key, b: Key, c: Cell)
    requires Follows(p, cfg) && Shaped(cfg) && r < p.n
    requires a != b && Mutates(cfg, r, a, c) && (Mutates(cfg, r, b, c) || Reads(cfg, r, b, c))
    ensures Prec(cfg, r, a, b) || Prec(cfg, r, b, a)
  {
    TouchesZone(p, cfg, r, a, c);
    TouchesZone(p, cfg, r, b, c);
    KeyCases(p, r, a);
    KeyCases(p, r, b);
    var v, s := RoleOf(p, r, a.round), StepOf(p, a.round);
    var w, t := RoleOf(p, r, b.round), StepOf(p, b.round);
    if IsStep(p, r, a) && IsStep(p, r, b) {
      StepsOrdered(p, cfg, r, a, b, c.idx);
    } else if IsStep(p, r, a) {
      StepThenHandOff(p, cfg, v, s, a.kind == Send, b);
    } else if IsStep(p, r, b) {
      StepThenHandOff(p, cfg, w, t, b.kind == Send, a);
    } else {
      assert false;
    }
  }

  lemma StepsOrdered<E(!new)>(p: Plan, cfg: Config<E>, r: nat, a: Key, b: Key, i: int)
    requires Follows(p, cfg) && Shaped(cfg) && r < p.n && IsStep(p, r, a) && IsStep(p, r, b) && a != b
    requires Zone(p, r, a).Has(Cell(0, i)) && Zone(p, r, b).Has(Cell(0, i))
    ensures Prec(cfg, r, a, b) || Prec(cfg, r, b, a)
  {
    var v, s := RoleOf(p, r, a.round), StepOf(p, a.round);
    var w, t := RoleOf(p, r, b.round), StepOf(p, b.round);
    StepIsStep(p, v, s, a.kind == Send);
    StepIsStep(p, w, t, b.kind == Send);
    StepsApart(p, v, s, a.kind == Send, w, t, b.kind == Send, i);
    if s < t {
      StepChain(p, cfg, v, s, t, a.kind == Send, b.kind == Send);
    } else {
      StepChain(p, cfg, v, t, s, b.kind == Send, a.kind == Send);
    }
  }

  lemma WilkeScratch<E(!new)>(p: Plan, cfg: Config<E>)
    requires Follows(p, cfg) && Shaped(cfg)
    ensures ScratchOk(cfg)
  {
    forall r: nat, k, c | r < cfg.n && (Writes(cfg, r, k, c) || Reads(cfg, r, k, c)) ensures !cfg.notes.scratch(r, c) {
      TouchesZone(p, cfg, r, k, c);
    }
    forall r: nat, k, c | r < cfg.n && Stages(cfg, r, k, c) ensures cfg.notes.scratch(r, c) {
      assert FollowsAt(p, cfg, r, k);
    }
  }

  // The halving schedule, for any number of ranks and elements, is well formed.
  lemma WilkeWellFormed<E(!new)>(p: Plan, cfg: Config<E>)
    requires Follows(p, cfg)
    ensures WellFormed(cfg)
  {
    WilkeTimed(p, cfg);
    WilkeScratch(p, cfg);
    forall r: nat, a, b, c | r < cfg.n && a != b && Mutates(cfg, r, a, c) && (Mutates(cfg, r, b, c) || Reads(cfg, r, b, c))
      ensures Prec(cfg, r, a, b) || Prec(cfg, r, b, a)
    {
      WilkeRaceFree(p, cfg, r, a, b, c);
    }
  }
}
