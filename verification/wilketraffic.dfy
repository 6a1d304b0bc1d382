// Which ranks take part in which step of an allreduce or a reduce, and how many
// messages there are.
module WilkeTraffic {
  import opened Actions
  import opened Protocol
  import opened Schedule
  import opened Liveness
  import opened Powers
  import opened VirtualRanks
  import opened Wilke
  import opened WilkeProof
  import opened Counting

  // The roles below this number have not left a reduce before step s
  // (max_active_rank); nobody is left after the last step there is.
  function Active(p: Plan, s: nat): nat {
    if s < L(p) || p.root.None? then VNproc(p.n)
    else if s < 2 * L(p) && (p.root.value == 0 || s < 2 * L(p) - 1) then Pow2(2 * L(p) - s)
    else 0
  }

  // The roles from this number on have their partner on another rank.
  function Apart(p: Plan, s: nat): nat { if s == 0 || s + 1 == 2 * L(p) then 2 * Twos(p.n) else 0 }

  lemma LogPositive(p: Plan)
    requires Ok(p)
    ensures L(p) > 0 && VNproc(p.n) == Pow2(L(p)) && 0 <= 2 * Twos(p.n) < VNproc(p.n)
  {
    assert VNproc(p.n) == 2 * Pow2(L(p) - 1);
  }

  // In step s exactly the roles that are apart from their partner and have not left
  // have a send and a receive; in a mirrored step of a reduce these are among the
  // 2^(2L - s) lowest, half as many in each step as in the one before.
  lemma StepRoles<E(!new)>(p: Plan, cfg: Config<E>, v: nat, s: nat, send: bool)
    requires Follows(p, cfg) && Shaped(cfg) && v < VNproc(p.n) && s < 2 * L(p)
    ensures Real(p.n, v) < p.n
    ensures StepKey(p, v, s, send) in cfg.dag[Real(p.n, v)].acts <==> Apart(p, s) <= v < Active(p, s)
  {
    LogPositive(p);
    RolesPartition(p.n, 0, v);
    var r, k := Real(p.n, v), StepKey(p, v, s, send);
    assert FollowsAt(p, cfg, r, k);
    InRange(p, v, s);
    if Performs(p, v, s) {
      StepIsStep(p, v, s, send);
    } else if IsKey(p, r, k) {
      OnlyOwnSteps(p, v, s, send);
    }
  }

  lemma InRange(p: Plan, v: nat, s: nat)
    requires Ok(p) && s < 2 * L(p)
    ensures Performs(p, v, s) <==> Apart(p, s) <= v < Active(p, s)
    ensures Active(p, s) <= VNproc(p.n)
  {
    LogPositive(p);
    if s >= L(p) { Pow2Grows(2 * L(p) - s, L(p)); }
  }

  // A step a role does not perform is not in the DAG under another name.
  lemma OnlyOwnSteps(p: Plan, v: nat, s: nat, send: bool)
    requires Ok(p) && v < VNproc(p.n) && s < 2 * L(p) && !Performs(p, v, s) && Real(p.n, v) < p.n
    ensures !IsKey(p, Real(p.n, v), StepKey(p, v, s, send))
  {
  }

  // ---------- messages ----------

  // The message role v sends in step s.
  function Sends(p: Plan, v: int, s: nat): Chan
    requires Ok(p)
  {
    if v >= 0 && Performs(p, v, s) then Chan(Real(p.n, v), Real(p.n, Partner(p, v, s)), Rnd(p, v, s)) else Chan(0, 0, 0)
  }

  lemma SendIsMessage<E(!new)>(p: Plan, cfg: Config<E>, v: nat, s: nat)
    requires Follows(p, cfg) && Shaped(cfg) && Performs(p, v, s)
    ensures Sends(p, v, s) in MessagesAt(cfg, s)
  {
    StepIsStep(p, v, s, true);
    StepRound(p, v, s);
    var r, k := Real(p.n, v), StepKey(p, v, s, true);
    assert FollowsAt(p, cfg, r, k);
    assert ChanOf(r, k) == Sends(p, v, s) && SendKey(Sends(p, v, s)) == k;
  }

  lemma MessageIsSend<E(!new)>(p: Plan, cfg: Config<E>, s: nat, c: Chan) returns (v: nat)
    requires Follows(p, cfg) && Shaped(cfg) && s < 2 * L(p) && c in MessagesAt(cfg, s)
    ensures Performs(p, v, s) && Sends(p, v, s) == c
  {
    var r, k := c.src, SendKey(c);
    assert ChanOf(r, k) == c;
    SendIsAct(cfg, c);
    assert FollowsAt(p, cfg, r, k);
    v := RoleOf(p, r, k.round);
    KeyCases(p, r, k);
    if IsStep(p, r, k) {
      StepIsStep(p, v, StepOf(p, k.round), true);
    }
  }

  lemma SendIsAct<E(!new)>(cfg: Config<E>, c: Chan)
    requires Shaped(cfg) && c in Messages(cfg)
    ensures c.src < cfg.n && SendKey(c) in cfg.dag[c.src].acts
  {
    var r: nat, k :| r < cfg.n && k in cfg.dag[r].acts && k.kind == Send && c == ChanOf(r, k);
    assert SendKey(c) == k;
  }

  // Each step has one message for every role that takes part.
  lemma StepMessages<E(!new)>(p: Plan, cfg: Config<E>, s: nat)
    requires Follows(p, cfg) && Shaped(cfg) && s < 2 * L(p)
    ensures |MessagesAt(cfg, s)| == if Apart(p, s) < Active(p, s) then Active(p, s) - Apart(p, s) else 0
  {
    hide Shaped, FollowsAt, MessagesAt, Performs, Sends, Active, Apart;
    var a := Apart(p, s);
    var b := if a < Active(p, s) then Active(p, s) else a;
    var f := (v: int) => Sends(p, v, s);
    forall c ensures c in MessagesAt(cfg, s) <==> exists v :: a <= v < b && f(v) == c {
      if c in MessagesAt(cfg, s) {
        var v := MessageIsSend(p, cfg, s, c);
        InRange(p, v, s);
        assert f(v) == c;
      }
      if v :| a <= v < b && f(v) == c {
        InRange(p, v, s);
        SendIsMessage(p, cfg, v, s);
      }
    }
    forall v, w | a <= v < w < b ensures f(v) != f(w) {
      InRange(p, v, s);
      InRange(p, w, s);
      SendsApart(p, v, w, s);
    }
    ImageSize(f, a, b, MessagesAt(cfg, s));
  }

  lemma SendsApart(p: Plan, v: nat, w: nat, s: nat)
    requires Ok(p) && v != w && Performs(p, v, s) && Performs(p, w, s)
    ensures Sends(p, v, s) != Sends(p, w, s)
  {
    StepRound(p, v, s);
    StepRound(p, w, s);
  }

  // The hand-off: two messages to a root other than 0, one if it is rank 1.
  function HandOffs(p: Plan): nat {
    if p.root.None? || p.root.value == 0 then 0 else if p.root.value == 1 then 1 else 2
  }

  function HandOff(p: Plan, i: int): Chan
    requires p.root.Some?
  {
    Chan(if i == 0 then 0 else 1, p.root.value, LastRound(p))
  }

  lemma LateMessages<E(!new)>(p: Plan, cfg: Config<E>)
    requires Follows(p, cfg) && Shaped(cfg)
    ensures |MessagesAt(cfg, 2 * L(p))| == 0 && |MessagesAt(cfg, 2 * L(p) + 1)| == HandOffs(p)
  {
    hide Shaped, FollowsAt, MessagesAt, HandOff;
    LogPositive(p);
    forall c ensures c !in MessagesAt(cfg, 2 * L(p)) {
      if c in MessagesAt(cfg, 2 * L(p)) { LateIsHandOff(p, cfg, c, 2 * L(p)); }
    }
    assert MessagesAt(cfg, 2 * L(p)) == {};
    var cs := MessagesAt(cfg, 2 * L(p) + 1);
    if HandOffs(p) == 0 {
      forall c ensures c !in cs {
        if c in cs { LateIsHandOff(p, cfg, c, 2 * L(p) + 1); }
      }
      assert cs == {};
    } else {
      var f := (i: int) => HandOff(p, i);
      forall c ensures c in cs <==> exists i :: 0 <= i < HandOffs(p) && f(i) == c {
        if c in cs {
          LateIsHandOff(p, cfg, c, 2 * L(p) + 1);
          assert f(c.src) == c;
        }
        if i :| 0 <= i < HandOffs(p) && f(i) == c { HandOffIsLate(p, cfg, i); }
      }
      TwoHandOffs(p);
      ImageSize(f, 0, HandOffs(p), cs);
    }
  }

  lemma TwoHandOffs(p: Plan)
    requires p.root.Some?
    ensures HandOff(p, 0) != HandOff(p, 1)
  {
  }

  lemma LateIsHandOff<E(!new)>(p: Plan, cfg: Config<E>, c: Chan, t: nat)
    requires Follows(p, cfg) && Shaped(cfg) && c in MessagesAt(cfg, t) && t >= 2 * L(p)
    ensures t == 2 * L(p) + 1 && p.root.Some? && c.src < HandOffs(p) && HandOff(p, c.src) == c
  {
    var r, k := c.src, SendKey(c);
    SendIsAct(cfg, c);
    assert FollowsAt(p, cfg, r, k);
    KeyCases(p, r, k);
    if IsStep(p, r, k) {
      StepIsStep(p, RoleOf(p, r, k.round), StepOf(p, k.round), true);
    }
  }

  lemma HandOffIsLate<E(!new)>(p: Plan, cfg: Config<E>, i: nat)
    requires Follows(p, cfg) && Shaped(cfg) && i < HandOffs(p)
    ensures HandOff(p, i) in MessagesAt(cfg, 2 * L(p) + 1)
  {
    var c := HandOff(p, i);
    assert FollowsAt(p, cfg, i, SendKey(c));
    assert ChanOf(i, SendKey(c)) == c;
  }

  // ---------- totals ----------

  // The messages of step s.
  function Round(p: Plan): nat -> nat
    requires Ok(p)
  {
    (s: nat) =>
      if s < 2 * L(p) then if Apart(p, s) < Active(p, s) then Active(p, s) - Apart(p, s) else 0
      else if s == 2 * L(p) + 1 then HandOffs(p) else 0
  }

  lemma {:induction false} HalvingTotal(p: Plan, t: nat)
    requires Ok(p) && t <= L(p)
    ensures Sum(Round(p), t) == t * VNproc(p.n) - if t > 0 then 2 * Twos(p.n) else 0
  {
    LogPositive(p);
    if t > 0 {
      HalvingTotal(p, t - 1);
      OneMoreTime(t, VNproc(p.n));
    }
  }

  lemma OneMoreTime(t: nat, m: nat)
    requires t > 0
    ensures (t - 1) * m + m == t * m
  {
  }

  lemma {:induction false} MirrorTotal(p: Plan, t: nat)
    requires Ok(p) && p.root.None? && t <= L(p)
    ensures Sum(Round(p), L(p) + t) == (L(p) + t) * VNproc(p.n) - if t == L(p) then 4 * Twos(p.n) else 2 * Twos(p.n)
  {
    LogPositive(p);
    if t == 0 {
      HalvingTotal(p, L(p));
    } else {
      MirrorTotal(p, t - 1);
      OneMoreTime(L(p) + t, VNproc(p.n));
    }
  }

  // The mirrored steps of a reduce: 2^L + 2^(L-1) + ... messages.
  lemma {:induction false} FanInTotal(p: Plan, t: nat)
    requires Ok(p) && p.root.Some? && t <= Halvings(p)
    ensures Sum(Round(p), L(p) + t) - Sum(Round(p), L(p))
            == 2 * VNproc(p.n) - 2 * Pow2(L(p) - t) - if t == L(p) && Twos(p.n) > 0 then 2 else 0
  {
    hide Round;
    LogPositive(p);
    if t > 0 {
      FanInTotal(p, t - 1);
      FanInRound(p, t);
      assert Sum(Round(p), L(p) + t) == Sum(Round(p), L(p) + t - 1) + Round(p)(L(p) + t - 1);
    }
  }

  lemma FanInRound(p: Plan, t: nat)
    requires Ok(p) && p.root.Some? && 0 < t <= Halvings(p)
    ensures Round(p)(L(p) + t - 1) == 2 * Pow2(L(p) - t) - if t == L(p) && Twos(p.n) > 0 then 2 else 0
    ensures Pow2(L(p) - t + 1) == 2 * Pow2(L(p) - t)
  {
    LogPositive(p);
    if t == L(p) { assert Pow2(0) == 1; }
  }

  // An allreduce: every role sends to its partner in 2L steps, unless the partner
  // is the same rank's other role.
  lemma AllreduceMessages<E(!new)>(p: Plan, cfg: Config<E>)
    requires Follows(p, cfg) && p.root.None?
    ensures Shaped(cfg) && |Messages(cfg)| == 2 * L(p) * VNproc(p.n) - 4 * Twos(p.n)
  {
    hide FollowsAt, Round, Sum;
    AllRounds(p, cfg);
    MirrorTotal(p, L(p));
    LastRounds(p);
  }

  // A reduce: the halving steps of all roles, then half as many in each step, and
  // the hand-off.
  lemma ReduceMessages<E(!new)>(p: Plan, cfg: Config<E>)
    requires Follows(p, cfg) && p.root.Some?
    ensures Shaped(cfg)
    ensures |Messages(cfg)| == L(p) * VNproc(p.n) - 2 * Twos(p.n) +
              if p.root.value == 0 then 2 * VNproc(p.n) - 2 - (if Twos(p.n) > 0 then 2 else 0)
              else 2 * VNproc(p.n) - 4 + (if p.root.value == 1 then 1 else 2)
  {
    hide FollowsAt, Round, Sum;
    LogPositive(p);
    AllRounds(p, cfg);
    HalvingTotal(p, L(p));
    FanInTotal(p, Halvings(p));
    LastRounds(p);
    assert Pow2(0) == 1 && Pow2(1) == 2;
  }

  lemma AllRounds<E(!new)>(p: Plan, cfg: Config<E>)
    requires Follows(p, cfg)
    ensures Shaped(cfg) && |Messages(cfg)| == Sum(Round(p), 2 * L(p) + 2)
  {
    hide FollowsAt, Sum, HandOffs, Active, Apart, Matched, Timed;
    WilkeTimed(p, cfg);
    forall s: nat | s < cfg.notes.horizon ensures |MessagesAt(cfg, s)| == Round(p)(s) {
      if s < 2 * L(p) { StepMessages(p, cfg, s); } else { LateMessages(p, cfg); }
    }
    CountAll(cfg, Round(p));
  }

  // What is left after the steps a reduce performs.
  lemma LastRounds(p: Plan)
    requires Ok(p)
    ensures Sum(Round(p), 2 * L(p) + 2)
            == Sum(Round(p), L(p) + if p.root.Some? then Halvings(p) else L(p)) + HandOffs(p)
  {
    LogPositive(p);
    var m := 2 * L(p);
    assert Sum(Round(p), m + 2) == Sum(Round(p), m) + Round(p)(m) + Round(p)(m + 1);
    if p.root.Some? && p.root.value != 0 { assert Sum(Round(p), m) == Sum(Round(p), m - 1) + Round(p)(m - 1); }
  }
}
