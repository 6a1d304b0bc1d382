// How many messages the schedules of allgather, all-to-all and gather have.
module Traffic {
  import opened Actions
  import opened Protocol
  import opened Schedule
  import opened Liveness
  import opened Powers
  import opened Ring
  import opened Trees
  import opened Counting
  import B = Bruck
  import BP = BruckProof
  import A = Alltoall
  import AP = AlltoallProof
  import G = Gather
  import GP = GatherProof

  lemma SendIsAct<E(!new)>(cfg: Config<E>, c: Chan)
    requires Shaped(cfg) && c in Messages(cfg)
    ensures c.src < cfg.n && SendKey(c) in cfg.dag[c.src].acts && ChanOf(c.src, SendKey(c)) == c
  {
    var r: nat, k :| r < cfg.n && k in cfg.dag[r].acts && k.kind == Send && c == ChanOf(r, k);
    assert SendKey(c) == k;
  }

  lemma {:induction false} Constant(w: nat -> nat, n: nat, t: nat)
    requires forall s: nat :: s < t ==> w(s) == n
    ensures Sum(w, t) == n * t
  {
    if t > 0 { Constant(w, n, t - 1); }
  }

  // ---------- allgather, allgatherv, barrier ----------

  function BruckSend(p: B.Plan, r: int, s: nat): Chan
    requires B.Ok(p) && s < B.Steps(p)
  {
    if 0 <= r < p.n then Chan(r, B.Target(p, r, s), B.Rnd(p, s)) else Chan(0, 0, 0)
  }

  lemma BruckStep<E(!new)>(p: B.Plan, cfg: Config<E>, s: nat)
    requires BP.Follows(p, cfg) && Shaped(cfg) && s < B.Steps(p)
    ensures |MessagesAt(cfg, s)| == p.n
  {
    hide Shaped, BP.FollowsAt, MessagesAt, BruckSend;
    var f := (r: int) => BruckSend(p, r, s);
    forall c ensures c in MessagesAt(cfg, s) <==> exists r :: 0 <= r < p.n && f(r) == c {
      if c in MessagesAt(cfg, s) {
        BruckMessage(p, cfg, s, c);
        assert f(c.src) == c;
      }
      if r :| 0 <= r < p.n && f(r) == c { BruckSends(p, cfg, r, s); }
    }
    forall v, w | 0 <= v < w < p.n ensures f(v) != f(w) { BruckFrom(p, v, w, s); }
    ImageSize(f, 0, p.n, MessagesAt(cfg, s));
  }

  lemma BruckFrom(p: B.Plan, v: nat, w: nat, s: nat)
    requires B.Ok(p) && s < B.Steps(p) && v < w < p.n
    ensures BruckSend(p, v, s) != BruckSend(p, w, s)
  {
  }

  lemma BruckMessage<E(!new)>(p: B.Plan, cfg: Config<E>, s: nat, c: Chan)
    requires BP.Follows(p, cfg) && Shaped(cfg) && s < B.Steps(p) && c in MessagesAt(cfg, s)
    ensures c.src < p.n && BruckSend(p, c.src, s) == c
  {
    SendIsAct(cfg, c);
    assert BP.FollowsAt(p, cfg, c.src, SendKey(c));
    BP.KeyIs(p, c.src, SendKey(c));
  }

  lemma BruckSends<E(!new)>(p: B.Plan, cfg: Config<E>, r: nat, s: nat)
    requires BP.Follows(p, cfg) && Shaped(cfg) && s < B.Steps(p) && r < p.n
    ensures BruckSend(p, r, s) in MessagesAt(cfg, s)
  {
    var k := B.StepKey(p, r, s, true);
    BP.StepIs(p, r, s, true);
    assert BP.FollowsAt(p, cfg, r, k);
    assert ChanOf(r, k) == BruckSend(p, r, s) && SendKey(BruckSend(p, r, s)) == k;
  }

  // Every rank sends once in each of the least number of rounds t with n <= 2^t.
  lemma AllgatherMessages<E(!new)>(p: B.Plan, cfg: Config<E>)
    requires BP.Follows(p, cfg)
    ensures Shaped(cfg) && |Messages(cfg)| == p.n * Log2Up(p.n)
  {
    hide BP.FollowsAt, MessagesAt, Messages, Matched, Timed;
    BP.BruckBasic(p, cfg);
    BP.BruckTimed(p, cfg);
    var w := (s: nat) => p.n;
    forall s: nat | s < cfg.notes.horizon ensures |MessagesAt(cfg, s)| == w(s) { BruckStep(p, cfg, s); }
    CountAll(cfg, w);
    Constant(w, p.n, cfg.notes.horizon);
  }

  // The rounds have the numbers 0, 1, ..., but where the allgather has an extra
  // round for a rank count that is not a power of two, it skips one number.
  lemma RoundNumbers<E(!new)>(p: B.Plan, cfg: Config<E>, r: nat, round: nat)
    requires BP.Follows(p, cfg) && r < p.n
    ensures (exists k :: k in cfg.dag[r].acts && k.round == round)
            <==> if p.gap && p.n != Pow2(Log2Up(p.n)) then round + 1 < Log2Up(p.n) || round == Log2Up(p.n)
                 else round < Log2Up(p.n)
  {
    if k :| k in cfg.dag[r].acts && k.round == round {
      assert BP.FollowsAt(p, cfg, r, k);
      BP.KeyIs(p, r, k);
    }
    var s := B.StepOf(p, round);
    if s < B.Steps(p) && B.Rnd(p, s) == round {
      var k := B.StepKey(p, r, s, true);
      BP.StepIs(p, r, s, true);
      assert BP.FollowsAt(p, cfg, r, k);
    }
  }

  // ---------- all-to-all ----------

  function AlltoallSend(p: A.Plan, r: int, s: nat): Chan
    requires A.Ok(p) && s < A.Rounds(p)
  {
    if 0 <= r < p.n then Chan(r, Above(p.n, r, A.Gap(p, s)), s) else Chan(0, 0, 0)
  }

  lemma AlltoallRound<E(!new)>(p: A.Plan, cfg: Config<E>, t: nat)
    requires AP.Follows(p, cfg) && Shaped(cfg) && t < 3 * A.Rounds(p)
    ensures |MessagesAt(cfg, t)| == if t % 3 == 1 then p.n else 0
  {
    hide Shaped, AP.FollowsAt, MessagesAt, AlltoallSend;
    var s := t / 3;
    if t % 3 == 1 {
      var f := (r: int) => AlltoallSend(p, r, s);
      forall c ensures c in MessagesAt(cfg, t) <==> exists r :: 0 <= r < p.n && f(r) == c {
        if c in MessagesAt(cfg, t) {
          AlltoallMessage(p, cfg, t, c);
          assert f(c.src) == c;
        }
        if r :| 0 <= r < p.n && f(r) == c { AlltoallSends(p, cfg, r, s); }
      }
      forall v, w | 0 <= v < w < p.n ensures f(v) != f(w) { AlltoallFrom(p, v, w, s); }
      ImageSize(f, 0, p.n, MessagesAt(cfg, t));
    } else {
      forall c ensures c !in MessagesAt(cfg, t) {
        if c in MessagesAt(cfg, t) { AlltoallMessage(p, cfg, t, c); }
      }
      assert MessagesAt(cfg, t) == {};
    }
  }

  lemma AlltoallFrom(p: A.Plan, v: nat, w: nat, s: nat)
    requires A.Ok(p) && s < A.Rounds(p) && v < w < p.n
    ensures AlltoallSend(p, v, s) != AlltoallSend(p, w, s)
  {
  }

  lemma AlltoallMessage<E(!new)>(p: A.Plan, cfg: Config<E>, t: nat, c: Chan)
    requires AP.Follows(p, cfg) && Shaped(cfg) && t < 3 * A.Rounds(p) && c in MessagesAt(cfg, t)
    ensures t % 3 == 1 && c.src < p.n && AlltoallSend(p, c.src, t / 3) == c
  {
    SendIsAct(cfg, c);
    assert AP.FollowsAt(p, cfg, c.src, SendKey(c));
    assert t == 3 * c.round + 1;
  }

  lemma AlltoallSends<E(!new)>(p: A.Plan, cfg: Config<E>, r: nat, s: nat)
    requires AP.Follows(p, cfg) && Shaped(cfg) && s < A.Rounds(p) && r < p.n
    ensures AlltoallSend(p, r, s) in MessagesAt(cfg, 3 * s + 1)
  {
    var k := A.CommKey(p, r, s, true);
    assert AP.FollowsAt(p, cfg, r, k);
    assert ChanOf(r, k) == AlltoallSend(p, r, s) && SendKey(AlltoallSend(p, r, s)) == k;
  }

  lemma {:induction false} EveryThird(w: nat -> nat, n: nat, t: nat)
    requires forall s: nat :: s < 3 * t ==> w(s) == if s % 3 == 1 then n else 0
    ensures Sum(w, 3 * t) == n * t
  {
    hide Sum;
    if t == 0 {
      NothingYet(w);
    } else {
      EveryThird(w, n, t - 1);
      ThreeMore(w, 3 * (t - 1));
      OneMoreTime(n, t);
    }
  }

  lemma NothingYet(w: nat -> nat)
    ensures Sum(w, 0) == 0
  {
  }

  lemma OneMoreTime(n: nat, t: nat)
    requires t > 0
    ensures n * (t - 1) + n == n * t
  {
  }

  lemma ThreeMore(w: nat -> nat, m: nat)
    ensures Sum(w, m + 3) == Sum(w, m) + w(m) + w(m + 1) + w(m + 2)
  {
    assert Sum(w, m + 2) == Sum(w, m + 1) + w(m + 1);
  }

  lemma AlltoallMessages<E(!new)>(p: A.Plan, cfg: Config<E>)
    requires AP.Follows(p, cfg)
    ensures Shaped(cfg) && |Messages(cfg)| == p.n * Log2Up(p.n)
  {
    hide AP.FollowsAt, MessagesAt, Messages, Matched, Timed, RaceFree, ScratchOk;
    AP.AlltoallWellFormed(p, cfg);
    var w := (t: nat) => if t % 3 == 1 then p.n else 0;
    forall t: nat | t < cfg.notes.horizon ensures |MessagesAt(cfg, t)| == w(t) { AlltoallRound(p, cfg, t); }
    CountAll(cfg, w);
    EveryThird(w, p.n, A.Rounds(p));
  }

  // ---------- gather ----------

  // What rank r sends up the tree; what has no place in the tree goes to the root.
  function GatherSend(p: G.Plan, r: int): Chan
    requires G.Ok(p)
  {
    if r >= p.n then Chan(G.Mid(p), p.root, G.L(p))
    else if r <= 0 || (p.root != 0 && r == G.Mid(p)) then Chan(0, p.root, G.L(p))
    else Chan(r, Parent(r), LowBit(r))
  }

  // The sends, numbered from 1.
  function Sends(p: G.Plan): nat
    requires G.Ok(p)
  {
    if p.root == 0 || p.root == G.Mid(p) then p.n - 1 else p.n
  }

  lemma {:induction false} LowBitOfMost(r: nat, l: nat)
    requires 0 < r < Pow2(l + 1)
    ensures LowBit(r) <= l && (LowBit(r) == l <==> r == Pow2(l))
    decreases l
  {
    if l > 0 && r % 2 == 0 { LowBitOfMost(r / 2, l - 1); }
  }

  lemma TreeSend(p: G.Plan, r: nat)
    requires G.Ok(p) && 0 < r < p.n
    ensures LowBit(r) < G.L(p) && (LowBit(r) < G.Depth(p) <==> p.root == 0 || r != G.Mid(p))
    ensures Parent(r) < p.n
  {
    LowBitOfMost(r, G.L(p) - 1);
    LowBitIs(r);
  }

  lemma GatherMessage<E(!new)>(p: G.Plan, cfg: Config<E>, c: Chan) returns (r: nat)
    requires GP.Follows(p, cfg) && Shaped(cfg) && c in Messages(cfg)
    ensures 0 < r <= Sends(p) && GatherSend(p, r) == c
  {
    SendIsAct(cfg, c);
    assert GP.FollowsAt(p, cfg, c.src, SendKey(c));
    var k := SendKey(c);
    if G.IsTree(p, c.src, k) {
      r := c.src;
      TreeSend(p, r);
    } else {
      assert G.IsLast(p, c.src, k);
      r := if c.src == 0 then G.Mid(p) else p.n;
    }
  }

  lemma GatherSends<E(!new)>(p: G.Plan, cfg: Config<E>, r: nat)
    requires GP.Follows(p, cfg) && Shaped(cfg) && 0 < r <= Sends(p)
    ensures GatherSend(p, r) in Messages(cfg)
  {
    var c := GatherSend(p, r);
    assert ChanOf(c.src, SendKey(c)) == c;
    if r < p.n { TreeSend(p, r); }
    assert GP.FollowsAt(p, cfg, c.src, SendKey(c));
  }

  lemma GatherFrom(p: G.Plan, v: nat, w: nat)
    requires G.Ok(p) && 0 < v < w <= Sends(p)
    ensures GatherSend(p, v) != GatherSend(p, w)
  {
    TreeSend(p, v);
    if w < p.n { TreeSend(p, w); }
  }

  // Every rank but 0 sends once; for a root that is not 0 the midpoint's message
  // goes to the root instead, and so does one from rank 0.
  lemma GatherMessages<E(!new)>(p: G.Plan, cfg: Config<E>)
    requires GP.Follows(p, cfg) && Shaped(cfg)
    ensures |Messages(cfg)| == if p.root == 0 || p.root == G.Mid(p) then p.n - 1 else p.n
  {
    hide Shaped, GP.FollowsAt, Messages, GatherSend;
    var f := (r: int) => GatherSend(p, r);
    forall c ensures c in Messages(cfg) <==> exists r :: 1 <= r < Sends(p) + 1 && f(r) == c {
      if c in Messages(cfg) {
        var r := GatherMessage(p, cfg, c);
        assert f(r) == c;
      }
      if r :| 1 <= r < Sends(p) + 1 && f(r) == c { GatherSends(p, cfg, r); }
    }
    forall v, w | 1 <= v < w < Sends(p) + 1 ensures f(v) != f(w) { GatherFrom(p, v, w); }
    ImageSize(f, 1, Sends(p) + 1, Messages(cfg));
  }
}
