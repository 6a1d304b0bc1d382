// From a collective call to a running actor (Collective::initActors and start):
// the DAG each initDag builds is the one its schedule prescribes, so the actor
// starts as rank `me` of the system does.  Module Worlds runs such actors.
module Launches {
  import opened Actions
  import opened Protocol
  import opened Schedule
  import opened LocalSteps
  import opened Bookkeeping
  import opened DagBuilding
  import opened Engine
  import opened CollectiveEngines
  import opened Powers
  import opened VirtualRanks
  import opened Ring
  import opened Trees
  import W = Wilke
  import WP = WilkeProof
  import WilkeDag
  import B = Bruck
  import BP = BruckProof
  import Gathers
  import BruckDag
  import A = Alltoall
  import AP = AlltoallProof
  import AlltoallDag
  import G = Gather
  import GP = GatherProof
  import GatherDag
  import C = Bcast
  import BcastDag

  // The actor is rank me of the collective, built and not started.
  ghost predicate Prepared<E(!new)>(cfg: Config<E>, me: nat, actor: DagCollectiveActor<E>)
    reads actor
  {
    && Shaped(cfg) && me < cfg.n && actor.cfg == cfg && actor.me == me && actor.Building()
    && Dag(actor.acts, actor.pre) == cfg.dag[me] && actor.acts != map[] && actor.mem == InitRank(cfg, me).mem
  }

  // The actor is where rank me is after Begin and the steps that follow by themselves.
  ghost predicate Started<E(!new)>(cfg: Config<E>, me: nat, actor: DagCollectiveActor<E>)
    reads actor
  {
    && Resting(actor) && actor.Env() && actor.cfg == cfg && actor.me == me
    && Reaches(cfg, me, Local(InitRank(cfg, me).(begun := true), NoMsgs()), actor.Here())
    && Quiescent(cfg, me, actor.View())
  }

  lemma FreshView<E(!new)>(actor: DagCollectiveActor<E>)
    requires actor.Building() && actor.mem == InitRank(actor.cfg, actor.me).mem
    ensures actor.View() == InitRank(actor.cfg, actor.me) && actor.Here() == Local(actor.View(), NoMsgs())
  {
  }

  // start
  method Launch<E(==,!new)>(cfg: Config<E>, me: nat, actor: DagCollectiveActor<E>)
    requires Prepared(cfg, me, actor)
    modifies actor
    ensures Started(cfg, me, actor)
  {
    hide Reaches, BookOk, Built, KeptOk, Logged, Held, Plus, AllFinished, Quiescent, InitRank;
    FreshView(actor);
    actor.Start();
  }

  method BuildAllreduce<E(==,!new)>(cfg: Config<E>, ghost op: (E, E) -> E, ghost init: (nat, Cell) -> E, ghost ue: nat -> bool,
                                    ghost ug: bool, n: nat, nelems: nat, me: nat) returns (actor: DagCollectiveActor<E>)
    requires n >= 2 && me < n && cfg == W.Cfg(W.Plan(n, nelems, None), op, init, ue, ug)
    ensures fresh(actor) && Prepared(cfg, me, actor)
  {
    ghost var p := W.Plan(n, nelems, None);
    WP.CfgFollows(p, op, init, ue, ug);
    WP.WilkeShaped(p, cfg);
    WP.SomeStep(p, me);
    assert cfg.dag[me] == W.RankDag(p, me) && cfg.n == n;
    hide *;
    actor := new DagCollectiveActor(cfg, me, InitRank(cfg, me).mem);
    WilkeDag.AllreduceInitDag(actor, n, nelems);
  }

  method BuildReduce<E(==,!new)>(cfg: Config<E>, ghost op: (E, E) -> E, ghost init: (nat, Cell) -> E, ghost ue: nat -> bool,
                                 ghost ug: bool, n: nat, nelems: nat, root: nat, me: nat) returns (actor: DagCollectiveActor<E>)
    requires n >= 2 && me < n && root < n && cfg == W.Cfg(W.Plan(n, nelems, Some(root)), op, init, ue, ug)
    ensures fresh(actor) && Prepared(cfg, me, actor)
  {
    ghost var p := W.Plan(n, nelems, Some(root));
    WP.CfgFollows(p, op, init, ue, ug);
    WP.WilkeShaped(p, cfg);
    WP.SomeStep(p, me);
    assert cfg.dag[me] == W.RankDag(p, me) && cfg.n == n;
    hide *;
    actor := new DagCollectiveActor(cfg, me, InitRank(cfg, me).mem);
    WilkeDag.ReduceInitDag(actor, n, nelems, root);
  }

  lemma SomeRound(p: B.Plan, r: nat)
    requires B.Ok(p) && r < p.n
    ensures B.RankDag(p, r).acts != map[]
  {
    BP.StepIs(p, r, 0, true);
    BP.KeyIs(p, r, B.StepKey(p, r, 0, true));
    NotEmpty(B.RankDag(p, r).acts, B.StepKey(p, r, 0, true));
  }

  method BuildAllgatherv<E(==,!new)>(cfg: Config<E>, ghost op: (E, E) -> E, ghost init: (nat, Cell) -> E, ghost ue: nat -> bool,
                                     ghost ug: bool, p: B.Plan, counts: array<nat>, me: nat) returns (actor: DagCollectiveActor<E>)
    requires B.Ok(p) && !p.gap && counts[..] == p.counts && me < p.n && cfg == B.Cfg(p, op, init, ue, ug)
    ensures fresh(actor) && Prepared(cfg, me, actor)
  {
    BP.CfgFollows(p, op, init, ue, ug);
    BP.BruckBasic(p, cfg);
    SomeRound(p, me);
    assert cfg.dag[me] == B.RankDag(p, me) && cfg.n == p.n == counts.Length;
    hide *;
    actor := new DagCollectiveActor(cfg, me, InitRank(cfg, me).mem);
    var myOffset, totalNelems := BruckDag.Displacement(counts, me);
    BruckDag.AllgathervInitDag(actor, p, counts, totalNelems);
  }

  // Allgather, and barrier with no elements.
  method BuildAllgather<E(==,!new)>(cfg: Config<E>, ghost op: (E, E) -> E, ghost init: (nat, Cell) -> E, ghost ue: nat -> bool,
                                    ghost ug: bool, n: nat, nelems: nat, me: nat) returns (actor: DagCollectiveActor<E>)
    requires n >= 2 && me < n && cfg == B.Cfg(Gathers.EvenPlan(n, nelems), op, init, ue, ug)
    ensures fresh(actor) && Prepared(cfg, me, actor)
  {
    ghost var p := Gathers.EvenPlan(n, nelems);
    BP.CfgFollows(p, op, init, ue, ug);
    BP.BruckBasic(p, cfg);
    SomeRound(p, me);
    assert cfg.dag[me] == B.RankDag(p, me) && cfg.n == n;
    hide *;
    actor := new DagCollectiveActor(cfg, me, InitRank(cfg, me).mem);
    BruckDag.AllgatherInitDag(actor, n, nelems);
  }

  method BuildAlltoall<E(==,!new)>(cfg: Config<E>, ghost op: (E, E) -> E, ghost input: (nat, int) -> E, ghost other: (nat, Cell) -> E,
                                   ghost ue: nat -> bool, ghost ug: bool, p: A.Plan, me: nat) returns (actor: DagCollectiveActor<E>)
    requires A.Ok(p) && me < p.n && cfg == A.Cfg(p, op, input, other, ue, ug)
    ensures fresh(actor) && Prepared(cfg, me, actor)
  {
    AP.CfgFollows(p, op, input, other, ue, ug);
    AP.AlltoallBasic(p, cfg);
    AP.FirstShuffle(p, me);
    assert cfg.dag[me] == A.RankDag(p, me) && cfg.n == p.n;
    hide *;
    actor := new DagCollectiveActor(cfg, me, InitRank(cfg, me).mem);
    AlltoallDag.AlltoallInitDag(actor, p);
  }

  method BuildGather<E(==,!new)>(cfg: Config<E>, ghost op: (E, E) -> E, ghost init: (nat, Cell) -> E, ghost ue: nat -> bool,
                                 ghost ug: bool, p: G.Plan, me: nat) returns (actor: DagCollectiveActor<E>)
    requires G.Ok(p) && me < p.n && cfg == G.Cfg(p, op, init, ue, ug)
    ensures fresh(actor) && Prepared(cfg, me, actor)
  {
    GP.CfgFollows(p, op, init, ue, ug);
    GP.GatherBasic(p, cfg);
    SomeTransfer(p, me);
    assert cfg.dag[me] == G.RankDag(p, me) && cfg.n == p.n;
    hide *;
    actor := new DagCollectiveActor(cfg, me, InitRank(cfg, me).mem);
    GatherDag.GatherInitDag(actor, p);
  }

  // Every rank sends its block up the tree or takes part in the last transfers.
  lemma SomeTransfer(p: G.Plan, r: nat)
    requires G.Ok(p) && r < p.n
    ensures G.RankDag(p, r).acts != map[]
  {
    var k: Key;
    if r > 0 && LowBit(r) < G.Depth(p) {
      k := G.TreeKey(p, r, LowBit(r));
      GP.TreeKeyIs(p, r, LowBit(r));
    } else if p.root == 0 {
      if r > 0 { GP.LowBitBound(p, r); }
      k := G.TreeKey(p, r, 0);
      assert Pow2(0) == 1;
      GP.TreeKeyIs(p, r, 0);
    } else if r == 0 {
      k := Key(Send, G.L(p), p.root);
    } else {
      OnlyMid(p, r);
      k := if r == p.root then Key(Recv, G.L(p), 0) else Key(Send, G.L(p), p.root);
    }
    assert G.IsKey(p, r, k);
    GP.KeyIs(p, r, k);
    NotEmpty(G.RankDag(p, r).acts, k);
  }

  // The midpoint is the only multiple of itself in range, besides 0.
  lemma OnlyMid(p: G.Plan, r: nat)
    requires G.Ok(p) && 0 < r < p.n && LowBit(r) >= G.L(p) - 1
    ensures r == G.Mid(p)
  {
    LowBitIs(r);
    GP.LowBitBound(p, r);
    ParentReach(r);
    if Parent(r) > 0 { GP.LowBitBound(p, Parent(r)); }
  }

  method BuildBcast<E(==,!new)>(cfg: Config<E>, ghost op: (E, E) -> E, ghost init: (nat, Cell) -> E, ghost ue: nat -> bool,
                                ghost ug: bool, p: C.Plan, me: nat) returns (actor: DagCollectiveActor<E>)
    requires C.Ok(p) && me < p.n && cfg == C.Cfg(p, op, init, ue, ug)
    ensures fresh(actor) && Prepared(cfg, me, actor)
  {
    C.CfgFollows(p, op, init, ue, ug);
    C.BcastBasic(p, cfg);
    SomeEdge(p, me);
    assert cfg.dag[me] == C.RankDag(p, me) && cfg.n == p.n;
    hide *;
    actor := new DagCollectiveActor(cfg, me, InitRank(cfg, me).mem);
    BcastDag.BcastInitDag(actor, p);
  }

  // Every rank has a parent or, the root, a child.
  lemma SomeEdge(p: C.Plan, r: nat)
    requires C.Ok(p) && r < p.n
    ensures C.RankDag(p, r).acts != map[]
  {
    var k: Key;
    if C.Offset(p, r) > 0 {
      k := C.RecvFrom(p, r);
      LowBitIs(C.Offset(p, r));
      C.OffsetRank(p, k.partner, Parent(C.Offset(p, r)));
    } else {
      assert Pow2(0) == 1;
      BcastDag.SendKeyIs(p, r, 0);
      k := Key(Send, 0, C.RankAt(p, 1));
    }
    assert C.IsKey(p, r, k);
    NotEmpty(C.RankDag(p, r).acts, k);
  }
}
