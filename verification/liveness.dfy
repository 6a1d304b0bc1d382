// Deadlock freedom and termination: from every reachable state some step can be
// taken until all ranks have completed, and every step uses up a bounded budget.
module Liveness {
  import opened Actions
  import opened Protocol
  import opened Schedule
  import opened Invariant
  import opened ControlSteps
  import opened Conservation
  import opened WaitGraphs

  ghost predicate CanMove<E(!new)>(cfg: Config<E>, g: Global<E>)
    requires Shaped(cfg) && |g.ranks| == cfg.n
  {
    exists s: Step<E> :: Enabled(cfg, g, s)
  }

  ghost predicate AllComplete<E(!new)>(g: Global<E>) {
    forall r :: 0 <= r < |g.ranks| ==> g.ranks[r].complete
  }

  // ---------- progress ----------

  // A message in flight can always be delivered once every rank has begun.
  lemma NetMoves<E(!new)>(cfg: Config<E>, lg: Ledger<E>, g: Global<E>)
    requires Basic(cfg) && Control(cfg, lg, g)
    requires forall r :: 0 <= r < cfg.n ==> g.ranks[r].begun
    requires g.net.hdrs != multiset{} || g.net.reqs != multiset{} || g.net.pays != multiset{} || g.net.acks != multiset{}
    ensures CanMove(cfg, g)
  {
    if g.net.hdrs != multiset{} {
      var c :| c in g.net.hdrs;
      ChanEnds(cfg, c);
      assert Enabled(cfg, g, NetHdr(c));
    } else if g.net.reqs != multiset{} {
      var c :| c in g.net.reqs;
      var _ := SendAct(cfg, c);
      assert Enabled(cfg, g, Release(c));
    } else if g.net.pays != multiset{} {
      var p :| p in g.net.pays;
      ChanEnds(cfg, p.chan);
      if p.eager { assert Enabled(cfg, g, EagerIn(p)); } else { assert Enabled(cfg, g, Land(p)); }
    } else {
      var c :| c in g.net.acks;
      ChanEnds(cfg, c);
      assert Enabled(cfg, g, AckIn(c));
    }
  }

  // An active send or receive whose other side has started too has a message
  // that can be handled.
  lemma ChannelMoves<E(!new)>(cfg: Config<E>, lg: Ledger<E>, g: Global<E>, c: Chan)
    requires Basic(cfg) && LedgerOk(cfg, lg) && Control(cfg, lg, g) && IsChan(cfg, c)
    requires forall r :: 0 <= r < cfg.n ==> g.ranks[r].begun
    requires ChanOk(cfg, c)
    requires SendKey(c) in g.ranks[c.src].started && RecvKey(c) in g.ranks[c.dst].started
    requires SendKey(c) !in g.ranks[c.src].fin || RecvKey(c) !in g.ranks[c.dst].fin
    ensures CanMove(cfg, g)
  {
    assert Conserved(cfg, lg, g, c) && EntryOk(cfg, lg, c);
    var l := LookAt(cfg, lg, g, c);
    if l.ack > 0 || l.req > 0 || g.net.hdrs[c] > 0 || g.net.pays[lg(c)] > 0 {
      assert c in g.net.acks || c in g.net.reqs || c in g.net.hdrs || lg(c) in g.net.pays;
      NetMoves(cfg, lg, g);
    } else if l.hdr > 0 {
      assert Active(g.ranks[HdrHome(cfg, c)], HdrKey(cfg, c));
      assert Enabled(cfg, g, HeldHdr(c));
    } else {
      var p := lg(c);
      assert p in g.ranks[c.dst].payQ && p.chan == c;
      if p.eager {
        assert Enabled(cfg, g, HeldEager(p));
      } else {
        assert Enabled(cfg, g, Landed(p));
      }
    }
  }

  // An eager send that is under way needs nothing from the other side.
  lemma EagerSendMoves<E(!new)>(cfg: Config<E>, lg: Ledger<E>, g: Global<E>, c: Chan)
    requires Basic(cfg) && LedgerOk(cfg, lg) && Control(cfg, lg, g) && IsChan(cfg, c) && EagerChan(cfg, c)
    requires forall r :: 0 <= r < cfg.n ==> g.ranks[r].begun
    requires c.src < cfg.n && c.dst < cfg.n && SendKey(c) in g.ranks[c.src].started && SendKey(c) !in g.ranks[c.src].fin
    ensures CanMove(cfg, g)
  {
    hide Matched, Local, NetOk, Enabled, CanMove;
    assert Conserved(cfg, lg, g, c);
    var l := LookAt(cfg, lg, g, c);
    assert l.req > 0 || l.ack > 0;
    assert c in g.net.reqs || c in g.net.acks;
    NetMoves(cfg, lg, g);
  }

  // An unfinished action that waits for nothing unfinished can be carried on.
  lemma LastMoves<E(!new)>(cfg: Config<E>, lg: Ledger<E>, g: Global<E>, b: Node)
    requires Basic(cfg) && Closed(cfg) && LedgerOk(cfg, lg) && Control(cfg, lg, g)
    requires forall r :: 0 <= r < cfg.n ==> g.ranks[r].begun
    requires IsNode(cfg, b) && b.k !in g.ranks[b.r].fin
    requires forall a :: IsNode(cfg, a) && Waits(cfg, false, b, a) ==> a.k in g.ranks[a.r].fin
    ensures CanMove(cfg, g)
  {
    hide Matched, LedgerOk, NetOk, Conserved, Balanced;
    assert Local(cfg, lg, b.r, g.ranks[b.r]);
    if b.k !in g.ranks[b.r].started {
      forall d | d in cfg.dag[b.r].pre[b.k] ensures d in g.ranks[b.r].fin { assert Waits(cfg, false, b, Node(b.r, d)); }
      assert Enabled(cfg, g, Start(b.r, b.k));
    } else {
      var c, o := ChanOf(b.r, b.k), Other(b);
      KeyChan(cfg, b.r, b.k);
      ChanEnds(cfg, c);
      OtherIs(cfg, b);
      assert Local(cfg, lg, o.r, g.ranks[o.r]);
      if !Coupled(cfg, false, b) {
        EagerSendMoves(cfg, lg, g, c);
      } else if o.k !in g.ranks[o.r].started {
        forall d | d in cfg.dag[o.r].pre[o.k] ensures d in g.ranks[o.r].fin { assert Waits(cfg, false, b, Node(o.r, d)); }
        assert Enabled(cfg, g, Start(o.r, o.k));
      } else {
        ChannelMoves(cfg, lg, g, c);
      }
    }
  }

  ghost predicate Unfinished<E(!new)>(cfg: Config<E>, g: Global<E>, b: Node)
    requires Shaped(cfg) && |g.ranks| == cfg.n
  {
    IsNode(cfg, b) && b.k !in g.ranks[b.r].fin
  }

  // While an action is unfinished, some step is enabled: a walk along what is
  // waited for and unfinished comes to an end.
  lemma {:induction false} WalkMoves<E(!new)>(cfg: Config<E>, lg: Ledger<E>, g: Global<E>, p: seq<Node>)
    requires Basic(cfg) && Closed(cfg) && Acyclic(cfg, false) && LedgerOk(cfg, lg) && Control(cfg, lg, g) && |g.ranks| == cfg.n
    requires forall r :: 0 <= r < cfg.n ==> g.ranks[r].begun
    requires Walk(cfg, false, p) && Inside(cfg, p) && p != [] && Unfinished(cfg, g, p[|p| - 1])
    ensures CanMove(cfg, g)
    decreases |Nodes(cfg)| - |p|
  {
    hide Matched, LedgerOk, Control, CanMove, Closed, Acyclic, Waits;
    var b := p[|p| - 1];
    if a :| Unfinished(cfg, g, a) && Waits(cfg, false, b, a) {
      Longer(cfg, false, p, a);
      ShortWalk(cfg, false, p + [a]);
      WalkMoves(cfg, lg, g, p + [a]);
    } else {
      LastMoves(cfg, lg, g, b);
    }
  }

  lemma Progress<E(!new)>(cfg: Config<E>, lg: Ledger<E>, g: Global<E>)
    requires Basic(cfg) && Closed(cfg) && NoEmptyDag(cfg) && Acyclic(cfg, false)
    requires LedgerOk(cfg, lg) && Control(cfg, lg, g) && !AllComplete(g)
    ensures CanMove(cfg, g)
  {
    hide Matched, LedgerOk, Closed, Acyclic;
    if r :| 0 <= r < cfg.n && !g.ranks[r].begun {
      assert Enabled(cfg, g, Begin(r));
    } else {
      var r: nat :| r < cfg.n && !g.ranks[r].complete;
      if k :| k in cfg.dag[r].acts && k !in g.ranks[r].fin {
        WalkMoves(cfg, lg, g, [Node(r, k)]);
      } else {
        assert Enabled(cfg, g, Done(r));
      }
    }
  }

  // ---------- termination ----------

  ghost function RankBudget<E(!new)>(cfg: Config<E>, r: nat, st: Rank<E>): nat
    requires Shaped(cfg) && r < cfg.n
  {
    B(!st.begun) + B(!st.complete) + 8 * |cfg.dag[r].acts.Keys - st.started| + 5 * |st.hdrQ| + |st.payQ|
  }

  function Sum(w: nat -> nat, n: nat): nat { if n == 0 then 0 else Sum(w, n - 1) + w(n - 1) }

  lemma {:induction false} SumUpdate(w: nat -> nat, w': nat -> nat, r: nat, n: nat)
    requires forall i: nat :: i < n && i != r ==> w'(i) == w(i)
    ensures Sum(w', n) == Sum(w, n) + (if r < n then w'(r) - w(r) else 0)
  {
    if n > 0 { SumUpdate(w, w', r, n - 1); }
  }

  ghost function RankWeights<E(!new)>(cfg: Config<E>, g: Global<E>): nat -> nat
    requires Shaped(cfg) && |g.ranks| == cfg.n
  {
    (r: nat) => if r < cfg.n then RankBudget(cfg, r, g.ranks[r]) else 0
  }

  ghost function NetBudget<E(!new)>(net: Net<E>): nat {
    6 * |net.hdrs| + 4 * |net.reqs| + 2 * |net.pays| + |net.acks|
  }

  ghost function Budget<E(!new)>(cfg: Config<E>, g: Global<E>): nat
    requires Shaped(cfg) && |g.ranks| == cfg.n
  {
    Sum(RankWeights(cfg, g), cfg.n) + NetBudget(g.net)
  }

  lemma PutBudget<E(!new)>(cfg: Config<E>, g: Global<E>, r: nat, st: Rank<E>, net: Net<E>)
    requires Shaped(cfg) && |g.ranks| == cfg.n && r < cfg.n
    requires RankBudget(cfg, r, st) + NetBudget(net) < RankBudget(cfg, r, g.ranks[r]) + NetBudget(g.net)
    ensures Budget(cfg, Put(g, r, st, net)) < Budget(cfg, g)
  {
    SumUpdate(RankWeights(cfg, g), RankWeights(cfg, Put(g, r, st, net)), r, cfg.n);
  }

  lemma StartBudget<E(!new)>(cfg: Config<E>, g: Global<E>, r: nat, k: Key)
    requires Shaped(cfg) && |g.ranks| == cfg.n && r < cfg.n && Ready(cfg, r, g.ranks[r], k)
    ensures Budget(cfg, DoStart(cfg, g, r, k)) < Budget(cfg, g)
  {
    var st, st' := g.ranks[r], Launch(cfg, r, g.ranks[r], k);
    var rest, rest' := cfg.dag[r].acts.Keys - st.started, cfg.dag[r].acts.Keys - st'.started;
    assert k in rest && rest' == rest - {k};
    assert |rest'| == |rest| - 1;
    assert NetBudget(Plus(g.net, LaunchMsgs(cfg, r, k))) <= NetBudget(g.net) + 6;
    PutBudget(cfg, g, r, st', Plus(g.net, LaunchMsgs(cfg, r, k)));
  }

  lemma HdrBudget<E(!new)>(cfg: Config<E>, g: Global<E>, c: Chan)
    requires Shaped(cfg) && |g.ranks| == cfg.n && HdrHome(cfg, c) < cfg.n
    ensures c in g.net.hdrs ==> Budget(cfg, DoNetHdr(cfg, g, c)) < Budget(cfg, g)
    ensures c in g.ranks[HdrHome(cfg, c)].hdrQ && Active(g.ranks[HdrHome(cfg, c)], HdrKey(cfg, c)) ==>
              Budget(cfg, DoHeldHdr(cfg, g, c)) < Budget(cfg, g)
  {
    var r := HdrHome(cfg, c);
    if c in g.net.hdrs {
      var g' := DoNetHdr(cfg, g, c);
      PutBudget(cfg, g, r, g'.ranks[r], g'.net);
    }
    if c in g.ranks[r].hdrQ && Active(g.ranks[r], HdrKey(cfg, c)) {
      var g' := DoHeldHdr(cfg, g, c);
      PutBudget(cfg, g, r, g'.ranks[r], g'.net);
    }
  }

  lemma SameButPays<E(!new)>(cfg: Config<E>, r: nat, a: Rank<E>, b: Rank<E>)
    requires Shaped(cfg) && r < cfg.n
    requires a.begun == b.begun && a.complete == b.complete && a.started == b.started && a.hdrQ == b.hdrQ
    ensures RankBudget(cfg, r, a) - |a.payQ| == RankBudget(cfg, r, b) - |b.payQ|
  {
  }

  lemma EagerRank<E(!new)>(cfg: Config<E>, r: nat, st: Rank<E>, p: Pay<E>)
    requires Shaped(cfg) && r < cfg.n
    ensures RankBudget(cfg, r, HandleEager(cfg, r, st, p)) == RankBudget(cfg, r, st) + B(!Active(st, RecvKey(p.chan)))
  {
    hide RecvMem, Shaped, RankBudget;
    var st' := HandleEager(cfg, r, st, p);
    SameButPays(cfg, r, st, st');
    assert |st.payQ + multiset{p}| == |st.payQ| + 1;
  }

  lemma TakenRank<E(!new)>(cfg: Config<E>, r: nat, st: Rank<E>, p: Pay<E>)
    requires Shaped(cfg) && r < cfg.n && p in st.payQ
    ensures RankBudget(cfg, r, st.(payQ := st.payQ - multiset{p})) == RankBudget(cfg, r, st) - 1
  {
  }

  lemma ArrivalBudget<E(!new)>(cfg: Config<E>, g: Global<E>, p: Pay<E>)
    requires Shaped(cfg) && |g.ranks| == cfg.n && p.chan.dst < cfg.n && p in g.net.pays
    ensures Budget(cfg, DoEagerIn(cfg, g, p)) < Budget(cfg, g)
    ensures RecvKey(p.chan) in cfg.dag[p.chan.dst].acts ==> Budget(cfg, DoLand(cfg, g, p)) < Budget(cfg, g)
  {
    var r := p.chan.dst;
    var net := g.net.(pays := g.net.pays - multiset{p});
    EagerRank(cfg, r, g.ranks[r], p);
    PutBudget(cfg, g, r, HandleEager(cfg, r, g.ranks[r], p), net);
    if RecvKey(p.chan) in cfg.dag[r].acts {
      PutBudget(cfg, g, r, DoLand(cfg, g, p).ranks[r], net);
    }
  }

  lemma HeldBudget<E(!new)>(cfg: Config<E>, g: Global<E>, p: Pay<E>)
    requires Shaped(cfg) && |g.ranks| == cfg.n && p.chan.dst < cfg.n && p in g.ranks[p.chan.dst].payQ
    requires Active(g.ranks[p.chan.dst], RecvKey(p.chan))
    ensures Budget(cfg, DoHeldEager(cfg, g, p)) < Budget(cfg, g)
  {
    var r := p.chan.dst;
    var st := g.ranks[r].(payQ := g.ranks[r].payQ - multiset{p});
    TakenRank(cfg, r, g.ranks[r], p);
    EagerRank(cfg, r, st, p);
    PutBudget(cfg, g, r, HandleEager(cfg, r, st, p), g.net);
  }

  lemma LandedBudget<E(!new)>(cfg: Config<E>, g: Global<E>, p: Pay<E>)
    requires Shaped(cfg) && |g.ranks| == cfg.n && p.chan.dst < cfg.n && p in g.ranks[p.chan.dst].payQ
    ensures Budget(cfg, DoLanded(cfg, g, p)) < Budget(cfg, g)
  {
    var r := p.chan.dst;
    var st := g.ranks[r].(payQ := g.ranks[r].payQ - multiset{p});
    TakenRank(cfg, r, g.ranks[r], p);
    PutBudget(cfg, g, r, HandleLanded(cfg, r, st, p.chan), g.net);
  }

  lemma FlagBudget<E(!new)>(cfg: Config<E>, g: Global<E>, r: nat)
    requires Shaped(cfg) && |g.ranks| == cfg.n && r < cfg.n
    ensures !g.ranks[r].begun ==> Budget(cfg, Put(g, r, g.ranks[r].(begun := true), g.net)) < Budget(cfg, g)
    ensures !g.ranks[r].complete ==> Budget(cfg, Put(g, r, Finish(cfg, r, g.ranks[r]), g.net)) < Budget(cfg, g)
  {
    hide Budget, Put;
    if !g.ranks[r].begun { PutBudget(cfg, g, r, g.ranks[r].(begun := true), g.net); }
    if !g.ranks[r].complete { PutBudget(cfg, g, r, Finish(cfg, r, g.ranks[r]), g.net); }
  }

  lemma ReleaseBudget<E(!new)>(cfg: Config<E>, g: Global<E>, c: Chan, p: Pay<E>)
    requires Shaped(cfg) && |g.ranks| == cfg.n && c in g.net.reqs
    ensures Budget(cfg, DoRelease(g, c, p)) < Budget(cfg, g)
  {
    hide RankBudget, Shaped;
  }

  lemma AckBudget<E(!new)>(cfg: Config<E>, g: Global<E>, c: Chan)
    requires Shaped(cfg) && |g.ranks| == cfg.n && c.src < cfg.n && c in g.net.acks
    ensures Budget(cfg, DoAckIn(g, c)) < Budget(cfg, g)
  {
    hide Budget, Put;
    PutBudget(cfg, g, c.src, HandleAck(g.ranks[c.src], c), g.net.(acks := g.net.acks - multiset{c}));
  }

  // Every step strictly lowers the budget.
  lemma StepBudget<E(!new)>(cfg: Config<E>, g: Global<E>, s: Step<E>)
    requires Shaped(cfg) && |g.ranks| == cfg.n && Enabled(cfg, g, s)
    ensures Budget(cfg, Do(cfg, g, s)) < Budget(cfg, g)
  {
    hide Launch, LaunchMsgs, HandleEager, HandleHdr, HandleLanded, HandleAck, HdrMsgs, Plus, Finish, Budget, Shaped, Put;
    match s
    case Begin(r) => FlagBudget(cfg, g, r);
    case Start(r, k) => StartBudget(cfg, g, r, k);
    case NetHdr(c) => HdrBudget(cfg, g, c);
    case HeldHdr(c) => HdrBudget(cfg, g, c);
    case Release(c) => ReleaseBudget(cfg, g, c, Injected(cfg, g, c));
    case EagerIn(p) => ArrivalBudget(cfg, g, p);
    case HeldEager(p) => HeldBudget(cfg, g, p);
    case Land(p) => ArrivalBudget(cfg, g, p);
    case Landed(p) => LandedBudget(cfg, g, p);
    case AckIn(c) => AckBudget(cfg, g, c);
    case Done(r) => FlagBudget(cfg, g, r);
  }

  // No run is longer than the initial budget.
  lemma {:induction false} RunsTerminate<E(!new)>(cfg: Config<E>, steps: seq<Step<E>>)
    requires Shaped(cfg) && IsRun(cfg, steps)
    ensures |steps| + Budget(cfg, After(cfg, steps)) <= Budget(cfg, Init(cfg))
    decreases |steps|
  {
    if steps != [] {
      var s0 := steps[..|steps| - 1];
      RunsTerminate(cfg, s0);
      StepBudget(cfg, After(cfg, s0), steps[|steps| - 1]);
    }
  }

  // For matched sends and receives and no waiting in a circle (race free or
  // not): a run that cannot be extended has completed every rank.
  lemma NoDeadlock<E(!new)>(cfg: Config<E>, steps: seq<Step<E>>)
    requires Basic(cfg) && Closed(cfg) && NoEmptyDag(cfg) && Acyclic(cfg, false) && IsRun(cfg, steps)
    ensures AllComplete(After(cfg, steps)) || CanMove(cfg, After(cfg, steps))
  {
    hide Matched, Control, CanMove, LedgerOk, Closed, Acyclic;
    var lg := RunControl(cfg, steps);
    if !AllComplete(After(cfg, steps)) { Progress(cfg, lg, After(cfg, steps)); }
  }

  lemma OneMore<E(!new)>(cfg: Config<E>, steps: seq<Step<E>>, s: Step<E>)
    requires Shaped(cfg) && IsRun(cfg, steps) && Enabled(cfg, After(cfg, steps), s)
    ensures IsRun(cfg, steps + [s]) && After(cfg, steps + [s]) == Do(cfg, After(cfg, steps), s)
  {
    var all := steps + [s];
    assert all[..|all| - 1] == steps && all[|all| - 1] == s;
  }

  // Whatever has happened so far, the collective can be run to completion.
  lemma {:induction false} RunsComplete<E(!new)>(cfg: Config<E>, steps: seq<Step<E>>) returns (all: seq<Step<E>>)
    requires Basic(cfg) && Closed(cfg) && NoEmptyDag(cfg) && Acyclic(cfg, false) && IsRun(cfg, steps)
    ensures IsRun(cfg, all) && steps <= all && AllComplete(After(cfg, all))
    decreases Budget(cfg, After(cfg, steps))
  {
    hide Do, Enabled, Budget, Closed, Acyclic, Matched;
    if AllComplete(After(cfg, steps)) {
      all := steps;
    } else {
      NoDeadlock(cfg, steps);
      var s :| Enabled(cfg, After(cfg, steps), s);
      StepBudget(cfg, After(cfg, steps), s);
      OneMore(cfg, steps, s);
      all := RunsComplete(cfg, steps + [s]);
    }
  }
}
