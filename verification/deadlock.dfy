// When matched DAGs can complete at all: exactly when no rank is without actions
// and nothing waits in a circle.
module Deadlocks {
  import opened Actions
  import opened Protocol
  import opened Schedule
  import opened Invariant
  import opened ControlSteps
  import opened Conservation
  import opened WaitGraphs
  import opened Liveness

  // ---------- a cycle stays unfinished ----------

  // What one handler leaves of a rank: nothing is started, and what it finishes
  // is a send or receive under way.
  ghost predicate Kept<E(!new)>(was: Rank<E>, now: Rank<E>) {
    now.started == was.started && forall k :: k in now.fin && k !in was.fin ==> IsComm(k) && k in was.started
  }

  lemma EagerKeeps<E(!new)>(cfg: Config<E>, r: nat, st: Rank<E>, p: Pay<E>)
    requires Shaped(cfg) && r < cfg.n
    ensures Kept(st, HandleEager(cfg, r, st, p))
  {
    hide Shaped, RecvMem;
  }

  lemma LandedKeeps<E(!new)>(cfg: Config<E>, r: nat, st: Rank<E>, c: Chan)
    requires Shaped(cfg) && r < cfg.n
    ensures Kept(st, HandleLanded(cfg, r, st, c))
  {
    hide Shaped, RecvMem, ReadSpan, LandSpan;
  }

  lemma HdrKeeps<E(!new)>(cfg: Config<E>, st: Rank<E>, c: Chan)
    ensures Kept(st, HandleHdr(cfg, st, c)) && Kept(st, HandleAck(st, c))
  {
  }

  lemma Untouched<E(!new)>(st: Rank<E>)
    ensures Kept(st, st)
  {
  }

  lemma KeptFrom<E(!new)>(was: Rank<E>, st: Rank<E>, now: Rank<E>)
    requires was.started == st.started && was.fin == st.fin && (Kept(st, now) || (now.started == st.started && now.fin == st.fin))
    ensures Kept(was, now)
  {
  }

  lemma PutKeeps<E(!new)>(g: Global<E>, q: nat, st: Rank<E>, net: Net<E>, r: nat)
    requires q < |g.ranks| && r < |g.ranks| && Kept(g.ranks[q], st)
    ensures Kept(g.ranks[r], Put(g, q, st, net).ranks[r])
  {
  }

  // Only starting an action does more.
  lemma OthersKeep<E(!new)>(cfg: Config<E>, g: Global<E>, s: Step<E>, r: nat)
    requires Shaped(cfg) && |g.ranks| == cfg.n && Enabled(cfg, g, s) && !s.Start? && r < cfg.n
    ensures Kept(g.ranks[r], Do(cfg, g, s).ranks[r])
  {
    hide Shaped, WriteSpan, HdrMsgs, Injected, Plus, CanFinish, LandSpan, HandleEager, HandleLanded, HandleHdr, HandleAck, Kept;
    Untouched(g.ranks[r]);
    var g' := Do(cfg, g, s);
    match s
    case NetHdr(c) =>
      HdrKeeps(cfg, g.ranks[HdrHome(cfg, c)], c);
      PutKeeps(g, HdrHome(cfg, c), HandleHdr(cfg, g.ranks[HdrHome(cfg, c)], c), g'.net, r);
    case HeldHdr(c) =>
      var q := HdrHome(cfg, c);
      var st := g.ranks[q].(hdrQ := g.ranks[q].hdrQ - multiset{c});
      HdrKeeps(cfg, st, c);
      KeptFrom(g.ranks[q], st, HandleHdr(cfg, st, c));
      PutKeeps(g, q, HandleHdr(cfg, st, c), g'.net, r);
    case EagerIn(p) =>
      EagerKeeps(cfg, p.chan.dst, g.ranks[p.chan.dst], p);
      PutKeeps(g, p.chan.dst, HandleEager(cfg, p.chan.dst, g.ranks[p.chan.dst], p), g'.net, r);
    case HeldEager(p) =>
      var q := p.chan.dst;
      var st := g.ranks[q].(payQ := g.ranks[q].payQ - multiset{p});
      EagerKeeps(cfg, q, st, p);
      KeptFrom(g.ranks[q], st, HandleEager(cfg, q, st, p));
      PutKeeps(g, q, HandleEager(cfg, q, st, p), g'.net, r);
    case Landed(p) =>
      var q := p.chan.dst;
      var st := g.ranks[q].(payQ := g.ranks[q].payQ - multiset{p});
      LandedKeeps(cfg, q, st, p.chan);
      KeptFrom(g.ranks[q], st, HandleLanded(cfg, q, st, p.chan));
      PutKeeps(g, q, HandleLanded(cfg, q, st, p.chan), g'.net, r);
    case AckIn(c) =>
      HdrKeeps(cfg, g.ranks[c.src], c);
      PutKeeps(g, c.src, HandleAck(g.ranks[c.src], c), g'.net, r);
    case Begin(q) =>
      KeptFrom(g.ranks[q], g.ranks[q], g.ranks[q].(begun := true));
      PutKeeps(g, q, g.ranks[q].(begun := true), g'.net, r);
    case Done(q) =>
      KeptFrom(g.ranks[q], g.ranks[q], Finish(cfg, q, g.ranks[q]));
      PutKeeps(g, q, Finish(cfg, q, g.ranks[q]), g'.net, r);
    case Land(p) => LandKeeps(cfg, g, p, r);
    case Release(_) =>
  }

  lemma LandKeeps<E(!new)>(cfg: Config<E>, g: Global<E>, p: Pay<E>, r: nat)
    requires Shaped(cfg) && |g.ranks| == cfg.n && p.chan.dst < cfg.n && r < cfg.n && RecvKey(p.chan) in cfg.dag[p.chan.dst].acts
    ensures Kept(g.ranks[r], DoLand(cfg, g, p).ranks[r])
  {
  }

  // What has just been finished had everything it depends on finished before.
  lemma FinishStep<E(!new)>(cfg: Config<E>, lg: Ledger<E>, g: Global<E>, s: Step<E>, b: Node)
    requires Basic(cfg) && Control(cfg, lg, g) && Enabled(cfg, g, s) && IsNode(cfg, b)
    requires b.k in Do(cfg, g, s).ranks[b.r].fin && b.k !in g.ranks[b.r].fin
    ensures if IsComm(b.k) then
              b.k in g.ranks[b.r].started && forall r :: 0 <= r < cfg.n ==> Do(cfg, g, s).ranks[r].started == g.ranks[r].started
            else Ready(cfg, b.r, g.ranks[b.r], b.k)
  {
    hide Matched, LedgerOk, NetOk, Conserved, Plus, LaunchMsgs;
    if s.Start? {
      KeyKind(cfg, s.r, s.k);
    } else {
      hide Do, Enabled;
      forall r | 0 <= r < cfg.n ensures Do(cfg, g, s).ranks[r].started == g.ranks[r].started { OthersKeep(cfg, g, s, r); }
      OthersKeep(cfg, g, s, b.r);
    }
  }

  // A finished end of a coupled message means that the other end has started.
  lemma OtherStarted<E(!new)>(cfg: Config<E>, lg: Ledger<E>, g: Global<E>, b: Node)
    requires Basic(cfg) && Control(cfg, lg, g) && IsNode(cfg, b) && b.k in g.ranks[b.r].fin && Coupled(cfg, false, b)
    ensures IsNode(cfg, Other(b)) && Other(b).k in g.ranks[Other(b).r].started
  {
    hide Matched, LedgerOk, NetOk;
    var c := ChanOf(b.r, b.k);
    KeyChan(cfg, b.r, b.k);
    ChanEnds(cfg, c);
    assert Conserved(cfg, lg, g, c);
    assert Local(cfg, lg, b.r, g.ranks[b.r]);
  }

  lemma WaitedFor<E(!new)>(cfg: Config<E>, lg: Ledger<E>, lg': Ledger<E>, g: Global<E>, s: Step<E>, b: Node, a: Node)
    requires Basic(cfg) && Control(cfg, lg, g) && Enabled(cfg, g, s) && Control(cfg, lg', Do(cfg, g, s)) && Waits(cfg, false, b, a)
    requires b.k in Do(cfg, g, s).ranks[b.r].fin && b.k !in g.ranks[b.r].fin
    ensures a.r < cfg.n && a.k in g.ranks[a.r].fin
  {
    hide Matched, LedgerOk, NetOk, Conserved, Do, Enabled;
    FinishStep(cfg, lg, g, s, b);
    assert Local(cfg, lg, b.r, g.ranks[b.r]);
    if !Depends(cfg, b, a) {
      OtherStarted(cfg, lg', Do(cfg, g, s), b);
      assert Local(cfg, lg, a.r, g.ranks[a.r]);
    }
  }

  ghost predicate AllOpen<E(!new)>(g: Global<E>, p: seq<Node>) {
    forall b :: b in p && b.r < |g.ranks| ==> b.k !in g.ranks[b.r].fin
  }

  lemma Successor<E(!new)>(cfg: Config<E>, p: seq<Node>, b: Node) returns (a: Node)
    requires Shaped(cfg) && Cycle(cfg, false, p) && b in p
    ensures a in p && Waits(cfg, false, b, a)
  {
    var i :| 0 <= i < |p| && p[i] == b;
    var j := if i + 1 < |p| then i + 1 else 1;
    assert Waits(cfg, false, p[j - 1], p[j]);
    a := p[j];
  }

  lemma {:induction false} CycleOpen<E(!new)>(cfg: Config<E>, steps: seq<Step<E>>, p: seq<Node>)
    requires Basic(cfg) && IsRun(cfg, steps) && Cycle(cfg, false, p)
    ensures AllOpen(After(cfg, steps), p)
    decreases |steps|
  {
    hide Matched, LedgerOk, Control, Do, Enabled, Waits, Cycle;
    if steps != [] {
      var front, s := steps[..|steps| - 1], steps[|steps| - 1];
      CycleOpen(cfg, front, p);
      var lg := RunControl(cfg, front);
      var lg' := RunControl(cfg, steps);
      var g := After(cfg, front);
      forall b | b in p && b.r < cfg.n ensures b.k !in Do(cfg, g, s).ranks[b.r].fin {
        var a := Successor(cfg, p, b);
        if b.k in Do(cfg, g, s).ranks[b.r].fin { WaitedFor(cfg, lg, lg', g, s, b, a); }
      }
    }
  }

  // No rank that has an action on a cycle ever completes.
  lemma CycleNeverCompletes<E(!new)>(cfg: Config<E>, steps: seq<Step<E>>, p: seq<Node>, b: Node)
    requires Basic(cfg) && IsRun(cfg, steps) && Cycle(cfg, false, p) && b in p
    ensures b.r < cfg.n && !After(cfg, steps).ranks[b.r].complete
  {
    hide Matched, IsRun, Depends, Coupled, Cycle;
    var a := Successor(cfg, p, b);
    CycleOpen(cfg, steps, p);
    NoAbort(cfg, steps, b.r);
  }

  // ---------- the exact condition ----------

  ghost predicate CanComplete<E(!new)>(cfg: Config<E>)
    requires Shaped(cfg)
  {
    exists steps :: IsRun(cfg, steps) && AllComplete(After(cfg, steps))
  }

  lemma FinishedIsClosed<E(!new)>(cfg: Config<E>, steps: seq<Step<E>>)
    requires Basic(cfg) && IsRun(cfg, steps) && AllComplete(After(cfg, steps))
    ensures Closed(cfg) && NoEmptyDag(cfg)
  {
    hide Matched, IsRun, NetOk, Conserved, LedgerOk;
    var lg := RunControl(cfg, steps);
    forall r: nat | r < cfg.n
      ensures cfg.dag[r].acts != map[]
      ensures forall k, d :: k in cfg.dag[r].acts && d in cfg.dag[r].pre[k] ==> d in cfg.dag[r].acts
    {
      assert Local(cfg, lg, r, After(cfg, steps).ranks[r]);
    }
  }

  // Matched DAGs can complete exactly when every rank has an action, precursors
  // are actions, and nothing waits in a circle; and then every run does.
  lemma CompletesExactly<E(!new)>(cfg: Config<E>)
    requires Basic(cfg)
    ensures CanComplete(cfg) <==> NoEmptyDag(cfg) && Closed(cfg) && Acyclic(cfg, false)
  {
    hide Matched, Closed, NoEmptyDag, Cycle, After;
    if NoEmptyDag(cfg) && Closed(cfg) && Acyclic(cfg, false) {
      var all := RunsComplete(cfg, []);
    }
    if steps :| IsRun(cfg, steps) && AllComplete(After(cfg, steps)) {
      FinishedIsClosed(cfg, steps);
      forall p ensures !Cycle(cfg, false, p) {
        if Cycle(cfg, false, p) { CycleStops(cfg, steps, p); }
      }
    }
  }

  lemma CycleStops<E(!new)>(cfg: Config<E>, steps: seq<Step<E>>, p: seq<Node>)
    requires Basic(cfg) && IsRun(cfg, steps) && Cycle(cfg, false, p)
    ensures !AllComplete(After(cfg, steps))
  {
    hide Matched, IsRun, Walk;
    CycleNeverCompletes(cfg, steps, p, p[0]);
  }

  // Without eager messages that is the graph in which both ends are one node.
  lemma RendezvousCompletesExactly<E(!new)>(cfg: Config<E>)
    requires Basic(cfg) && forall m :: !cfg.useEager(m)
    ensures CanComplete(cfg) <==> NoEmptyDag(cfg) && Closed(cfg) && Acyclic(cfg, true)
  {
    hide Matched, Closed, NoEmptyDag, Acyclic, CanComplete;
    MergedIsExact(cfg);
    CompletesExactly(cfg);
  }

  // ---------- eager messages make a difference ----------

  // Two ranks that each send to the other and only then receive.
  ghost function Exchange(eager: bool, ug: bool): Config<int> {
    Config(2, [ExchangeDag(1), ExchangeDag(0)], [Ptrs(0, 1, 0), Ptrs(0, 1, 0)], _ => eager, ug,
           (x, y) => x + y, (_, _) => 0, (_, _, _) => None, (_, m) => m, Notes((_, _) => 0, (_, _) => false, 1))
  }

  function ExchangeDag(partner: nat): Dag {
    var send, recv := Key(Send, 0, partner), Key(Recv, 0, partner);
    Dag(map[send := SendAction(0, partner, 0, 1, SendInPlace), recv := RecvAction(0, partner, 0, 1, PackedTemp)],
        map[send := {}, recv := {send}])
  }

  lemma ExchangeShaped(eager: bool, ug: bool)
    ensures var cfg := Exchange(eager, ug); Shaped(cfg) && Closed(cfg) && NoEmptyDag(cfg)
  {
    hide ExchangeDag;
    ExchangeDagIs(1);
    ExchangeDagIs(0);
  }

  lemma ExchangeDagIs(partner: nat)
    ensures var dag := ExchangeDag(partner);
            && dag.acts != map[] && (forall k :: k in dag.acts ==> dag.acts[k].Id() == k && k in dag.pre)
            && (forall k, d :: k in dag.acts && d in dag.pre[k] ==> d in dag.acts)
  {
    NotEmpty(ExchangeDag(partner).acts, Key(Send, 0, partner));
  }

  lemma ExchangeBasic(eager: bool, ug: bool)
    ensures Basic(Exchange(eager, ug)) && Closed(Exchange(eager, ug)) && NoEmptyDag(Exchange(eager, ug))
  {
    hide NoEmptyDag, Closed;
    var cfg := Exchange(eager, ug);
    ExchangeShaped(eager, ug);
    forall r: nat, k | r < cfg.n && k in cfg.dag[r].acts && IsComm(k) ensures ChanOk(cfg, ChanOf(r, k)) {
      assert r == 0 || r == 1;
    }
  }

  // With both ends of a message merged there is a cycle.
  lemma ExchangeCycle(eager: bool, ug: bool)
    ensures Shaped(Exchange(eager, ug)) && !Acyclic(Exchange(eager, ug), true)
  {
    var cfg := Exchange(eager, ug);
    ExchangeBasic(eager, ug);
    var a, b := Node(0, Key(Send, 0, 1)), Node(1, Key(Send, 0, 0));
    assert Waits(cfg, true, a, b) && Waits(cfg, true, b, a);
    var p := [a, b, a];
    assert Cycle(cfg, true, p);
  }

  // With eager messages only a receive waits, and only for a send.
  lemma EagerWaits(cfg: Config<int>, ug: bool, b: Node, a: Node)
    requires cfg == Exchange(true, ug) && Shaped(cfg) && Waits(cfg, false, b, a)
    ensures b.k.kind == Recv && a.k.kind == Send
  {
  }

  lemma EagerNoCycle(cfg: Config<int>, ug: bool, p: seq<Node>)
    requires cfg == Exchange(true, ug) && Shaped(cfg)
    ensures !Cycle(cfg, false, p)
  {
    hide Waits, Exchange;
    if Cycle(cfg, false, p) {
      EagerWaits(cfg, ug, p[1 - 1], p[1]);
      EagerWaits(cfg, ug, p[|p| - 1 - 1], p[|p| - 1]);
    }
  }

  // Under rendezvous the exchange deadlocks, with eager messages it does not: the
  // merged graph is then too strict.
  lemma ExchangeNeedsEager(eager: bool, ug: bool)
    ensures Shaped(Exchange(eager, ug)) && (CanComplete(Exchange(eager, ug)) <==> eager)
  {
    var cfg := Exchange(eager, ug);
    ExchangeBasic(eager, ug);
    if eager {
      forall p: seq<Node> ensures !Cycle(cfg, false, p) {
        if Cycle(cfg, false, p) { EagerNoCycle(cfg, ug, p); }
      }
      CompletesExactly(cfg);
    } else {
      ExchangeCycle(eager, ug);
      RendezvousCompletesExactly(cfg);
    }
  }
}
