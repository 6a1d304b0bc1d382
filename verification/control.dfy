// Every step keeps the control part of the invariant: dependencies, message
// conservation, and no step the engine would abort on.
module ControlSteps {
  import opened Actions
  import opened Protocol
  import opened Schedule
  import opened Invariant

  // The kind of a key tells which action it names.
  lemma KeyKind<E(!new)>(cfg: Config<E>, r: nat, k: Key)
    requires Shaped(cfg) && r < cfg.n && k in cfg.dag[r].acts
    ensures k.kind == Send <==> cfg.dag[r].acts[k].SendAction?
    ensures k.kind == Recv <==> cfg.dag[r].acts[k].RecvAction?
    ensures k.kind == Shuffle <==> cfg.dag[r].acts[k].ShuffleAction?
    ensures cfg.dag[r].acts[k].round == k.round && cfg.dag[r].acts[k].partner == k.partner
  {
    assert cfg.dag[r].acts[k].Id() == k;
  }

  lemma KeyChan<E(!new)>(cfg: Config<E>, r: nat, k: Key)
    requires Basic(cfg) && r < cfg.n && k in cfg.dag[r].acts && IsComm(k)
    ensures IsChan(cfg, ChanOf(r, k))
    ensures k.kind == Send ==> SendKey(ChanOf(r, k)) == k && SendAct(cfg, ChanOf(r, k)) == cfg.dag[r].acts[k]
    ensures k.kind == Recv ==> RecvKey(ChanOf(r, k)) == k && RecvAct(cfg, ChanOf(r, k)) == cfg.dag[r].acts[k]
  {
    assert ChanOk(cfg, ChanOf(r, k));
  }

  lemma ChanEnds<E(!new)>(cfg: Config<E>, c: Chan)
    requires Basic(cfg) && IsChan(cfg, c)
    ensures ChanOk(cfg, c)
  {
    var _ := SendAct(cfg, c);
  }

  // ---------- one rank ----------

  lemma LaunchRank<E(!new)>(cfg: Config<E>, r: nat, st: Rank<E>, k: Key)
    requires Basic(cfg) && r < cfg.n && RankOk(cfg, r, st) && Ready(cfg, r, st, k)
    ensures RankOk(cfg, r, Launch(cfg, r, st, k))
  {
    KeyKind(cfg, r, k);
  }

  lemma LaunchLocal<E(!new)>(cfg: Config<E>, lg: Ledger<E>, r: nat, st: Rank<E>, k: Key)
    requires Basic(cfg) && r < cfg.n && Local(cfg, lg, r, st) && Ready(cfg, r, st, k)
    ensures Local(cfg, lg, r, Launch(cfg, r, st, k))
  {
    hide Matched, IsChan, RankOk;
    LaunchRank(cfg, r, st, k);
  }

  lemma LaunchNet<E(!new)>(cfg: Config<E>, lg: Ledger<E>, r: nat, k: Key)
    requires Basic(cfg) && r < cfg.n && k in cfg.dag[r].acts
    ensures NetOk(cfg, lg, LaunchMsgs(cfg, r, k))
  {
    hide Matched, IsChan, ChanOk, LaunchMsgs;
    OnOwnChan(cfg, r, k);
    if IsComm(k) { KeyChan(cfg, r, k); }
  }

  // An action posts on its own channel only.
  lemma OnOwnChan<E(!new)>(cfg: Config<E>, r: nat, k: Key)
    requires Basic(cfg) && r < cfg.n && k in cfg.dag[r].acts
    ensures var m := LaunchMsgs(cfg, r, k);
            && m.acks == multiset{} && m.pays == multiset{}
            && (forall c :: c in m.hdrs || c in m.reqs ==> IsComm(k) && c == ChanOf(r, k))
  {
    hide Matched, IsChan, ChanOk;
    KeyKind(cfg, r, k);
  }

  lemma PlusNet<E(!new)>(cfg: Config<E>, lg: Ledger<E>, a: Net<E>, b: Net<E>)
    requires Basic(cfg) && NetOk(cfg, lg, a) && NetOk(cfg, lg, b)
    ensures NetOk(cfg, lg, Plus(a, b))
  {
  }

  lemma FinishedRank<E(!new)>(cfg: Config<E>, lg: Ledger<E>, r: nat, st: Rank<E>, k: Key, mem: Mem<E>)
    requires Basic(cfg) && r < cfg.n && Local(cfg, lg, r, st) && Active(st, k)
    ensures Local(cfg, lg, r, st.(fin := st.fin + {k}, mem := mem))
  {
  }

  // ---------- assembling ----------

  lemma OneRank<E(!new)>(cfg: Config<E>, lg: Ledger<E>, g: Global<E>, r: nat, st: Rank<E>, net: Net<E>)
    requires Basic(cfg) && Control(cfg, lg, g) && r < cfg.n
    requires Local(cfg, lg, r, st) && NetOk(cfg, lg, net)
    requires forall c {:trigger Conserved(cfg, lg, Put(g, r, st, net), c)} ::
      IsChan(cfg, c) ==> Conserved(cfg, lg, Put(g, r, st, net), c)
    ensures Control(cfg, lg, Put(g, r, st, net))
  {
    forall r': nat | r' < cfg.n ensures Local(cfg, lg, r', Put(g, r, st, net).ranks[r']) {
      assert r' != r ==> Local(cfg, lg, r', g.ranks[r']);
    }
  }

  lemma BeginControl<E(!new)>(cfg: Config<E>, lg: Ledger<E>, g: Global<E>, r: nat)
    requires Basic(cfg) && Control(cfg, lg, g) && r < cfg.n
    ensures Control(cfg, lg, Put(g, r, g.ranks[r].(begun := true), g.net))
  {
    hide Matched, Balanced, NetOk;
    var st := g.ranks[r].(begun := true);
    forall c | IsChan(cfg, c) ensures Conserved(cfg, lg, Put(g, r, st, g.net), c) {
      ChanEnds(cfg, c);
      assert Conserved(cfg, lg, g, c);
      assert LookAt(cfg, lg, Put(g, r, st, g.net), c) == LookAt(cfg, lg, g, c);
    }
    assert Local(cfg, lg, r, g.ranks[r]);
    OneRank(cfg, lg, g, r, st, g.net);
  }

  lemma StartControl<E(!new)>(cfg: Config<E>, lg: Ledger<E>, g: Global<E>, r: nat, k: Key)
    requires Basic(cfg) && Control(cfg, lg, g) && r < cfg.n && Ready(cfg, r, g.ranks[r], k)
    ensures Control(cfg, lg, DoStart(cfg, g, r, k))
  {
    hide Matched, IsChan, Conserved, NetOk, LaunchMsgs, Local, Launch, Plus;
    var st := Launch(cfg, r, g.ranks[r], k);
    assert Local(cfg, lg, r, g.ranks[r]);
    LaunchLocal(cfg, lg, r, g.ranks[r], k);
    LaunchNet(cfg, lg, r, k);
    PlusNet(cfg, lg, g.net, LaunchMsgs(cfg, r, k));
    forall c | IsChan(cfg, c) ensures Conserved(cfg, lg, DoStart(cfg, g, r, k), c) {
      assert Conserved(cfg, lg, g, c);
      StartChan(cfg, lg, g, r, k, c);
    }
    OneRank(cfg, lg, g, r, st, Plus(g.net, LaunchMsgs(cfg, r, k)));
  }

  // What a change of rank r's control state and new messages show on channel c.
  lemma PutLook<E(!new)>(cfg: Config<E>, lg: Ledger<E>, g: Global<E>, r: nat, st: Rank<E>, out: Net<E>, k: Key, c: Chan)
    requires r < |g.ranks| && c.src < |g.ranks| && c.dst < |g.ranks|
    requires st.hdrQ == g.ranks[r].hdrQ && st.payQ == g.ranks[r].payQ && st.started == g.ranks[r].started + {k}
    requires forall k' :: IsComm(k') ==> (k' in st.fin <==> k' in g.ranks[r].fin)
    requires out.pays == multiset{} && out.acks == multiset{}
    ensures var l, l' := LookAt(cfg, lg, g, c), LookAt(cfg, lg, Put(g, r, st, Plus(g.net, out)), c);
            l' == Look(l.hdr + out.hdrs[c], l.req + out.reqs[c], l.pay, l.ack,
                       l.sendOn || (k == SendKey(c) && r == c.src), l.sent,
                       l.recvOn || (k == RecvKey(c) && r == c.dst), l.recvd)
  {
    assert IsComm(SendKey(c)) && IsComm(RecvKey(c));
  }

  lemma LaunchCounts<E(!new)>(cfg: Config<E>, r: nat, k: Key, c: Chan)
    requires Basic(cfg) && r < cfg.n && k in cfg.dag[r].acts && IsChan(cfg, c)
    ensures var out := LaunchMsgs(cfg, r, k);
            var mine := IsComm(k) && c == ChanOf(r, k);
            && out.reqs[c] == B(mine && k.kind == Send && EagerChan(cfg, c))
            && out.hdrs[c] == B(mine && !EagerChan(cfg, c) && (cfg.useGet <==> k.kind == Send))
  {
    KeyKind(cfg, r, k);
    if IsComm(k) { KeyChan(cfg, r, k); }
  }

  lemma LaunchShape<E(!new)>(cfg: Config<E>, r: nat, st: Rank<E>, k: Key)
    requires Shaped(cfg) && r < cfg.n && k in cfg.dag[r].acts
    ensures var st', out := Launch(cfg, r, st, k), LaunchMsgs(cfg, r, k);
            && st'.hdrQ == st.hdrQ && st'.payQ == st.payQ && st'.started == st.started + {k}
            && (forall k' :: IsComm(k') ==> (k' in st'.fin <==> k' in st.fin))
            && out.pays == multiset{} && out.acks == multiset{}
  {
    KeyKind(cfg, r, k);
  }

  lemma StartChan<E(!new)>(cfg: Config<E>, lg: Ledger<E>, g: Global<E>, r: nat, k: Key, c: Chan)
    requires Basic(cfg) && |g.ranks| == cfg.n && r < cfg.n && Ready(cfg, r, g.ranks[r], k)
    requires IsChan(cfg, c) && Conserved(cfg, lg, g, c)
    ensures Conserved(cfg, lg, DoStart(cfg, g, r, k), c)
  {
    hide Matched, Launch, LaunchMsgs, LookAt;
    ChanEnds(cfg, c);
    LaunchShape(cfg, r, g.ranks[r], k);
    PutLook(cfg, lg, g, r, Launch(cfg, r, g.ranks[r], k), LaunchMsgs(cfg, r, k), k, c);
    LaunchCounts(cfg, r, k, c);
    NotOn(cfg, lg, g, r, k, c);
  }

  lemma NotOn<E(!new)>(cfg: Config<E>, lg: Ledger<E>, g: Global<E>, r: nat, k: Key, c: Chan)
    requires r < |g.ranks| && c.src < |g.ranks| && c.dst < |g.ranks| && k !in g.ranks[r].started
    ensures k == SendKey(c) && r == c.src ==> !LookAt(cfg, lg, g, c).sendOn
    ensures k == RecvKey(c) && r == c.dst ==> !LookAt(cfg, lg, g, c).recvOn
  {
  }

  // ---------- rendezvous headers ----------

  lemma NetHdrLook<E(!new)>(cfg: Config<E>, lg: Ledger<E>, g: Global<E>, c0: Chan, c: Chan)
    requires HdrHome(cfg, c0) < |g.ranks| && c.src < |g.ranks| && c.dst < |g.ranks| && c0 in g.net.hdrs
    ensures var l, l' := LookAt(cfg, lg, g, c), LookAt(cfg, lg, DoNetHdr(cfg, g, c0), c);
            l' == if c == c0 && Active(g.ranks[HdrHome(cfg, c0)], HdrKey(cfg, c0))
                  then l.(hdr := l.hdr - 1, req := l.req + 1) else l
  {
  }

  lemma HeldHdrLook<E(!new)>(cfg: Config<E>, lg: Ledger<E>, g: Global<E>, c0: Chan, c: Chan)
    requires HdrHome(cfg, c0) < |g.ranks| && c.src < |g.ranks| && c.dst < |g.ranks|
    requires c0 in g.ranks[HdrHome(cfg, c0)].hdrQ && Active(g.ranks[HdrHome(cfg, c0)], HdrKey(cfg, c0))
    ensures var l, l' := LookAt(cfg, lg, g, c), LookAt(cfg, lg, DoHeldHdr(cfg, g, c0), c);
            l' == if c == c0 then l.(hdr := l.hdr - 1, req := l.req + 1) else l
  {
    hide DoHeldHdr, Active, SendKey, RecvKey, HdrKey;
    HeldHdrIs(cfg, g, c0);
  }

  lemma HeldHdrIs<E(!new)>(cfg: Config<E>, g: Global<E>, c0: Chan)
    requires HdrHome(cfg, c0) < |g.ranks| && Active(g.ranks[HdrHome(cfg, c0)], HdrKey(cfg, c0))
    ensures var st := g.ranks[HdrHome(cfg, c0)];
            DoHeldHdr(cfg, g, c0)
            == Put(g, HdrHome(cfg, c0), st.(hdrQ := st.hdrQ - multiset{c0}), g.net.(reqs := g.net.reqs + multiset{c0}))
  {
  }

  lemma HdrRank<E(!new)>(cfg: Config<E>, lg: Ledger<E>, r: nat, st: Rank<E>, c: Chan)
    requires Basic(cfg) && r < cfg.n && Local(cfg, lg, r, st) && IsChan(cfg, c) && HdrHome(cfg, c) == r
    ensures Local(cfg, lg, r, HandleHdr(cfg, st, c)) && NetOk(cfg, lg, HdrMsgs(cfg, st, c))
  {
  }

  // The engine finds the other side started when it acts on a header.
  lemma HdrChan<E(!new)>(cfg: Config<E>, lg: Ledger<E>, g: Global<E>, g': Global<E>, c0: Chan, c: Chan)
    requires Basic(cfg) && |g.ranks| == cfg.n == |g'.ranks| && IsChan(cfg, c0) && IsChan(cfg, c)
    requires Conserved(cfg, lg, g, c)
    requires var l, l' := LookAt(cfg, lg, g, c), LookAt(cfg, lg, g', c);
             l' == l || (c == c0 && l.hdr > 0 && l' == l.(hdr := l.hdr - 1, req := l.req + 1)
                         && Active(g.ranks[HdrHome(cfg, c0)], HdrKey(cfg, c0)))
    ensures Conserved(cfg, lg, g', c)
  {
  }

  lemma NetHdrControl<E(!new)>(cfg: Config<E>, lg: Ledger<E>, g: Global<E>, c0: Chan)
    requires Basic(cfg) && Control(cfg, lg, g) && c0 in g.net.hdrs
    ensures HdrHome(cfg, c0) < cfg.n && Control(cfg, lg, DoNetHdr(cfg, g, c0))
  {
    ChanEnds(cfg, c0);
    var r := HdrHome(cfg, c0);
    assert Local(cfg, lg, r, g.ranks[r]);
    HdrRank(cfg, lg, r, g.ranks[r], c0);
    var rest := g.net.(hdrs := g.net.hdrs - multiset{c0});
    PlusNet(cfg, lg, rest, HdrMsgs(cfg, g.ranks[r], c0));
    forall c | IsChan(cfg, c) ensures Conserved(cfg, lg, DoNetHdr(cfg, g, c0), c) {
      ChanEnds(cfg, c);
      assert Conserved(cfg, lg, g, c);
      NetHdrLook(cfg, lg, g, c0, c);
      HdrChan(cfg, lg, g, DoNetHdr(cfg, g, c0), c0, c);
    }
    OneRank(cfg, lg, g, r, HandleHdr(cfg, g.ranks[r], c0), Plus(rest, HdrMsgs(cfg, g.ranks[r], c0)));
  }

  lemma HeldHdrControl<E(!new)>(cfg: Config<E>, lg: Ledger<E>, g: Global<E>, c0: Chan)
    requires Basic(cfg) && Control(cfg, lg, g) && HdrHome(cfg, c0) < cfg.n
    requires c0 in g.ranks[HdrHome(cfg, c0)].hdrQ && Active(g.ranks[HdrHome(cfg, c0)], HdrKey(cfg, c0))
    ensures Control(cfg, lg, DoHeldHdr(cfg, g, c0))
  {
    var r := HdrHome(cfg, c0);
    assert Local(cfg, lg, r, g.ranks[r]);
    var st := g.ranks[r].(hdrQ := g.ranks[r].hdrQ - multiset{c0});
    assert Local(cfg, lg, r, st);
    HdrRank(cfg, lg, r, st, c0);
    PlusNet(cfg, lg, g.net, HdrMsgs(cfg, st, c0));
    forall c | IsChan(cfg, c) ensures Conserved(cfg, lg, DoHeldHdr(cfg, g, c0), c) {
      ChanEnds(cfg, c);
      assert Conserved(cfg, lg, g, c);
      HeldHdrLook(cfg, lg, g, c0, c);
      HdrChan(cfg, lg, g, DoHeldHdr(cfg, g, c0), c0, c);
    }
    OneRank(cfg, lg, g, r, HandleHdr(cfg, st, c0), Plus(g.net, HdrMsgs(cfg, st, c0)));
  }

  // ---------- payloads ----------

  lemma ReleaseChan<E(!new)>(cfg: Config<E>, lg: Ledger<E>, g: Global<E>, c0: Chan, c: Chan)
    requires Basic(cfg) && |g.ranks| == cfg.n && IsChan(cfg, c0) && IsChan(cfg, c) && c0 in g.net.reqs
    requires EntryOk(cfg, lg, c0) && EntryOk(cfg, lg, c) && Conserved(cfg, lg, g, c)
    ensures Conserved(cfg, lg, DoRelease(g, c0, lg(c0)), c)
  {
    ChanEnds(cfg, c);
    ReleaseLook(cfg, lg, g, c0, c);
  }

  lemma ReleaseNet<E(!new)>(cfg: Config<E>, lg: Ledger<E>, g: Global<E>, c0: Chan)
    requires Basic(cfg) && IsChan(cfg, c0) && EntryOk(cfg, lg, c0) && NetOk(cfg, lg, g.net)
    ensures NetOk(cfg, lg, DoRelease(g, c0, lg(c0)).net)
  {
  }

  lemma ReleaseControl<E(!new)>(cfg: Config<E>, lg: Ledger<E>, g: Global<E>, c0: Chan)
    requires Basic(cfg) && LedgerOk(cfg, lg) && Control(cfg, lg, g) && c0 in g.net.reqs
    ensures Control(cfg, lg, DoRelease(g, c0, lg(c0)))
  {
    assert EntryOk(cfg, lg, c0);
    var g' := DoRelease(g, c0, lg(c0));
    forall r: nat | r < cfg.n ensures Local(cfg, lg, r, g'.ranks[r]) {
      assert Local(cfg, lg, r, g.ranks[r]);
    }
    ReleaseNet(cfg, lg, g, c0);
    forall c | IsChan(cfg, c) ensures Conserved(cfg, lg, g', c) {
      assert Conserved(cfg, lg, g, c);
      assert EntryOk(cfg, lg, c);
      ReleaseChan(cfg, lg, g, c0, c);
    }
  }

  lemma ReleaseLook<E(!new)>(cfg: Config<E>, lg: Ledger<E>, g: Global<E>, c0: Chan, c: Chan)
    requires c.src < |g.ranks| && c.dst < |g.ranks| && c0 in g.net.reqs && lg(c0).chan == c0 && lg(c).chan == c
    ensures var l, l' := LookAt(cfg, lg, g, c), LookAt(cfg, lg, DoRelease(g, c0, lg(c0)), c);
            l' == if c == c0 then l.(req := l.req - 1, pay := l.pay + 1, ack := l.ack + 1) else l
  {
    assert c != c0 ==> lg(c) != lg(c0);
  }

  // A payload that has not been processed finds its receive unfinished; an
  // RDMA payload finds it active.
  lemma PayFacts<E(!new)>(cfg: Config<E>, lg: Ledger<E>, g: Global<E>, p: Pay<E>)
    requires Basic(cfg) && LedgerOk(cfg, lg) && Control(cfg, lg, g)
    requires p in g.net.pays || (p.chan.dst < cfg.n && p in g.ranks[p.chan.dst].payQ)
    ensures IsChan(cfg, p.chan) && p == lg(p.chan) && ChanOk(cfg, p.chan) && EntryOk(cfg, lg, p.chan)
    ensures RecvKey(p.chan) !in g.ranks[p.chan.dst].fin
    ensures !p.eager ==> Active(g.ranks[p.chan.dst], RecvKey(p.chan))
    ensures g.net.pays[p] + g.ranks[p.chan.dst].payQ[p] == 1
    ensures |p.data| == RecvAct(cfg, p.chan).nelems
  {
    var c := p.chan;
    if p !in g.net.pays { assert Local(cfg, lg, c.dst, g.ranks[c.dst]); }
    ChanEnds(cfg, c);
    assert Conserved(cfg, lg, g, c) && EntryOk(cfg, lg, c);
    var l := LookAt(cfg, lg, g, c);
    assert l.pay >= 1;
  }

  // Rank p.chan.dst goes to st and the network to net: at most p is moved to the
  // rank, or its receive finished.
  ghost predicate PayMove<E(!new)>(g: Global<E>, p: Pay<E>, st: Rank<E>, net: Net<E>)
    requires p.chan.dst < |g.ranks|
  {
    && net == g.net.(pays := net.pays)
    && st.hdrQ == g.ranks[p.chan.dst].hdrQ && st.started == g.ranks[p.chan.dst].started
    && (forall q :: q != p ==> net.pays[q] == g.net.pays[q] && st.payQ[q] == g.ranks[p.chan.dst].payQ[q])
    && (forall k :: k != RecvKey(p.chan) ==> (k in st.fin <==> k in g.ranks[p.chan.dst].fin))
    && net.pays[p] + st.payQ[p] + B(RecvKey(p.chan) in st.fin) == 1
  }

  // Processing or moving p shows on p's channel only.
  lemma PayLook<E(!new)>(cfg: Config<E>, lg: Ledger<E>, g: Global<E>, p: Pay<E>, st: Rank<E>, net: Net<E>, c: Chan)
    requires p.chan.dst < |g.ranks| && c.src < |g.ranks| && c.dst < |g.ranks|
    requires p == lg(p.chan) && lg(c).chan == c && PayMove(g, p, st, net)
    ensures var l, l' := LookAt(cfg, lg, g, c), LookAt(cfg, lg, Put(g, p.chan.dst, st, net), c);
            l' == if c == p.chan
                  then l.(pay := net.pays[p] + st.payQ[p], recvd := RecvKey(c) in st.fin) else l
  {
    var g' := Put(g, p.chan.dst, st, net);
    assert c.src != p.chan.dst ==> g'.ranks[c.src] == g.ranks[c.src];
    if c != p.chan {
      assert lg(c) != p;
      assert c.dst != p.chan.dst ==> g'.ranks[c.dst] == g.ranks[c.dst];
      assert c.dst == p.chan.dst ==> RecvKey(c) != RecvKey(p.chan);
    }
  }

  lemma PayChan<E(!new)>(cfg: Config<E>, lg: Ledger<E>, g: Global<E>, p: Pay<E>, st: Rank<E>, net: Net<E>, c: Chan)
    requires Basic(cfg) && |g.ranks| == cfg.n && IsChan(cfg, c) && Conserved(cfg, lg, g, c) && EntryOk(cfg, lg, c)
    requires p.chan.dst < cfg.n && p == lg(p.chan) && PayMove(g, p, st, net)
    requires g.net.pays[p] + g.ranks[p.chan.dst].payQ[p] == 1 && RecvKey(p.chan) !in g.ranks[p.chan.dst].fin
    ensures Conserved(cfg, lg, Put(g, p.chan.dst, st, net), c)
  {
    hide Matched;
    ChanEnds(cfg, c);
    PayLook(cfg, lg, g, p, st, net, c);
  }

  lemma PayQueues<E(!new)>(cfg: Config<E>, lg: Ledger<E>, g: Global<E>, p: Pay<E>, st: Rank<E>, net: Net<E>)
    requires Basic(cfg) && |g.ranks| == cfg.n && IsChan(cfg, p.chan) && p.chan.dst < cfg.n && p == lg(p.chan)
    requires PayMove(g, p, st, net) && NetOk(cfg, lg, g.net) && QueuesOk(cfg, lg, p.chan.dst, g.ranks[p.chan.dst])
    ensures NetOk(cfg, lg, net) && QueuesOk(cfg, lg, p.chan.dst, st)
  {
    hide Matched, IsChan;
    assert forall q :: q in net.pays ==> q == p || q in g.net.pays;
    assert forall q :: q in st.payQ ==> q == p || q in g.ranks[p.chan.dst].payQ;
  }

  lemma PayControl<E(!new)>(cfg: Config<E>, lg: Ledger<E>, g: Global<E>, p: Pay<E>, st: Rank<E>, net: Net<E>)
    requires Basic(cfg) && LedgerOk(cfg, lg) && Control(cfg, lg, g) && p.chan.dst < cfg.n
    requires IsChan(cfg, p.chan) && p == lg(p.chan) && RecvKey(p.chan) !in g.ranks[p.chan.dst].fin
    requires g.net.pays[p] + g.ranks[p.chan.dst].payQ[p] == 1
    requires PayMove(g, p, st, net) && RankOk(cfg, p.chan.dst, st)
    ensures Control(cfg, lg, Put(g, p.chan.dst, st, net))
  {
    hide Matched, PayMove, Conserved, RankOk, NetOk, QueuesOk, EntryOk, IsChan;
    var r := p.chan.dst;
    assert Local(cfg, lg, r, g.ranks[r]);
    PayQueues(cfg, lg, g, p, st, net);
    forall c | IsChan(cfg, c) ensures Conserved(cfg, lg, Put(g, r, st, net), c) {
      assert Conserved(cfg, lg, g, c);
      assert EntryOk(cfg, lg, c);
      PayChan(cfg, lg, g, p, st, net, c);
    }
    OneRank(cfg, lg, g, r, st, net);
  }

  // What HandleEager does to the control state, if it meets its receive or not.
  lemma EagerRank<E(!new)>(cfg: Config<E>, lg: Ledger<E>, r: nat, st: Rank<E>, p: Pay<E>)
    requires Basic(cfg) && r < cfg.n && RankOk(cfg, r, st) && IsChan(cfg, p.chan) && r == p.chan.dst
    requires |p.data| == RecvAct(cfg, p.chan).nelems && RecvKey(p.chan) !in st.fin
    ensures var k, st' := RecvKey(p.chan), HandleEager(cfg, r, st, p);
            && RankOk(cfg, r, st') && st'.hdrQ == st.hdrQ && st'.started == st.started
            && st'.fin == (if Active(st, k) then st.fin + {k} else st.fin)
            && st'.payQ == (if Active(st, k) then st.payQ else st.payQ + multiset{p})
  {
  }

  lemma EagerInControl<E(!new)>(cfg: Config<E>, lg: Ledger<E>, g: Global<E>, p: Pay<E>)
    requires Basic(cfg) && LedgerOk(cfg, lg) && Control(cfg, lg, g) && p in g.net.pays && p.chan.dst < cfg.n
    ensures Control(cfg, lg, DoEagerIn(cfg, g, p))
  {
    hide Matched, RankOk, NetOk, QueuesOk, EntryOk, IsChan, HandleEager, Conserved;
    PayFacts(cfg, lg, g, p);
    var r := p.chan.dst;
    assert Local(cfg, lg, r, g.ranks[r]);
    EagerRank(cfg, lg, r, g.ranks[r], p);
    PayControl(cfg, lg, g, p, HandleEager(cfg, r, g.ranks[r], p), g.net.(pays := g.net.pays - multiset{p}));
  }

  lemma HeldEagerControl<E(!new)>(cfg: Config<E>, lg: Ledger<E>, g: Global<E>, p: Pay<E>)
    requires Basic(cfg) && LedgerOk(cfg, lg) && Control(cfg, lg, g)
    requires p.chan.dst < cfg.n && p in g.ranks[p.chan.dst].payQ && Active(g.ranks[p.chan.dst], RecvKey(p.chan))
    ensures Control(cfg, lg, DoHeldEager(cfg, g, p))
  {
    hide Matched, RankOk, NetOk, QueuesOk, EntryOk, IsChan, HandleEager, Conserved;
    PayFacts(cfg, lg, g, p);
    var r := p.chan.dst;
    assert Local(cfg, lg, r, g.ranks[r]);
    var st := g.ranks[r].(payQ := g.ranks[r].payQ - multiset{p});
    KeptRank(cfg, r, g.ranks[r], g.ranks[r].payQ - multiset{p}, g.ranks[r].mem);
    EagerRank(cfg, lg, r, st, p);
    PayControl(cfg, lg, g, p, HandleEager(cfg, r, st, p), g.net);
  }

  lemma LandControl<E(!new)>(cfg: Config<E>, lg: Ledger<E>, g: Global<E>, p: Pay<E>)
    requires Basic(cfg) && LedgerOk(cfg, lg) && Control(cfg, lg, g) && p in g.net.pays
    requires p.chan.dst < cfg.n && RecvKey(p.chan) in cfg.dag[p.chan.dst].acts
    ensures Control(cfg, lg, DoLand(cfg, g, p))
  {
    hide Matched, RankOk, NetOk, QueuesOk, EntryOk, IsChan, Conserved, WriteSpan, LandSpan;
    PayFacts(cfg, lg, g, p);
    var r := p.chan.dst;
    assert Local(cfg, lg, r, g.ranks[r]);
    KeyKind(cfg, r, RecvKey(p.chan));
    var mem := WriteSpan(g.ranks[r].mem, LandSpan(cfg.ptrs[r], cfg.dag[r].acts[RecvKey(p.chan)]), p.data);
    KeptRank(cfg, r, g.ranks[r], g.ranks[r].payQ + multiset{p}, mem);
    var st := g.ranks[r].(payQ := g.ranks[r].payQ + multiset{p}, mem := mem);
    PayControl(cfg, lg, g, p, st, g.net.(pays := g.net.pays - multiset{p}));
  }

  lemma KeptRank<E(!new)>(cfg: Config<E>, r: nat, st: Rank<E>, payQ: multiset<Pay<E>>, mem: Mem<E>)
    requires Basic(cfg) && r < cfg.n && RankOk(cfg, r, st)
    ensures RankOk(cfg, r, st.(payQ := payQ, mem := mem))
  {
  }

  lemma LandedRank<E(!new)>(cfg: Config<E>, r: nat, st: Rank<E>, c: Chan)
    requires Basic(cfg) && r < cfg.n && RankOk(cfg, r, st) && IsChan(cfg, c) && r == c.dst && Active(st, RecvKey(c))
    ensures var st' := HandleLanded(cfg, r, st, c);
            && RankOk(cfg, r, st') && st'.hdrQ == st.hdrQ && st'.started == st.started
            && st'.fin == st.fin + {RecvKey(c)} && st'.payQ == st.payQ
  {
    var _ := RecvAct(cfg, c);
  }

  lemma LandedControl<E(!new)>(cfg: Config<E>, lg: Ledger<E>, g: Global<E>, p: Pay<E>)
    requires Basic(cfg) && LedgerOk(cfg, lg) && Control(cfg, lg, g)
    requires p.chan.dst < cfg.n && p in g.ranks[p.chan.dst].payQ && !p.eager
    ensures Control(cfg, lg, DoLanded(cfg, g, p))
  {
    hide Matched, RankOk, NetOk, QueuesOk, EntryOk, IsChan, Conserved, HandleLanded;
    PayFacts(cfg, lg, g, p);
    var r := p.chan.dst;
    assert Local(cfg, lg, r, g.ranks[r]);
    var st := g.ranks[r].(payQ := g.ranks[r].payQ - multiset{p});
    KeptRank(cfg, r, g.ranks[r], g.ranks[r].payQ - multiset{p}, g.ranks[r].mem);
    LandedRank(cfg, r, st, p.chan);
    PayControl(cfg, lg, g, p, HandleLanded(cfg, r, st, p.chan), g.net);
  }

  // ---------- acknowledgements and completion ----------

  lemma AckInLook<E(!new)>(cfg: Config<E>, lg: Ledger<E>, g: Global<E>, c0: Chan, c: Chan)
    requires c0.src < |g.ranks| && c.src < |g.ranks| && c.dst < |g.ranks| && c0 in g.net.acks
    requires Active(g.ranks[c0.src], SendKey(c0))
    ensures var l, l' := LookAt(cfg, lg, g, c), LookAt(cfg, lg, DoAckIn(g, c0), c);
            l' == if c == c0 then l.(ack := l.ack - 1, sent := true) else l
  {
  }

  lemma AckInControl<E(!new)>(cfg: Config<E>, lg: Ledger<E>, g: Global<E>, c0: Chan)
    requires Basic(cfg) && Control(cfg, lg, g) && c0 in g.net.acks
    ensures c0.src < cfg.n && Control(cfg, lg, DoAckIn(g, c0))
  {
    ChanEnds(cfg, c0);
    var r := c0.src;
    assert Local(cfg, lg, r, g.ranks[r]);
    assert Conserved(cfg, lg, g, c0);
    assert LookAt(cfg, lg, g, c0).ack >= 1;
    assert Active(g.ranks[r], SendKey(c0));
    var st := HandleAck(g.ranks[r], c0);
    FinishedRank(cfg, lg, r, g.ranks[r], SendKey(c0), g.ranks[r].mem);
    var net := g.net.(acks := g.net.acks - multiset{c0});
    forall c | IsChan(cfg, c) ensures Conserved(cfg, lg, DoAckIn(g, c0), c) {
      ChanEnds(cfg, c);
      assert Conserved(cfg, lg, g, c);
      AckInLook(cfg, lg, g, c0, c);
    }
    OneRank(cfg, lg, g, r, st, net);
  }

  lemma DoneControl<E(!new)>(cfg: Config<E>, lg: Ledger<E>, g: Global<E>, r: nat)
    requires Basic(cfg) && Control(cfg, lg, g) && r < cfg.n && CanFinish(cfg, r, g.ranks[r])
    ensures Control(cfg, lg, Put(g, r, Finish(cfg, r, g.ranks[r]), g.net))
  {
    hide Matched, Local, NetOk, Conserved, Finish;
    var st := Finish(cfg, r, g.ranks[r]);
    assert Local(cfg, lg, r, g.ranks[r]);
    FinishedLocal(cfg, lg, r, g.ranks[r]);
    forall c | IsChan(cfg, c) ensures Conserved(cfg, lg, Put(g, r, st, g.net), c) {
      assert Conserved(cfg, lg, g, c);
      FinishedChan(cfg, lg, g, r, c);
    }
    OneRank(cfg, lg, g, r, st, g.net);
  }

  lemma FinishedLocal<E(!new)>(cfg: Config<E>, lg: Ledger<E>, r: nat, st: Rank<E>)
    requires Basic(cfg) && r < cfg.n && Local(cfg, lg, r, st) && CanFinish(cfg, r, st)
    ensures Local(cfg, lg, r, Finish(cfg, r, st))
  {
  }

  lemma FinishedChan<E(!new)>(cfg: Config<E>, lg: Ledger<E>, g: Global<E>, r: nat, c: Chan)
    requires Basic(cfg) && |g.ranks| == cfg.n && r < cfg.n && IsChan(cfg, c) && Conserved(cfg, lg, g, c)
    ensures Conserved(cfg, lg, Put(g, r, Finish(cfg, r, g.ranks[r]), g.net), c)
  {
    hide Matched, Balanced;
    ChanEnds(cfg, c);
    assert LookAt(cfg, lg, Put(g, r, Finish(cfg, r, g.ranks[r]), g.net), c) == LookAt(cfg, lg, g, c);
  }
}
