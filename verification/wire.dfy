// Which protocol a message is carried by shows in what is first on its channel.
module WireProtocols {
  import opened Actions
  import opened Protocol
  import opened Schedule
  import opened Invariant
  import opened ControlSteps
  import opened Conservation

  // Headers for channel c, in flight or kept.
  ghost function HeadersOn<E(!new)>(cfg: Config<E>, g: Global<E>, c: Chan): nat
    requires c.src < |g.ranks| && c.dst < |g.ranks|
  {
    g.net.hdrs[c] + g.ranks[HdrHome(cfg, c)].hdrQ[c]
  }

  // The data of channel c has been posted and has not been received: its transfer
  // waits for the NIC, or its payload is on the way or waits at the receiver.
  ghost predicate DataOn<E(!new)>(g: Global<E>, c: Chan)
    requires c.dst < |g.ranks|
  {
    c in g.net.reqs || exists p: Pay<E> :: p.chan == c && (p in g.net.pays || p in g.ranks[c.dst].payQ)
  }

  // In every run: an eager channel never has a header, and its data is posted when
  // the send starts.  Otherwise no data moves before both ends have started, and
  // the first end to start has sent a header if it is the sender under get or the
  // receiver under put.
  lemma FirstMessage<E(!new)>(cfg: Config<E>, steps: seq<Step<E>>, c: Chan)
    requires Basic(cfg) && IsRun(cfg, steps) && IsChan(cfg, c)
    ensures c.src < cfg.n && c.dst < cfg.n
    ensures var g, eager := After(cfg, steps), cfg.useEager(SendAct(cfg, c).nelems);
            var sent, ready := SendKey(c) in g.ranks[c.src].started, RecvKey(c) in g.ranks[c.dst].started;
            && (eager ==> HeadersOn(cfg, g, c) == 0 && (DataOn(g, c) <==> sent && RecvKey(c) !in g.ranks[c.dst].fin))
            && (!eager && DataOn(g, c) ==> sent && ready)
            && (!eager && sent && !ready ==> HeadersOn(cfg, g, c) == if cfg.useGet then 1 else 0)
            && (!eager && ready && !sent ==> HeadersOn(cfg, g, c) == if cfg.useGet then 0 else 1)
            && (!eager && !ready && !sent ==> HeadersOn(cfg, g, c) == 0)
  {
    hide Matched, IsRun, After, LedgerOk, Shaped, RankOk;
    var lg := RunControl(cfg, steps);
    var g := After(cfg, steps);
    ChanEnds(cfg, c);
    assert Conserved(cfg, lg, g, c);
    DataIs(cfg, lg, g, c);
    Received(cfg, lg, g, c);
  }

  lemma DataIs<E(!new)>(cfg: Config<E>, lg: Ledger<E>, g: Global<E>, c: Chan)
    requires Basic(cfg) && LedgerOk(cfg, lg) && Control(cfg, lg, g) && IsChan(cfg, c) && ChanOk(cfg, c)
    ensures DataOn(g, c) <==> LookAt(cfg, lg, g, c).req + LookAt(cfg, lg, g, c).pay > 0
  {
    hide Matched, RankOk, Conserved, Shaped;
    assert EntryOk(cfg, lg, c);
    assert Local(cfg, lg, c.dst, g.ranks[c.dst]);
    if lg(c) in g.net.pays || lg(c) in g.ranks[c.dst].payQ { assert DataOn(g, c); }
  }

  lemma Received<E(!new)>(cfg: Config<E>, lg: Ledger<E>, g: Global<E>, c: Chan)
    requires Basic(cfg) && Control(cfg, lg, g) && IsChan(cfg, c) && ChanOk(cfg, c)
    ensures SendKey(c) in g.ranks[c.src].fin ==> SendKey(c) in g.ranks[c.src].started
    ensures RecvKey(c) in g.ranks[c.dst].fin ==> RecvKey(c) in g.ranks[c.dst].started
  {
    assert Local(cfg, lg, c.src, g.ranks[c.src]) && Local(cfg, lg, c.dst, g.ranks[c.dst]);
  }

  // Both choices can be told from what is seen on a channel.
  lemma ProtocolShows<E(!new)>(cfg: Config<E>, steps: seq<Step<E>>, c: Chan)
    requires Basic(cfg) && IsRun(cfg, steps) && IsChan(cfg, c)
    ensures c.src < cfg.n && c.dst < cfg.n
    ensures var g := After(cfg, steps);
            SendKey(c) in g.ranks[c.src].started && RecvKey(c) !in g.ranks[c.dst].started ==>
              && (DataOn(g, c) <==> cfg.useEager(SendAct(cfg, c).nelems))
              && (HeadersOn(cfg, g, c) == 1 <==> !cfg.useEager(SendAct(cfg, c).nelems) && cfg.useGet)
    ensures var g := After(cfg, steps);
            RecvKey(c) in g.ranks[c.dst].started && SendKey(c) !in g.ranks[c.src].started ==>
              && !DataOn(g, c)
              && (HeadersOn(cfg, g, c) == 1 <==> !cfg.useEager(SendAct(cfg, c).nelems) && !cfg.useGet)
  {
    hide Matched, IsRun, After, Shaped, RankOk, DataOn, HeadersOn;
    FirstMessage(cfg, steps, c);
    var lg := RunControl(cfg, steps);
    ChanEnds(cfg, c);
    Received(cfg, lg, After(cfg, steps), c);
  }

  // ---------- posted at once ----------

  // The send has not finished, and no acknowledgement for it is on the way.
  ghost predicate Unread<E(!new)>(g: Global<E>, c: Chan)
    requires c.src < |g.ranks|
  {
    c !in g.net.acks && SendKey(c) !in g.ranks[c.src].fin
  }

  // No send is finished in st' that was not finished in st.
  ghost predicate SameSends<E(!new)>(st: Rank<E>, st': Rank<E>) { forall d: Key :: d in st'.fin && d.kind == Send ==> d in st.fin }

  lemma PutUnread<E(!new)>(g: Global<E>, r: nat, st: Rank<E>, net: Net<E>, c: Chan)
    requires c.src < |g.ranks| && r < |g.ranks| && Unread(g, c) && (SameSends(g.ranks[r], st) || SendKey(c) !in st.fin)
    requires c !in net.acks
    ensures Unread(Put(g, r, st, net), c)
  {
  }

  // Steps at one rank on a header, a payload or an acknowledgement.
  lemma HandlingUnread<E(!new)>(cfg: Config<E>, g: Global<E>, s: Step<E>, c: Chan)
    requires Shaped(cfg) && |g.ranks| == cfg.n && c.src < cfg.n && Enabled(cfg, g, s) && Unread(g, c)
    requires s.NetHdr? || s.HeldHdr? || s.EagerIn? || s.HeldEager? || s.Landed? || s.AckIn?
    ensures Unread(Do(cfg, g, s), c)
  {
    hide Shaped, HandleEager, HandleHdr, HandleLanded, HandleAck, HdrMsgs, SameSends, Put;
    match s {
      case NetHdr(d) =>
        var r := HdrHome(cfg, d);
        HeaderApart(cfg, g.ranks[r], d);
        PutUnread(g, r, HandleHdr(cfg, g.ranks[r], d),
                  Plus(g.net.(hdrs := g.net.hdrs - multiset{d}), HdrMsgs(cfg, g.ranks[r], d)), c);
      case HeldHdr(d) =>
        var r := HdrHome(cfg, d);
        var st := g.ranks[r].(hdrQ := g.ranks[r].hdrQ - multiset{d});
        HeaderApart(cfg, st, d);
        SameButQueues(g.ranks[r], st, HandleHdr(cfg, st, d));
        PutUnread(g, r, HandleHdr(cfg, st, d), Plus(g.net, HdrMsgs(cfg, st, d)), c);
      case EagerIn(p) =>
        var r := p.chan.dst;
        EagerApart(cfg, r, g.ranks[r], p);
        PutUnread(g, r, HandleEager(cfg, r, g.ranks[r], p), g.net.(pays := g.net.pays - multiset{p}), c);
      case HeldEager(p) =>
        var r := p.chan.dst;
        var st := g.ranks[r].(payQ := g.ranks[r].payQ - multiset{p});
        EagerApart(cfg, r, st, p);
        SameButQueues(g.ranks[r], st, HandleEager(cfg, r, st, p));
        PutUnread(g, r, HandleEager(cfg, r, st, p), g.net, c);
      case Landed(p) =>
        var r := p.chan.dst;
        var st := g.ranks[r].(payQ := g.ranks[r].payQ - multiset{p});
        LandedApart(cfg, r, st, p.chan);
        SameButQueues(g.ranks[r], st, HandleLanded(cfg, r, st, p.chan));
        PutUnread(g, r, HandleLanded(cfg, r, st, p.chan), g.net, c);
      case AckIn(d) =>
        AckUnread(g, d, c);
    }
  }

  lemma AckUnread<E(!new)>(g: Global<E>, d: Chan, c: Chan)
    requires c.src < |g.ranks| && d.src < |g.ranks| && Unread(g, c) && d in g.net.acks
    ensures Unread(DoAckIn(g, d), c)
  {
    assert d != c;
  }

  lemma SameButQueues<E(!new)>(a: Rank<E>, b: Rank<E>, st: Rank<E>)
    requires a.fin == b.fin && SameSends(b, st)
    ensures SameSends(a, st)
  {
  }

  lemma StaysUnread<E(!new)>(cfg: Config<E>, g: Global<E>, s: Step<E>, c: Chan)
    requires Shaped(cfg) && |g.ranks| == cfg.n && c.src < cfg.n && Enabled(cfg, g, s) && Unread(g, c) && s != Release(c)
    ensures Unread(Do(cfg, g, s), c)
  {
    hide Shaped, Launch, LaunchMsgs, HandleEager, HandleHdr, HandleLanded, HandleAck, HdrMsgs, Injected, WriteSpan;
    match s {
      case Begin(r) => PutUnread(g, r, g.ranks[r].(begun := true), g.net, c);
      case Start(r, k) =>
        StartedApart(cfg, r, g.ranks[r], k);
        PutUnread(g, r, Launch(cfg, r, g.ranks[r], k), Plus(g.net, LaunchMsgs(cfg, r, k)), c);
      case Release(d) =>
      case Land(p) => PutUnread(g, p.chan.dst, DoLand(cfg, g, p).ranks[p.chan.dst], g.net.(pays := g.net.pays - multiset{p}), c);
      case Done(r) => PutUnread(g, r, Finish(cfg, r, g.ranks[r]), g.net, c);
      case _ => HandlingUnread(cfg, g, s, c);
    }
  }

  lemma HeaderApart<E(!new)>(cfg: Config<E>, st: Rank<E>, d: Chan)
    ensures SameSends(st, HandleHdr(cfg, st, d)) && HdrMsgs(cfg, st, d).acks == multiset{}
  {
  }

  lemma EagerApart<E(!new)>(cfg: Config<E>, r: nat, st: Rank<E>, p: Pay<E>)
    requires Shaped(cfg) && r < cfg.n
    ensures SameSends(st, HandleEager(cfg, r, st, p))
  {
    hide RecvMem;
  }

  lemma LandedApart<E(!new)>(cfg: Config<E>, r: nat, st: Rank<E>, d: Chan)
    requires Shaped(cfg) && r < cfg.n
    ensures SameSends(st, HandleLanded(cfg, r, st, d))
  {
    hide RecvMem, ReadSpan;
  }

  // Starting an action finishes no send and posts no acknowledgement.
  lemma StartedApart<E(!new)>(cfg: Config<E>, r: nat, st: Rank<E>, k: Key)
    requires Shaped(cfg) && r < cfg.n && k in cfg.dag[r].acts
    ensures SameSends(st, Launch(cfg, r, st, k))
    ensures LaunchMsgs(cfg, r, k).acks == multiset{}
  {
    assert cfg.dag[r].acts[k].Id() == k;
  }

  // Only the NIC's reading the data leads to an acknowledgement.
  lemma {:induction false} NotInjected<E(!new)>(cfg: Config<E>, steps: seq<Step<E>>, c: Chan)
    requires Shaped(cfg) && IsRun(cfg, steps) && c.src < cfg.n && Step<E>.Release(c) !in steps
    ensures Unread(After(cfg, steps), c)
    decreases |steps|
  {
    hide Shaped, Enabled, Do;
    if steps != [] {
      var front, s := steps[..|steps| - 1], steps[|steps| - 1];
      NotInjected(cfg, front, c);
      assert s in steps;
      StaysUnread(cfg, After(cfg, front), s, c);
    }
  }

  // An eager send that has started, and whose data the NIC has not read, has its
  // transfer posted, whatever the receiver does.
  lemma PostedAtOnce<E(!new)>(cfg: Config<E>, steps: seq<Step<E>>, c: Chan)
    requires Basic(cfg) && IsRun(cfg, steps) && IsChan(cfg, c) && Step<E>.Release(c) !in steps
    ensures c.src < cfg.n
    ensures SendKey(c) in After(cfg, steps).ranks[c.src].started && cfg.useEager(SendAct(cfg, c).nelems) ==>
              c in After(cfg, steps).net.reqs
  {
    hide Matched, IsRun, After, Shaped, RankOk, LedgerOk;
    var lg := RunControl(cfg, steps);
    ChanEnds(cfg, c);
    NotInjected(cfg, steps, c);
    assert Conserved(cfg, lg, After(cfg, steps), c);
  }
}
