// Message conservation for any matched family of DAGs, race free or not: in
// every run each message is consumed exactly once and no abort is reached.
module Conservation {
  import opened Actions
  import opened Protocol
  import opened Schedule
  import opened Invariant
  import opened ControlSteps

  // ---------- a ledger for every run ----------

  // Without race freedom the payload of a channel is whatever the sender's NIC
  // finds.  It is entered when it is read; before that the channel carries none.
  ghost function Entered<E(!new)>(lg: Ledger<E>, p: Pay<E>): Ledger<E> { (c: Chan) => if c == p.chan then p else lg(c) }

  lemma NoPayYet<E(!new)>(cfg: Config<E>, lg: Ledger<E>, g: Global<E>, c: Chan, q: Pay<E>)
    requires Basic(cfg) && Control(cfg, lg, g) && IsChan(cfg, c) && c in g.net.reqs && q.chan == c
    ensures ChanOk(cfg, c) && q !in g.net.pays && q !in g.ranks[c.dst].payQ
  {
    hide Matched, RankOk;
    ChanEnds(cfg, c);
    assert Conserved(cfg, lg, g, c);
    assert LookAt(cfg, lg, g, c).req >= 1;
    assert Local(cfg, lg, c.dst, g.ranks[c.dst]);
  }

  lemma Reentered<E(!new)>(cfg: Config<E>, lg: Ledger<E>, g: Global<E>, p: Pay<E>, c: Chan)
    requires Basic(cfg) && Control(cfg, lg, g) && IsChan(cfg, p.chan) && p.chan in g.net.reqs && IsChan(cfg, c)
    requires lg(p.chan).chan == p.chan
    ensures Conserved(cfg, Entered(lg, p), g, c)
  {
    hide Matched, RankOk, NetOk, QueuesOk;
    ChanEnds(cfg, c);
    assert Conserved(cfg, lg, g, c);
    if c == p.chan {
      NoPayYet(cfg, lg, g, c, p);
      NoPayYet(cfg, lg, g, c, lg(c));
    }
    assert LookAt(cfg, Entered(lg, p), g, c) == LookAt(cfg, lg, g, c);
  }

  lemma ReenteredRank<E(!new)>(cfg: Config<E>, lg: Ledger<E>, g: Global<E>, p: Pay<E>, r: nat)
    requires Basic(cfg) && Control(cfg, lg, g) && IsChan(cfg, p.chan) && p.chan in g.net.reqs && r < cfg.n
    ensures Local(cfg, Entered(lg, p), r, g.ranks[r])
  {
    hide Matched, RankOk, Conserved;
    assert Local(cfg, lg, r, g.ranks[r]);
    forall q | q in g.ranks[r].payQ ensures q.chan != p.chan {
      if q.chan == p.chan { NoPayYet(cfg, lg, g, p.chan, q); }
    }
  }

  lemma ReenteredNet<E(!new)>(cfg: Config<E>, lg: Ledger<E>, g: Global<E>, p: Pay<E>)
    requires Basic(cfg) && Control(cfg, lg, g) && IsChan(cfg, p.chan) && p.chan in g.net.reqs
    ensures NetOk(cfg, Entered(lg, p), g.net)
  {
    hide Matched, Local, Conserved;
    forall q | q in g.net.pays ensures q.chan != p.chan {
      if q.chan == p.chan { NoPayYet(cfg, lg, g, p.chan, q); }
    }
  }

  lemma ReleaseAny<E(!new)>(cfg: Config<E>, lg: Ledger<E>, g: Global<E>, c: Chan)
    requires Basic(cfg) && LedgerOk(cfg, lg) && Control(cfg, lg, g) && Enabled(cfg, g, Release(c))
    ensures LedgerOk(cfg, Entered(lg, Injected(cfg, g, c))) && Control(cfg, Entered(lg, Injected(cfg, g, c)), Do(cfg, g, Release(c)))
  {
    hide Matched, Local, Conserved, NetOk;
    var p := Injected(cfg, g, c);
    var lg' := Entered(lg, p);
    InjectedOk(cfg, lg, g, c);
    assert EntryOk(cfg, lg, c);
    forall r: nat | r < cfg.n ensures Local(cfg, lg', r, g.ranks[r]) { ReenteredRank(cfg, lg, g, p, r); }
    ReenteredNet(cfg, lg, g, p);
    forall d | IsChan(cfg, d) ensures Conserved(cfg, lg', g, d) { Reentered(cfg, lg, g, p, d); }
    ReleaseControl(cfg, lg', g, c);
  }

  lemma InjectedOk<E(!new)>(cfg: Config<E>, lg: Ledger<E>, g: Global<E>, c: Chan)
    requires Basic(cfg) && LedgerOk(cfg, lg) && |g.ranks| == cfg.n && Enabled(cfg, g, Release(c)) && NetOk(cfg, lg, g.net)
    ensures IsChan(cfg, c) && c in g.net.reqs && Injected(cfg, g, c).chan == c && LedgerOk(cfg, Entered(lg, Injected(cfg, g, c)))
  {
    var lg' := Entered(lg, Injected(cfg, g, c));
    forall d | IsChan(cfg, d) ensures EntryOk(cfg, lg', d) { assert EntryOk(cfg, lg, d); }
  }

  // Every step keeps conservation, for the ledger of the run.
  lemma StepControl<E(!new)>(cfg: Config<E>, lg: Ledger<E>, g: Global<E>, s: Step<E>) returns (lg': Ledger<E>)
    requires Basic(cfg) && LedgerOk(cfg, lg) && Control(cfg, lg, g) && Enabled(cfg, g, s)
    ensures LedgerOk(cfg, lg') && Control(cfg, lg', Do(cfg, g, s))
  {
    hide Matched, Local, Conserved, NetOk, EntryOk, Entered;
    hide LaunchMsgs, Launch, HandleEager, HandleHdr, HdrMsgs, HandleLanded, HandleAck;
    lg' := lg;
    match s {
      case Begin(r) => BeginControl(cfg, lg, g, r);
      case Start(r, k) => StartControl(cfg, lg, g, r, k);
      case NetHdr(c) => NetHdrControl(cfg, lg, g, c);
      case HeldHdr(c) => HeldHdrControl(cfg, lg, g, c);
      case Release(c) =>
        ReleaseAny(cfg, lg, g, c);
        lg' := Entered(lg, Injected(cfg, g, c));
      case EagerIn(p) => EagerInControl(cfg, lg, g, p);
      case HeldEager(p) => HeldEagerControl(cfg, lg, g, p);
      case Land(p) => LandControl(cfg, lg, g, p);
      case Landed(p) => LandedControl(cfg, lg, g, p);
      case AckIn(c) => AckInControl(cfg, lg, g, c);
      case Done(r) => DoneControl(cfg, lg, g, r);
    }
  }

  ghost function SomeLedger<E(!new)>(cfg: Config<E>): (lg: Ledger<E>)
    requires Basic(cfg)
    ensures LedgerOk(cfg, lg)
  {
    Expected(cfg)
  }

  lemma {:induction false} RunControl<E(!new)>(cfg: Config<E>, steps: seq<Step<E>>) returns (lg: Ledger<E>)
    requires Basic(cfg) && IsRun(cfg, steps)
    ensures LedgerOk(cfg, lg) && Control(cfg, lg, After(cfg, steps))
    decreases |steps|
  {
    hide Matched, Local, Conserved, NetOk, EntryOk, Do, Enabled, Control, Expected;
    if steps == [] {
      lg := SomeLedger(cfg);
      InitControl(cfg, lg);
    } else {
      var before := RunControl(cfg, steps[..|steps| - 1]);
      lg := StepControl(cfg, before, After(cfg, steps[..|steps| - 1]), steps[|steps| - 1]);
    }
  }

  // ---------- consequences ----------

  // No run of a matched family reaches an abort or throw of the engine, and no
  // rank completes before all its actions are finished.
  lemma NoAbort<E(!new)>(cfg: Config<E>, steps: seq<Step<E>>, r: nat)
    requires Basic(cfg) && IsRun(cfg, steps) && r < cfg.n
    ensures var st := After(cfg, steps).ranks[r];
            !st.fault && (st.complete ==> cfg.dag[r].acts != map[] && forall k :: k in cfg.dag[r].acts <==> k in st.fin)
  {
    hide Matched, Conserved, NetOk;
    var lg := RunControl(cfg, steps);
    assert Local(cfg, lg, r, After(cfg, steps).ranks[r]);
  }

  // What a finished send or receive leaves in its channel: nothing.
  lemma FinishedChannel<E(!new)>(cfg: Config<E>, lg: Ledger<E>, g: Global<E>, c: Chan)
    requires Basic(cfg) && Control(cfg, lg, g) && IsChan(cfg, c)
    ensures ChanOk(cfg, c)
    ensures RecvKey(c) in g.ranks[c.dst].fin ==>
              c !in g.net.hdrs && c !in g.net.reqs && lg(c) !in g.net.pays
              && lg(c) !in g.ranks[c.dst].payQ && c !in g.ranks[HdrHome(cfg, c)].hdrQ
    ensures SendKey(c) in g.ranks[c.src].fin ==>
              c !in g.net.hdrs && c !in g.net.reqs && c !in g.net.acks && c !in g.ranks[HdrHome(cfg, c)].hdrQ
  {
    hide Local, Matched, NetOk;
    ChanEnds(cfg, c);
    assert Conserved(cfg, lg, g, c);
    var l := LookAt(cfg, lg, g, c);
    assert l.hdr >= g.net.hdrs[c] && l.hdr >= g.ranks[HdrHome(cfg, c)].hdrQ[c];
  }

  // Once a rank has completed, it keeps no message and none is on its way to it.
  lemma CompleteIsQuiet<E(!new)>(cfg: Config<E>, steps: seq<Step<E>>, r: nat)
    requires Basic(cfg) && IsRun(cfg, steps) && r < cfg.n && After(cfg, steps).ranks[r].complete
    ensures var g := After(cfg, steps);
            && g.ranks[r].hdrQ == multiset{} && g.ranks[r].payQ == multiset{}
            && (forall c :: c in g.net.hdrs ==> HdrHome(cfg, c) != r)
            && (forall c :: c in g.net.reqs ==> c.src != r && c.dst != r)
            && (forall p :: p in g.net.pays ==> p.chan.dst != r)
            && (forall c :: c in g.net.acks ==> c.src != r)
  {
    hide Matched, Conserved, NetOk, Local, Control;
    var lg := RunControl(cfg, steps);
    NoAbort(cfg, steps, r);
    QuietRank(cfg, lg, After(cfg, steps), r);
  }

  lemma QuietRank<E(!new)>(cfg: Config<E>, lg: Ledger<E>, g: Global<E>, r: nat)
    requires Basic(cfg) && Control(cfg, lg, g) && r < cfg.n && forall k :: k in cfg.dag[r].acts <==> k in g.ranks[r].fin
    ensures g.ranks[r].hdrQ == multiset{} && g.ranks[r].payQ == multiset{}
    ensures forall c :: c in g.net.hdrs ==> HdrHome(cfg, c) != r
    ensures forall c :: c in g.net.reqs ==> c.src != r && c.dst != r
    ensures forall p :: p in g.net.pays ==> p.chan.dst != r
    ensures forall c :: c in g.net.acks ==> c.src != r
  {
    hide Matched, Conserved, RankOk;
    assert Local(cfg, lg, r, g.ranks[r]);
    forall c | IsChan(cfg, c) && (c.src == r || c.dst == r)
      ensures c.dst == r ==> c !in g.net.reqs && lg(c) !in g.net.pays && lg(c) !in g.ranks[r].payQ
      ensures HdrHome(cfg, c) == r ==> c !in g.net.hdrs && c !in g.ranks[r].hdrQ
      ensures c.src == r ==> c !in g.net.reqs && c !in g.net.acks
    {
      FinishedChannel(cfg, lg, g, c);
    }
    assert forall c :: c !in g.ranks[r].hdrQ;
    assert forall p :: p !in g.ranks[r].payQ;
  }

  // Acknowledgements and RDMA payloads are for ranks that have started.
  lemma EndsBegun<E(!new)>(cfg: Config<E>, lg: Ledger<E>, g: Global<E>, c: Chan)
    requires Basic(cfg) && Control(cfg, lg, g) && c in g.net.acks
    ensures c.src < cfg.n && g.ranks[c.src].begun
  {
    hide Matched, QueuesOk;
    ChanEnds(cfg, c);
    assert Conserved(cfg, lg, g, c);
    assert LookAt(cfg, lg, g, c).ack >= 1;
    assert Local(cfg, lg, c.src, g.ranks[c.src]);
  }

  lemma PayBegun<E(!new)>(cfg: Config<E>, lg: Ledger<E>, g: Global<E>, p: Pay<E>)
    requires Basic(cfg) && LedgerOk(cfg, lg) && Control(cfg, lg, g) && p in g.net.pays && !p.eager
    ensures p.chan.dst < cfg.n && g.ranks[p.chan.dst].begun
  {
    hide Matched, QueuesOk;
    var c := p.chan;
    ChanEnds(cfg, c);
    assert EntryOk(cfg, lg, c);
    assert Conserved(cfg, lg, g, c);
    assert LookAt(cfg, lg, g, c).pay >= 1;
    assert Local(cfg, lg, c.dst, g.ranks[c.dst]);
  }
}
