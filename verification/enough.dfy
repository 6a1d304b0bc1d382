// While a rank has not completed, some event can happen; and there are events
// after which, whatever the ranks make of them, all have completed.
module EnoughEvents {
  import opened Actions
  import opened Protocol
  import opened Schedule
  import opened Invariant
  import opened LocalSteps
  import opened Engine
  import opened EngineRuns
  import opened ControlSteps
  import opened Conservation
  import opened WaitGraphs
  import opened Liveness
  import opened EarlyMessages
  import opened Scenes
  import Safety

  // ---------- some event can happen ----------

  // Whatever happens on channel c.
  ghost function EventsOf<E(!new)>(cfg: Config<E>, lg: Ledger<E>, c: Chan): seq<Event<E>> {
    [Deliver(HdrHome(cfg, c), HeaderMsg(c)), Deliver(c.dst, EagerMsg(lg(c))), Deliver(c.dst, RdmaMsg(lg(c))),
     Deliver(c.src, AckMsg(c)), Inject(c), Event.Write(lg(c))]
  }

  // An event the schedule provides for.
  ghost predicate Foreseen<E(!new)>(cfg: Config<E>, lg: Ledger<E>, e: Event<E>)
    requires Shaped(cfg)
  {
    (e.Call? && e.r < cfg.n) || exists c :: IsChan(cfg, c) && e in EventsOf(cfg, lg, c)
  }

  // What is kept is for ranks that have not called; the rest is in the network.
  lemma NotKept<E(!new)>(cfg: Config<E>, x: Scene<E>, r: nat, m: Msg<E>)
    requires Shaped(cfg) && Fits(cfg, x) && r in Callers(x.log) && AddressedTo(cfg, r, m) && InNet(After(cfg, x.steps).net, m)
    ensures InNet(x.net, m)
  {
    hide IsRun, After, Total, Shaped, Rests, Outer, Trail, Kept, Plus, InNet;
    if !InNet(x.net, m) {
      InSum(x.net, Total(Kept(cfg.n, x.log)), m);
      var t := InTotal(Kept(cfg.n, x.log), m);
    }
  }

  lemma InSum<E(!new)>(net: Net<E>, kept: Net<E>, m: Msg<E>)
    requires InNet(Plus(net, kept), m) && !InNet(net, m)
    ensures InNet(kept, m)
  {
  }

  lemma RdmaNotKept<E(!new)>(cfg: Config<E>, x: Scene<E>, p: Pay<E>)
    requires Shaped(cfg) && Fits(cfg, x) && p in After(cfg, x.steps).net.pays && !p.eager
    ensures p in x.net.pays
  {
    hide IsRun, After, Total, Shaped, Rests, Outer, Trail, Kept;
    if p !in x.net.pays {
      var t := InTotal(Kept(cfg.n, x.log), EagerMsg(p));
      assert false;
    }
  }

  // Posted transfers are never kept.
  lemma ReqsAre<E(!new)>(cfg: Config<E>, x: Scene<E>, c: Chan)
    requires Shaped(cfg) && Fits(cfg, x)
    ensures c in After(cfg, x.steps).net.reqs <==> c in x.net.reqs
  {
    hide IsRun, After, Total, Shaped, Rests, Outer, Trail, Kept;
    NoReqs(Kept(cfg.n, x.log));
  }

  lemma AtRest<E(!new)>(cfg: Config<E>, x: Scene<E>, r: nat, s: Inner<E>)
    requires Shaped(cfg) && Fits(cfg, x) && r < cfg.n
    ensures !Can(cfg, r, After(cfg, x.steps).ranks[r], s)
  {
    hide IsRun, After, Total, Shaped, Outer, Trail, Kept, Can;
    assert Rests(cfg, x, r);
  }

  lemma HasCalled<E(!new)>(cfg: Config<E>, x: Scene<E>, r: nat)
    requires Shaped(cfg) && Fits(cfg, x) && r < cfg.n
    ensures r in Callers(x.log) <==> After(cfg, x.steps).ranks[r].begun
  {
    hide IsRun, After, Total, Shaped, Outer, Trail, Kept, Can;
    assert Rests(cfg, x, r);
  }

  // A step of the system that is enabled belongs to an event that can happen:
  // ranks at rest have left none of their own undone.
  lemma StepIsEvent<E(!new)>(cfg: Config<E>, lg: Ledger<E>, x: Scene<E>, s: Step<E>) returns (e: Event<E>)
    requires Basic(cfg) && Fits(cfg, x) && LedgerOk(cfg, lg) && Control(cfg, lg, After(cfg, x.steps))
    requires Enabled(cfg, After(cfg, x.steps), s)
    ensures CanHappen(cfg, x, e) && Foreseen(cfg, lg, e)
  {
    hide Matched, IsRun, After, Shaped, Conserved, CanFinish, Ready, Fits, Control, Total, Foreseen, IsChan, LedgerOk;
    FitsRun(cfg, x);
    var g := After(cfg, x.steps);
    e := Call(0);
    match s {
      case Begin(r) =>
        HasCalled(cfg, x, r);
        e := Call(r);
        CallForeseen(cfg, lg, r);
      case Start(r, k) => AtRest(cfg, x, r, Go(k));
      case HeldHdr(c) => AtRest(cfg, x, HdrHome(cfg, c), Hdr(c));
      case HeldEager(p) => AtRest(cfg, x, p.chan.dst, Inner.Eager(p));
      case Done(r) => AtRest(cfg, x, r, End);
      case NetHdr(c) =>
        OnChan(cfg, lg, g, HeaderMsg(c));
        HasCalled(cfg, x, HdrHome(cfg, c));
        NotKept(cfg, x, HdrHome(cfg, c), HeaderMsg(c));
        e := Deliver(HdrHome(cfg, c), HeaderMsg(c));
        OfChan(cfg, lg, c, 0);
      case EagerIn(p) =>
        OnChan(cfg, lg, g, EagerMsg(p));
        HasCalled(cfg, x, p.chan.dst);
        NotKept(cfg, x, p.chan.dst, EagerMsg(p));
        e := Deliver(p.chan.dst, EagerMsg(p));
        OfChan(cfg, lg, p.chan, 1);
      case AckIn(c) =>
        OnChan(cfg, lg, g, AckMsg(c));
        EndsBegun(cfg, lg, g, c);
        HasCalled(cfg, x, c.src);
        NotKept(cfg, x, c.src, AckMsg(c));
        e := Deliver(c.src, AckMsg(c));
        OfChan(cfg, lg, c, 3);
      case Landed(p) =>
        InQueue(cfg, lg, g, p);
        e := Deliver(p.chan.dst, RdmaMsg(p));
        OfChan(cfg, lg, p.chan, 2);
      case Release(c) =>
        ReqsAre(cfg, x, c);
        ReqChan(cfg, lg, g, c);
        e := Inject(c);
        OfChan(cfg, lg, c, 4);
      case Land(p) =>
        OnChan(cfg, lg, g, EagerMsg(p));
        PayBegun(cfg, lg, g, p);
        HasCalled(cfg, x, p.chan.dst);
        RdmaNotKept(cfg, x, p);
        e := Event.Write(p);
        OfChan(cfg, lg, p.chan, 5);
    }
  }

  lemma CallForeseen<E(!new)>(cfg: Config<E>, lg: Ledger<E>, r: nat)
    requires Shaped(cfg) && r < cfg.n
    ensures Foreseen(cfg, lg, Call(r))
  {
  }

  lemma OfChan<E(!new)>(cfg: Config<E>, lg: Ledger<E>, c: Chan, i: nat)
    requires Shaped(cfg) && IsChan(cfg, c) && i < 6
    ensures Foreseen(cfg, lg, EventsOf(cfg, lg, c)[i])
  {
    assert EventsOf(cfg, lg, c)[i] in EventsOf(cfg, lg, c);
  }

  lemma OnChan<E(!new)>(cfg: Config<E>, lg: Ledger<E>, g: Global<E>, m: Msg<E>)
    requires Basic(cfg) && Control(cfg, lg, g) && InNet(g.net, m)
    ensures m.EagerMsg? ==> IsChan(cfg, m.p.chan) && m.p == lg(m.p.chan)
    ensures m.HeaderMsg? || m.AckMsg? ==> IsChan(cfg, m.c)
  {
  }

  lemma ReqChan<E(!new)>(cfg: Config<E>, lg: Ledger<E>, g: Global<E>, c: Chan)
    requires Basic(cfg) && Control(cfg, lg, g) && c in g.net.reqs
    ensures IsChan(cfg, c)
  {
  }

  lemma InQueue<E(!new)>(cfg: Config<E>, lg: Ledger<E>, g: Global<E>, p: Pay<E>)
    requires Basic(cfg) && Control(cfg, lg, g) && p.chan.dst < cfg.n && p in g.ranks[p.chan.dst].payQ
    ensures IsChan(cfg, p.chan) && p == lg(p.chan)
  {
    assert Invariant.Local(cfg, lg, p.chan.dst, g.ranks[p.chan.dst]);
  }

  // Nothing in the network is refused: the rank it is for can be given it, whether
  // it has called or not.
  lemma NothingRefused<E(!new)>(cfg: Config<E>, lg: Ledger<E>, x: Scene<E>, m: Msg<E>)
    requires Basic(cfg) && Fits(cfg, x) && LedgerOk(cfg, lg) && Control(cfg, lg, After(cfg, x.steps))
    requires InNet(x.net, m) && (m.EagerMsg? ==> m.p.eager)
    ensures exists r: nat :: AddressedTo(cfg, r, m) && CanHappen(cfg, x, Deliver(r, m))
  {
    hide Matched, IsRun, After, Shaped, Fits, Control, Total;
    FitsRun(cfg, x);
    InAll(cfg, x, m);
    OnChan(cfg, lg, After(cfg, x.steps), m);
    var c := match m case EagerMsg(p) => p.chan case RdmaMsg(p) => p.chan case HeaderMsg(c) => c case AckMsg(c) => c;
    ChanEnds(cfg, c);
    var r := match m case HeaderMsg(_) => HdrHome(cfg, c) case AckMsg(_) => c.src case _ => c.dst;
    assert AddressedTo(cfg, r, m) && CanHappen(cfg, x, Deliver(r, m));
  }

  // No transfer is held back either: a posted one can be injected, a payload that
  // is not eager can be written, and its completion can be polled.
  lemma NothingHeldBack<E(!new)>(cfg: Config<E>, lg: Ledger<E>, x: Scene<E>)
    requires Basic(cfg) && Fits(cfg, x) && LedgerOk(cfg, lg) && Control(cfg, lg, After(cfg, x.steps))
    ensures forall c :: c in x.net.reqs ==> CanHappen(cfg, x, Inject(c))
    ensures forall p :: p in x.net.pays && !p.eager ==> CanHappen(cfg, x, Event.Write(p))
    ensures forall r: nat, p :: r < cfg.n && p in After(cfg, x.steps).ranks[r].payQ && !p.eager ==>
              CanHappen(cfg, x, Deliver(r, RdmaMsg(p)))
  {
    hide Matched, IsRun, After, Shaped, Fits, Control, Total, LedgerOk;
    FitsRun(cfg, x);
    var g := After(cfg, x.steps);
    InAllNet(cfg, x);
    forall c | c in x.net.reqs ensures CanHappen(cfg, x, Inject(c)) {
      ReqChan(cfg, lg, g, c);
      var _ := SendAct(cfg, c);
    }
    forall p | p in x.net.pays && !p.eager ensures CanHappen(cfg, x, Event.Write(p)) {
      OnChan(cfg, lg, g, EagerMsg(p));
      PayBegun(cfg, lg, g, p);
      HasCalled(cfg, x, p.chan.dst);
      var _ := RecvAct(cfg, p.chan);
    }
    forall r: nat, p | r < cfg.n && p in g.ranks[r].payQ && !p.eager ensures CanHappen(cfg, x, Deliver(r, RdmaMsg(p))) {
      HeldHere(cfg, lg, g, r, p);
    }
  }

  lemma HeldHere<E(!new)>(cfg: Config<E>, lg: Ledger<E>, g: Global<E>, r: nat, p: Pay<E>)
    requires Basic(cfg) && Control(cfg, lg, g) && r < cfg.n && p in g.ranks[r].payQ
    ensures p.chan.dst == r
  {
    assert Invariant.Local(cfg, lg, r, g.ranks[r]);
  }

  lemma InAllNet<E(!new)>(cfg: Config<E>, x: Scene<E>)
    requires Shaped(cfg) && Fits(cfg, x)
    ensures forall c :: c in x.net.reqs ==> c in After(cfg, x.steps).net.reqs
    ensures forall p :: p in x.net.pays ==> p in After(cfg, x.steps).net.pays
  {
    hide IsRun, After, Total, Shaped, Rests, Outer, Trail, Kept;
  }

  lemma InAll<E(!new)>(cfg: Config<E>, x: Scene<E>, m: Msg<E>)
    requires Shaped(cfg) && Fits(cfg, x) && InNet(x.net, m)
    ensures InNet(After(cfg, x.steps).net, m)
  {
    hide IsRun, After, Total, Shaped, Rests, Outer, Trail, Kept;
  }

  // While some rank has not completed, an event that is foreseen can happen: for
  // matched DAGs without waiting in a circle.
  lemma SomeEvent<E(!new)>(cfg: Config<E>, lg: Ledger<E>, x: Scene<E>) returns (e: Event<E>)
    requires Basic(cfg) && Fits(cfg, x) && Closed(cfg) && NoEmptyDag(cfg) && Acyclic(cfg, false)
    requires LedgerOk(cfg, lg) && Control(cfg, lg, After(cfg, x.steps)) && !AllComplete(After(cfg, x.steps))
    ensures CanHappen(cfg, x, e) && Foreseen(cfg, lg, e)
  {
    hide Matched, IsRun, After, Shaped, Fits, Control, Enabled, Closed, Acyclic, LedgerOk, AllComplete, Foreseen;
    FitsRun(cfg, x);
    NoDeadlock(cfg, x.steps);
    var s :| Enabled(cfg, After(cfg, x.steps), s);
    e := StepIsEvent(cfg, lg, x, s);
  }

  // ---------- enough events ----------

  // Every rank has completed.
  ghost predicate Over<E(!new)>(cfg: Config<E>, x: Scene<E>)
    requires Shaped(cfg)
  {
    IsRun(cfg, x.steps) && AllComplete(After(cfg, x.steps))
  }

  // However the ranks carry them out, after these events every rank has completed.
  ghost predicate Enough<E(!new)>(cfg: Config<E>, x: Scene<E>, events: seq<Event<E>>)
    requires Shaped(cfg)
  {
    forall y :: Leads(cfg, x, events, y) ==> Over(cfg, y)
  }

  ghost predicate Ever<E(!new)>(cfg: Config<E>, events: seq<Event<E>>)
    requires Basic(cfg)
  {
    forall e :: Foreseen(cfg, Expected(cfg), e) ==> e in events
  }

  lemma {:induction false} CallsUpTo<E(!new)>(n: nat) returns (events: seq<Event<E>>)
    ensures forall r: nat :: r < n ==> Event<E>.Call(r) in events
  {
    if n == 0 {
      events := [];
    } else {
      var less := CallsUpTo(n - 1);
      events := less + [Call(n - 1)];
    }
  }

  lemma {:induction false} ChannelEvents<E(!new)>(cfg: Config<E>, lg: Ledger<E>, cs: set<Chan>) returns (events: seq<Event<E>>)
    ensures forall c, e :: c in cs && e in EventsOf(cfg, lg, c) ==> e in events
    decreases |cs|
  {
    hide EventsOf;
    if cs == {} {
      events := [];
    } else {
      var c :| c in cs;
      var less := ChannelEvents(cfg, lg, cs - {c});
      events := less + EventsOf(cfg, lg, c);
    }
  }

  // Finitely many events are foreseen.
  lemma AllEvents<E(!new)>(cfg: Config<E>) returns (events: seq<Event<E>>)
    requires Basic(cfg)
    ensures Ever(cfg, events)
  {
    hide Matched, Shaped, EventsOf;
    var lg := Expected(cfg);
    var calls := CallsUpTo<E>(cfg.n);
    var rest := ChannelEvents(cfg, lg, Messages(cfg));
    events := calls + rest;
    forall e | Foreseen(cfg, lg, e) ensures e in events {
      if !e.Call? || e.r >= cfg.n {
        var c :| IsChan(cfg, c) && e in EventsOf(cfg, lg, c);
        ChanInMessages(cfg, c);
      }
    }
  }

  lemma ChanInMessages<E(!new)>(cfg: Config<E>, c: Chan)
    requires Shaped(cfg) && IsChan(cfg, c)
    ensures c in Messages(cfg)
  {
    assert ChanOf(c.src, SendKey(c)) == c;
  }

  lemma {:induction false} NotUp<E(!new)>(cfg: Config<E>, x: Scene<E>, events: seq<Event<E>>, y: Scene<E>)
    requires Shaped(cfg) && Fits(cfg, x) && Leads(cfg, x, events, y)
    ensures Fits(cfg, y) && Left(cfg, y) <= Left(cfg, x) && (Left(cfg, y) == Left(cfg, x) ==> y == x) && x.steps <= y.steps
    decreases |events|
  {
    hide Shaped, Fits, CanHappen, Left;
    if events != [] {
      var front, e := events[..|events| - 1], events[|events| - 1];
      var mid :| Leads(cfg, x, front, mid) && Fits(cfg, mid) && Next(cfg, mid, e, y);
      NotUp(cfg, x, front, mid);
      NextFalls(cfg, mid, e, y);
    }
  }

  // An event that can happen, and is among the events, is taken or another is.
  lemma {:induction false} NotMissed<E(!new)>(cfg: Config<E>, x: Scene<E>, events: seq<Event<E>>, y: Scene<E>, e: Event<E>)
    requires Shaped(cfg) && Fits(cfg, x) && Leads(cfg, x, events, y) && e in events && CanHappen(cfg, x, e)
    ensures Left(cfg, y) < Left(cfg, x)
    decreases |events|
  {
    hide Shaped, Fits, CanHappen, Left;
    var front, d := events[..|events| - 1], events[|events| - 1];
    var mid :| Leads(cfg, x, front, mid) && Fits(cfg, mid) && Next(cfg, mid, d, y);
    NotUp(cfg, x, front, mid);
    NextFalls(cfg, mid, d, y);
    if d != e {
      NotMissed(cfg, x, front, mid, e);
    }
  }

  lemma {:induction false} StaysOver<E(!new)>(cfg: Config<E>, steps: seq<Step<E>>, more: seq<Step<E>>)
    requires Shaped(cfg) && IsRun(cfg, steps) && IsRun(cfg, more) && steps <= more && AllComplete(After(cfg, steps))
    ensures AllComplete(After(cfg, more))
    decreases |more|
  {
    hide Shaped, Enabled;
    if steps == more {
    } else {
      var front := more[..|more| - 1];
      assert steps <= front;
      StaysOver(cfg, steps, front);
      StepKeeps(cfg, After(cfg, front), more[|more| - 1]);
    }
  }

  lemma StepKeeps<E(!new)>(cfg: Config<E>, g: Global<E>, s: Step<E>)
    requires Shaped(cfg) && |g.ranks| == cfg.n && Enabled(cfg, g, s) && AllComplete(g)
    ensures AllComplete(Do(cfg, g, s))
  {
    hide Plus, RecvMem, ReadSpan, WriteSpan;
  }

  // Letting everything that is foreseen happen once makes progress or finds all over.
  lemma OnePass<E(!new)>(cfg: Config<E>, x: Scene<E>, events: seq<Event<E>>, y: Scene<E>)
    requires WellFormed(cfg) && Closed(cfg) && NoEmptyDag(cfg) && Acyclic(cfg, false)
    requires Fits(cfg, x) && Ever(cfg, events) && Leads(cfg, x, events, y)
    ensures Fits(cfg, y) && (Over(cfg, y) || Left(cfg, y) < Left(cfg, x))
    ensures Over(cfg, x) ==> Over(cfg, y)
  {
    hide Matched, Timed, RaceFree, ScratchOk, Fits, Closed, NoEmptyDag, Acyclic, Left, CanHappen, Shaped, IsRun, After, AllComplete;
    FitsRun(cfg, x);
    NotUp(cfg, x, events, y);
    FitsRun(cfg, y);
    if AllComplete(After(cfg, x.steps)) {
      StaysOver(cfg, x.steps, y.steps);
    } else {
      Safety.RunInv(cfg, x.steps);
      var e := SomeEvent(cfg, Expected(cfg), x);
      NotMissed(cfg, x, events, y, e);
    }
  }

  function Times<T>(events: seq<T>, k: nat): seq<T> { if k == 0 then [] else Times(events, k - 1) + events }

  lemma {:induction false} Passes<E(!new)>(cfg: Config<E>, x: Scene<E>, events: seq<Event<E>>, k: nat, y: Scene<E>)
    requires WellFormed(cfg) && Closed(cfg) && NoEmptyDag(cfg) && Acyclic(cfg, false)
    requires Fits(cfg, x) && Ever(cfg, events) && Leads(cfg, x, Times(events, k), y)
    ensures Fits(cfg, y) && (Over(cfg, y) || Left(cfg, y) + k <= Left(cfg, x))
    decreases k
  {
    hide Matched, Timed, RaceFree, ScratchOk, Fits, Closed, NoEmptyDag, Acyclic, Left, Over, Shaped, Leads, Ever;
    if k == 0 {
      NoEvents(cfg, x, y);
    } else {
      var mid := LeadsSplit(cfg, x, Times(events, k - 1), events, y);
      Passes(cfg, x, events, k - 1, mid);
      OnePass(cfg, mid, events, y);
    }
  }

  lemma NoEvents<E(!new)>(cfg: Config<E>, x: Scene<E>, y: Scene<E>)
    requires Shaped(cfg) && Leads(cfg, x, [], y)
    ensures y == x
  {
  }

  // There are enough events for every collective that can complete.
  lemma SomeEnough<E(!new)>(cfg: Config<E>, x: Scene<E>)
    requires WellFormed(cfg) && Closed(cfg) && NoEmptyDag(cfg) && Acyclic(cfg, false) && Fits(cfg, x)
    ensures exists events :: Enough(cfg, x, events)
  {
    hide Matched, Timed, RaceFree, ScratchOk, Fits, Closed, NoEmptyDag, Acyclic, Left, Over, Shaped, Leads, Ever, Times;
    var once := AllEvents(cfg);
    LeftBound(cfg, x);
    var events := Times(once, Left(cfg, x) + 1);
    forall y | Leads(cfg, x, events, y) ensures Over(cfg, y) {
      Passes(cfg, x, once, Left(cfg, x) + 1, y);
      LeftBound(cfg, y);
    }
    assert Enough(cfg, x, events);
  }
}
