// The safety theorem: every reachable state of a well-formed collective
// satisfies the invariant, so a rank that completes holds the round-synchronous
// result whatever the order of deliveries and whatever the protocol.
module Safety {
  import opened Actions
  import opened Protocol
  import opened Schedule
  import opened Invariant
  import opened ControlSteps
  import opened MemorySteps

  // A step that changes rank r (and messages) keeps the invariant if it keeps
  // control and r's memory.
  lemma OneMem<E(!new)>(cfg: Config<E>, g: Global<E>, r: nat, st: Rank<E>, net: Net<E>)
    requires WellFormed(cfg) && Inv(cfg, g) && r < cfg.n
    requires Control(cfg, Expected(cfg), Put(g, r, st, net)) && MemOk(cfg, r, st)
    ensures Inv(cfg, Put(g, r, st, net))
  {
  }

  lemma BeginInv<E(!new)>(cfg: Config<E>, g: Global<E>, r: nat)
    requires WellFormed(cfg) && Inv(cfg, g) && Enabled(cfg, g, Begin(r))
    ensures Inv(cfg, Do(cfg, g, Begin(r)))
  {
    var st := g.ranks[r].(begun := true);
    BeginControl(cfg, Expected(cfg), g, r);
    MemKept(cfg, r, g.ranks[r], st);
    OneMem(cfg, g, r, st, g.net);
  }

  lemma LaunchMemOk<E(!new)>(cfg: Config<E>, r: nat, st: Rank<E>, k: Key)
    requires WellFormed(cfg) && r < cfg.n && RankOk(cfg, r, st) && LandedOk(cfg, r, st) && MemOk(cfg, r, st)
    requires Ready(cfg, r, st, k)
    ensures MemOk(cfg, r, Launch(cfg, r, st, k))
  {
    KeyKind(cfg, r, k);
    if cfg.dag[r].acts[k].ShuffleAction? {
      ShuffleMemOk(cfg, r, st, k);
    } else {
      MemKept(cfg, r, st, Launch(cfg, r, st, k));
    }
  }

  lemma StartInv<E(!new)>(cfg: Config<E>, g: Global<E>, r: nat, k: Key)
    requires WellFormed(cfg) && Inv(cfg, g) && Enabled(cfg, g, Start(r, k))
    ensures Inv(cfg, Do(cfg, g, Start(r, k)))
  {
    StartControl(cfg, Expected(cfg), g, r, k);
    LandedFacts(cfg, g, r);
    LaunchMemOk(cfg, r, g.ranks[r], k);
    OneMem(cfg, g, r, Launch(cfg, r, g.ranks[r], k), Plus(g.net, LaunchMsgs(cfg, r, k)));
  }

  lemma HdrInv<E(!new)>(cfg: Config<E>, g: Global<E>, c: Chan, held: bool)
    requires WellFormed(cfg) && Inv(cfg, g)
    requires if held then Enabled(cfg, g, HeldHdr(c)) else Enabled(cfg, g, NetHdr(c))
    ensures if held then Inv(cfg, Do(cfg, g, HeldHdr(c))) else Inv(cfg, Do(cfg, g, NetHdr(c)))
  {
    var r := HdrHome(cfg, c);
    if held {
      HeldHdrControl(cfg, Expected(cfg), g, c);
      var g' := DoHeldHdr(cfg, g, c);
      MemKept(cfg, r, g.ranks[r], g'.ranks[r]);
      OneMem(cfg, g, r, g'.ranks[r], g'.net);
    } else {
      NetHdrControl(cfg, Expected(cfg), g, c);
      var g' := DoNetHdr(cfg, g, c);
      MemKept(cfg, r, g.ranks[r], g'.ranks[r]);
      OneMem(cfg, g, r, g'.ranks[r], g'.net);
    }
  }

  // A posted transfer finds its send still active.
  lemma ReqActive<E(!new)>(cfg: Config<E>, g: Global<E>, c: Chan)
    requires WellFormed(cfg) && Control(cfg, Expected(cfg), g) && c in g.net.reqs
    ensures ChanOk(cfg, c) && Active(g.ranks[c.src], SendKey(c))
  {
    ChanEnds(cfg, c);
    assert Conserved(cfg, Expected(cfg), g, c);
    assert LookAt(cfg, Expected(cfg), g, c).req >= 1;
  }

  lemma ReleaseInv<E(!new)>(cfg: Config<E>, g: Global<E>, c: Chan)
    requires WellFormed(cfg) && Inv(cfg, g) && Enabled(cfg, g, Release(c))
    ensures Inv(cfg, Do(cfg, g, Release(c)))
  {
    ReqActive(cfg, g, c);
    LandedFacts(cfg, g, c.src);
    ReadExpected(cfg, c.src, g.ranks[c.src], c);
    assert Injected(cfg, g, c) == Exp(cfg, c) == Expected(cfg)(c);
    ReleaseControl(cfg, Expected(cfg), g, c);
  }

  lemma EagerInInv<E(!new)>(cfg: Config<E>, g: Global<E>, p: Pay<E>)
    requires WellFormed(cfg) && Inv(cfg, g) && Enabled(cfg, g, EagerIn(p))
    ensures Inv(cfg, Do(cfg, g, EagerIn(p)))
  {
    var r := p.chan.dst;
    PayFacts(cfg, Expected(cfg), g, p);
    EagerInControl(cfg, Expected(cfg), g, p);
    LandedFacts(cfg, g, r);
    var st := HandleEager(cfg, r, g.ranks[r], p);
    if Active(g.ranks[r], RecvKey(p.chan)) {
      EagerMemOk(cfg, r, g.ranks[r], st, p);
    } else {
      MemKept(cfg, r, g.ranks[r], st);
    }
    OneMem(cfg, g, r, st, g.net.(pays := g.net.pays - multiset{p}));
  }

  lemma HeldEagerInv<E(!new)>(cfg: Config<E>, g: Global<E>, p: Pay<E>)
    requires WellFormed(cfg) && Inv(cfg, g) && Enabled(cfg, g, HeldEager(p))
    ensures Inv(cfg, Do(cfg, g, HeldEager(p)))
  {
    var r := p.chan.dst;
    PayFacts(cfg, Expected(cfg), g, p);
    HeldEagerControl(cfg, Expected(cfg), g, p);
    LandedFacts(cfg, g, r);
    var st := HandleEager(cfg, r, g.ranks[r].(payQ := g.ranks[r].payQ - multiset{p}), p);
    EagerMemOk(cfg, r, g.ranks[r], st, p);
    OneMem(cfg, g, r, st, g.net);
  }

  lemma LandInv<E(!new)>(cfg: Config<E>, g: Global<E>, p: Pay<E>)
    requires WellFormed(cfg) && Inv(cfg, g) && Enabled(cfg, g, Land(p))
    ensures Inv(cfg, Do(cfg, g, Land(p)))
  {
    var r := p.chan.dst;
    PayFacts(cfg, Expected(cfg), g, p);
    LandControl(cfg, Expected(cfg), g, p);
    LandedFacts(cfg, g, r);
    var g' := DoLand(cfg, g, p);
    var _ := RecvAct(cfg, p.chan);
    LandMemOk(cfg, r, g.ranks[r], g'.ranks[r], p);
    OneMem(cfg, g, r, g'.ranks[r], g'.net);
  }

  lemma LandedInv<E(!new)>(cfg: Config<E>, g: Global<E>, p: Pay<E>)
    requires WellFormed(cfg) && Inv(cfg, g) && Enabled(cfg, g, Landed(p))
    ensures Inv(cfg, Do(cfg, g, Landed(p)))
  {
    var r := p.chan.dst;
    PayFacts(cfg, Expected(cfg), g, p);
    LandedControl(cfg, Expected(cfg), g, p);
    LandedFacts(cfg, g, r);
    var g' := DoLanded(cfg, g, p);
    LandedMemOk(cfg, r, g.ranks[r], g'.ranks[r], p);
    OneMem(cfg, g, r, g'.ranks[r], g'.net);
  }

  lemma AckMemOk<E(!new)>(cfg: Config<E>, st: Rank<E>, c: Chan)
    requires WellFormed(cfg) && c.src < cfg.n && MemOk(cfg, c.src, st)
    ensures MemOk(cfg, c.src, HandleAck(st, c))
  {
    MemKept(cfg, c.src, st, HandleAck(st, c));
  }

  lemma AckInInv<E(!new)>(cfg: Config<E>, g: Global<E>, c: Chan)
    requires WellFormed(cfg) && Inv(cfg, g) && Enabled(cfg, g, AckIn(c))
    ensures Inv(cfg, Do(cfg, g, AckIn(c)))
  {
    AckInControl(cfg, Expected(cfg), g, c);
    AckMemOk(cfg, g.ranks[c.src], c);
    OneMem(cfg, g, c.src, HandleAck(g.ranks[c.src], c), g.net.(acks := g.net.acks - multiset{c}));
  }

  lemma DoneInv<E(!new)>(cfg: Config<E>, g: Global<E>, r: nat)
    requires WellFormed(cfg) && Inv(cfg, g) && Enabled(cfg, g, Done(r))
    ensures Inv(cfg, Do(cfg, g, Done(r)))
  {
    DoneControl(cfg, Expected(cfg), g, r);
    LandedFacts(cfg, g, r);
    DoneMemOk(cfg, r, g.ranks[r]);
    OneMem(cfg, g, r, Finish(cfg, r, g.ranks[r]), g.net);
  }

  lemma StepInv<E(!new)>(cfg: Config<E>, g: Global<E>, s: Step<E>)
    requires WellFormed(cfg) && Inv(cfg, g) && Enabled(cfg, g, s)
    ensures Inv(cfg, Do(cfg, g, s))
  {
    match s
    case Begin(r) => BeginInv(cfg, g, r);
    case Start(r, k) => StartInv(cfg, g, r, k);
    case NetHdr(c) => HdrInv(cfg, g, c, false);
    case HeldHdr(c) => HdrInv(cfg, g, c, true);
    case Release(c) => ReleaseInv(cfg, g, c);
    case EagerIn(p) => EagerInInv(cfg, g, p);
    case HeldEager(p) => HeldEagerInv(cfg, g, p);
    case Land(p) => LandInv(cfg, g, p);
    case Landed(p) => LandedInv(cfg, g, p);
    case AckIn(c) => AckInInv(cfg, g, c);
    case Done(r) => DoneInv(cfg, g, r);
  }

  lemma {:induction false} RunInv<E(!new)>(cfg: Config<E>, steps: seq<Step<E>>)
    requires WellFormed(cfg) && IsRun(cfg, steps)
    ensures Inv(cfg, After(cfg, steps))
    decreases |steps|
  {
    if steps == [] {
      InitInv(cfg);
    } else {
      RunInv(cfg, steps[..|steps| - 1]);
      StepInv(cfg, After(cfg, steps[..|steps| - 1]), steps[|steps| - 1]);
    }
  }

  // Main theorem.  After any run, no rank has hit an abort, and a rank that has
  // completed has finished exactly its whole DAG and holds finalize applied to
  // the round-synchronous result.
  lemma RunsAreCorrect<E(!new)>(cfg: Config<E>, steps: seq<Step<E>>, r: nat)
    requires WellFormed(cfg) && IsRun(cfg, steps) && r < cfg.n
    ensures var st := After(cfg, steps).ranks[r];
            && !st.fault
            && (st.complete ==> Sealed(cfg, r, st.mem) && forall k :: k in cfg.dag[r].acts <==> k in st.fin)
  {
    RunInv(cfg, steps);
    var g := After(cfg, steps);
    assert Local(cfg, Expected(cfg), r, g.ranks[r]);
  }
}
