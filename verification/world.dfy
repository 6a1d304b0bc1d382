// A collective as it runs: for each rank an engine and the DagCollectiveActor it
// is to run, and the network between them.  Whatever is called, delivered, read or
// written, in any order, the actors stay where a run of the system is, with the
// messages the engines keep counted as in flight; so what is proved about all runs
// holds of the actors.
module Worlds {
  import opened Actions
  import opened Protocol
  import opened Schedule
  import opened Invariant
  import opened LocalSteps
  import opened Engine
  import opened EngineRuns
  import opened CollectiveEngines
  import opened ControlSteps
  import opened Conservation
  import opened WaitGraphs
  import opened Liveness
  import opened EarlyMessages
  import opened Scenes
  import opened EnoughEvents
  import opened WireProtocols
  import Launches

  // The actor is rank r in state st, with nothing left to hand over.
  ghost predicate Plays<E(!new)>(cfg: Config<E>, actor: DagCollectiveActor<E>, r: nat, st: Rank<E>)
    requires Shaped(cfg) && r < cfg.n
    reads actor
  {
    && actor.cfg == cfg && actor.me == r && actor.View() == st && actor.out == NoMsgs()
    && if st.begun then Resting(actor) && actor.Env() else Launches.Prepared(cfg, r, actor)
  }

  // The engine runs the actor from the call to its completion, and before the call
  // keeps the messages that come too early.
  ghost predicate Hosts<E(!new)>(cfg: Config<E>, id: Id, engine: CollectiveEngine<E>, actor: DagCollectiveActor<E>, r: nat,
                                 st: Rank<E>, early: seq<Msg<E>>)
    reads engine
  {
    && engine.collectives == (if st.begun && !st.complete then map[id := actor] else map[])
    && engine.pending == (if early == [] then map[] else map[id := early])
    && (st.begun ==> early == []) && forall m :: m in early ==> AddressedTo(cfg, r, m) && !m.RdmaMsg?
  }

  // A rank that has called has an actor at rest.
  lemma PlaysLive<E(!new)>(cfg: Config<E>, actor: DagCollectiveActor<E>, r: nat, st: Rank<E>)
    requires Shaped(cfg) && r < cfg.n && Plays(cfg, actor, r, st)
    ensures actor.cfg == cfg && actor.me == r && actor.View() == st && actor.begun == st.begun && actor.complete == st.complete
    ensures st.begun ==> Resting(actor) && actor.Env() && actor.Here() == Local(st, NoMsgs())
    ensures !st.begun ==> Launches.Prepared(cfg, r, actor) && st == InitRank(cfg, r) && actor.landed == multiset{}
    ensures !st.begun ==> actor.Here() == Local(st, NoMsgs())
  {
    PlusAssoc(NoMsgs<E>(), NoMsgs(), NoMsgs());
    if !st.begun { Launches.FreshView(actor); }
  }

  lemma HostValid<E(!new)>(cfg: Config<E>, id: Id, engine: CollectiveEngine<E>, actor: DagCollectiveActor<E>, r: nat,
                           st: Rank<E>, early: seq<Msg<E>>)
    requires Shaped(cfg) && r < cfg.n && Plays(cfg, actor, r, st) && Hosts(cfg, id, engine, actor, r, st, early)
    ensures engine.Valid() && engine.Waiting(id) == early
    ensures id in engine.collectives <==> st.begun && !st.complete
    ensures id in engine.collectives ==> engine.collectives[id] == actor
  {
  }

  // What is posted goes to the network; the actor is then in state View().
  method Post<E(==,!new)>(cfg: Config<E>, actor: DagCollectiveActor<E>, r: nat) returns (posted: Net<E>)
    requires Shaped(cfg) && r < cfg.n && Resting(actor) && actor.Env() && actor.cfg == cfg && actor.me == r
    modifies actor`out
    ensures Plays(cfg, actor, r, old(actor.Here()).st) && old(actor.Here()).st.begun && posted == old(actor.Here()).out
  {
    hide Shaped;
    posted := actor.TakePosted();
  }

  // startCollective for rank r: its actor starts and is served what was kept.
  method StartSeat<E(==,!new)>(cfg: Config<E>, id: Id, engine: CollectiveEngine<E>, actor: DagCollectiveActor<E>, r: nat,
                               ghost st: Rank<E>, ghost early: seq<Msg<E>>) returns (posted: Net<E>, ghost b: Local<E>)
    requires Shaped(cfg) && r < cfg.n && Plays(cfg, actor, r, st) && Hosts(cfg, id, engine, actor, r, st, early) && !st.begun
    modifies engine, actor
    ensures Serves(cfg, r, Local(st.(begun := true), NoMsgs()), early, b) && posted == b.out
    ensures b.st.begun && Plays(cfg, actor, r, b.st) && Hosts(cfg, id, engine, actor, r, b.st, [])
  {
    hide Shaped, Plays, Resting, Serves, AddressedTo, Launches.Prepared, InitRank, NoMsgs;
    PlaysLive(cfg, actor, r, st);
    HostValid(cfg, id, engine, actor, r, st, early);
    CanStart(cfg, r, actor);
    var _ := engine.StartCollective(id, actor);
    b := actor.Here();
    assert engine.pending == map[];
    posted := Post(cfg, actor, r);
  }

  // incoming for rank r, which is running: its actor is served, and retired once
  // it has completed.
  method HearSeat<E(==,!new)>(cfg: Config<E>, id: Id, engine: CollectiveEngine<E>, actor: DagCollectiveActor<E>, r: nat,
                              ghost st: Rank<E>, m: Msg<E>) returns (posted: Net<E>, ghost b: Local<E>)
    requires Shaped(cfg) && r < cfg.n && Plays(cfg, actor, r, st) && Hosts(cfg, id, engine, actor, r, st, [])
    requires st.begun && !st.complete && AddressedTo(cfg, r, m) && (m.RdmaMsg? ==> m.p in actor.landed)
    modifies engine, actor
    ensures Reaches(cfg, r, Delivered(cfg, r, Local(st, NoMsgs()), m), b) && posted == b.out
    ensures b.st.begun && Plays(cfg, actor, r, b.st) && Hosts(cfg, id, engine, actor, r, b.st, [])
  {
    hide Shaped, Plays, Resting, Reaches, Delivered, AddressedTo, NoMsgs;
    PlaysLive(cfg, actor, r, st);
    HostValid(cfg, id, engine, actor, r, st, []);
    var _ := engine.Incoming(id, m);
    b := actor.Here();
    assert engine.collectives == if b.st.complete then map[] else map[id := actor];
    posted := Post(cfg, actor, r);
  }

  // incoming for rank r, which has not called: the message is kept.
  method KeepSeat<E(==,!new)>(cfg: Config<E>, id: Id, engine: CollectiveEngine<E>, actor: DagCollectiveActor<E>, r: nat,
                              ghost st: Rank<E>, ghost early: seq<Msg<E>>, m: Msg<E>)
    requires Shaped(cfg) && r < cfg.n && Plays(cfg, actor, r, st) && Hosts(cfg, id, engine, actor, r, st, early)
    requires !st.begun && AddressedTo(cfg, r, m) && !m.RdmaMsg?
    modifies engine
    ensures Hosts(cfg, id, engine, actor, r, st, early + [m])
  {
    hide Shaped, Plays, Resting, AddressedTo;
    HostValid(cfg, id, engine, actor, r, st, early);
    var _ := engine.Incoming(id, m);
    assert engine.pending == map[id := early + [m]];
  }

  ghost predicate Distinct<E(!new)>(actors: seq<DagCollectiveActor<E>>) {
    forall r: nat, t: nat :: r < t < |actors| ==> actors[r] != actors[t]
  }

  ghost predicate DistinctEngines<E(!new)>(engines: seq<CollectiveEngine<E>>) {
    forall r: nat, t: nat :: r < t < |engines| ==> engines[r] != engines[t]
  }

  ghost predicate Called<E(!new)>(live: set<nat>, g: Global<E>) {
    forall r: nat :: r < |g.ranks| ==> (r in live <==> g.ranks[r].begun)
  }

  // Every actor but number `but` is where its rank is in state g, in its engine.
  ghost predicate AllPlay<E(!new)>(cfg: Config<E>, id: Id, engines: seq<CollectiveEngine<E>>, actors: seq<DagCollectiveActor<E>>,
                                   g: Global<E>, early: seq<seq<Msg<E>>>, but: int)
    requires Shaped(cfg)
    reads actors, engines
  {
    && |actors| == |engines| == |early| == cfg.n == |g.ranks|
    && forall r: nat {:trigger actors[r]} {:trigger engines[r]} :: r < cfg.n && r != but ==>
         Plays(cfg, actors[r], r, g.ranks[r]) && Hosts(cfg, id, engines[r], actors[r], r, g.ranks[r], early[r])
  }

  // One actor has moved on, the others have not.
  lemma OneMoved<E(!new)>(cfg: Config<E>, id: Id, engines: seq<CollectiveEngine<E>>, actors: seq<DagCollectiveActor<E>>,
                          live: set<nat>, g: Global<E>, early: seq<seq<Msg<E>>>, r: nat, st: Rank<E>, msgs: seq<Msg<E>>, net: Net<E>)
    requires Shaped(cfg) && r < cfg.n && Called(live, g) && AllPlay(cfg, id, engines, actors, g, early, r)
    requires st.begun && Plays(cfg, actors[r], r, st) && Hosts(cfg, id, engines[r], actors[r], r, st, msgs)
    ensures Called(live + {r}, Put(g, r, st, net))
    ensures AllPlay(cfg, id, engines, actors, Put(g, r, st, net), early[r := msgs], -1)
  {
    hide Shaped, Plays, Hosts;
  }

  // One engine keeps more, the others are as they were.
  lemma OneKept<E(!new)>(cfg: Config<E>, id: Id, engines: seq<CollectiveEngine<E>>, actors: seq<DagCollectiveActor<E>>,
                         g: Global<E>, early: seq<seq<Msg<E>>>, r: nat, msgs: seq<Msg<E>>)
    requires Shaped(cfg) && r < cfg.n && AllPlay(cfg, id, engines, actors, g, early, r)
    requires Plays(cfg, actors[r], r, g.ranks[r]) && Hosts(cfg, id, engines[r], actors[r], r, g.ranks[r], msgs)
    ensures AllPlay(cfg, id, engines, actors, g, early[r := msgs], -1)
  {
    hide Shaped, Plays, Hosts;
  }

  class World<E(==,!new)> {
    const cfg: Config<E>
    const id: Id
    const engines: seq<CollectiveEngine<E>>
    const actors: seq<DagCollectiveActor<E>>
    var live: set<nat>               // the ranks that have called
    var net: Net<E>
    ghost var log: seq<Event<E>>     // the events that took place
    ghost var steps: seq<Step<E>>    // the run of the system they have led to

    ghost predicate Valid()
      reads this, actors, engines
    {
      && Basic(cfg) && IsRun(cfg, steps) && Outer(steps) == Trail(cfg.n, log)
      && After(cfg, steps).net == Plus(net, Total(Kept(cfg.n, log)))
      && Distinct(actors) && DistinctEngines(engines) && live == Callers(log) && Called(live, After(cfg, steps))
      && AllPlay(cfg, id, engines, actors, After(cfg, steps), Kept(cfg.n, log), -1)
    }

    ghost function Now(): Scene<E>
      reads this
    {
      Scene(log, steps, net)
    }

    constructor (cfg: Config<E>, id: Id, engines: seq<CollectiveEngine<E>>, actors: seq<DagCollectiveActor<E>>)
      requires Basic(cfg) && |actors| == |engines| == cfg.n && Distinct(actors) && DistinctEngines(engines)
      requires forall r: nat :: r < cfg.n ==> Launches.Prepared(cfg, r, actors[r])
      requires forall r: nat :: r < cfg.n ==> engines[r].collectives == map[] && engines[r].pending == map[]
      ensures Valid() && this.cfg == cfg && this.id == id && this.engines == engines && this.actors == actors
      ensures live == {} && Now() == Opening()
    {
      this.cfg, this.id, this.engines, this.actors := cfg, id, engines, actors;
      live, net, log, steps := {}, NoMsgs(), [], [];
      new;
      hide Shaped, Matched, Launches.Prepared, AllPlay, Called, Total, Init, Plus;
      AtFirst(cfg, id, engines, actors, Kept(cfg.n, log));
    }

    // startCollective: the actor starts and gets what has been kept for it.
    method Begin(r: nat)
      requires Valid() && r < cfg.n && r !in live
      modifies this`live, this`net, this`steps, this`log, actors[r], engines[r]
      ensures Valid() && log == old(log) + [Call(r)] && old(steps) + [Step<E>.Begin(r)] <= steps && live == old(live) + {r}
      ensures exists posted :: net == Plus(old(net), posted)
    {
      hide Plus, IsRun, After, Shaped, Matched, Plays, Hosts, Serves, AddressedTo, Total, Of, AllIn, Minus, NoMsgs;
      hide Kept, Trail, Callers, Outer, Deliveries;
      ghost var g, early := After(cfg, steps), Kept(cfg.n, log);
      ghost var msgs, rest := early[r], Plus(net, Total(early[r := []]));
      KeptFor(cfg, id, engines[r], actors[r], r, g.ranks[r], msgs);
      ghost var b;
      var posted;
      posted, b := StartSeat(cfg, id, engines[r], actors[r], r, g.ranks[r], msgs);
      OneRankOut(net, early, r);
      TakeAll(rest, msgs);
      ghost var all := ServesIsRun(cfg, steps, r, msgs, b);
      PlusSwap(net, Total(early[r := []]), posted);
      OneMoved(cfg, id, engines, actors, live, g, early, r, b.st, [], Plus(rest, posted));
      LogMore(cfg.n, log, Event<E>.Call(r));
      live, net, steps, log := live + {r}, Plus(net, posted), all, log + [Call(r)];
    }

    // incoming, for a rank that is running.
    method Hear(r: nat, m: Msg<E>)
      requires Valid() && r < cfg.n && r in live && !actors[r].complete && AddressedTo(cfg, r, m)
      requires if m.RdmaMsg? then m.p in actors[r].landed else InNet(net, m)
      modifies this`net, this`steps, this`log, actors[r], engines[r]
      ensures Valid() && log == old(log) + [Deliver(r, m)] && old(steps) + [Delivery(m)] <= steps
      ensures exists posted :: net == Plus(Without(old(net), m), posted)
    {
      hide Reaches, Plus, IsRun, After, Shaped, Matched, Delivered, Without, Plays, Hosts, AddressedTo, InNet, Enabled, Total, NoMsgs;
      hide Kept, Trail, Callers, Outer, Delivery;
      ghost var g, early := After(cfg, steps), Kept(cfg.n, log);
      ghost var kept := Total(early);
      PlaysLive(cfg, actors[r], r, g.ranks[r]);
      KeptFor(cfg, id, engines[r], actors[r], r, g.ranks[r], early[r]);
      StillThere(net, kept, m);
      CanReceive(cfg, g, r, m, actors[r]);
      ghost var b;
      var posted;
      posted, b := HearSeat(cfg, id, engines[r], actors[r], r, g.ranks[r], m);
      ghost var all := DeliverIsRun(cfg, steps, r, Plus(net, kept), Local(g.ranks[r], NoMsgs()), m, b);
      PlusSwap(Without(net, m), kept, posted);
      OneMoved(cfg, id, engines, actors, live, g, early, r, b.st, [], Plus(Plus(Without(net, m), kept), posted));
      assert live + {r} == live && early[r := []] == early;
      LogMore(cfg.n, log, Deliver(r, m));
      net, steps, log := Plus(Without(net, m), posted), all, log + [Deliver(r, m)];
    }

    // incoming, for a rank that has not called.
    method Keep(r: nat, m: Msg<E>)
      requires Valid() && r < cfg.n && r !in live && AddressedTo(cfg, r, m) && !m.RdmaMsg? && InNet(net, m)
      modifies this`net, this`log, engines[r]
      ensures Valid() && log == old(log) + [Deliver(r, m)] && net == Without(old(net), m)
    {
      hide Plus, IsRun, After, Shaped, Matched, Without, Plays, Hosts, AddressedTo, InNet, Total, Just;
      hide Kept, Trail, Callers, Outer, Delivery;
      ghost var g, early := After(cfg, steps), Kept(cfg.n, log);
      PlaysLive(cfg, actors[r], r, g.ranks[r]);
      KeepSeat(cfg, id, engines[r], actors[r], r, g.ranks[r], early[r], m);
      KeepOne(net, Total(early), m);
      KeepMore(early, r, m);
      OneKept(cfg, id, engines, actors, g, early, r, early[r] + [m]);
      LogMore(cfg.n, log, Deliver(r, m));
      net, log := Without(net, m), log + [Deliver(r, m)];
    }

    // The NIC of c's sender reads the data of a posted transfer and injects it.
    method Release(c: Chan)
      requires Valid() && c in net.reqs && c.src < cfg.n
      requires SendKey(c) in actors[c.src].acts && actors[c.src].acts[SendKey(c)].SendAction?
      modifies this`net, this`steps, this`log
      ensures Valid() && log == old(log) + [Inject(c)] && steps == old(steps) + [Step<E>.Release(c)]
      ensures var a := actors[c.src].acts[SendKey(c)];
              net == old(DoRelease(Global([], net), c,
                                   Pay(c, cfg.useEager(a.nelems), ReadSpan(actors[c.src].mem, SendSpan(cfg.ptrs[c.src], a)))).net)
    {
      hide IsRun, After, Matched, Plays, Hosts, ReadSpan, Total, Plus, Do, Enabled, Shaped, SendSpan, Kept, Trail, Callers, Outer;
      var actor := actors[c.src];
      ghost var g, kept := After(cfg, steps), Total(Kept(cfg.n, log));
      PlaysActs(cfg, actor, c.src, g.ranks[c.src]);
      SomeBuffer(cfg, c.src);
      var a := actor.acts[SendKey(c)];
      var p := Pay(c, cfg.useEager(a.nelems), ReadSpan(actor.mem, SendSpan(cfg.ptrs[c.src], a)));
      InPlus(net, kept, c);
      CanInject(cfg, g, c, p);
      RunMore(cfg, steps, Step.Release(c));
      OuterMore(steps, Step<E>.Release(c));
      Injects(g, net, kept, c, p);
      LogMore(cfg.n, log, Event<E>.Inject(c));
      net := DoRelease(Global([], net), c, p).net;
      steps, log := steps + [Step.Release(c)], log + [Inject(c)];
    }

    // The NIC of p's receiver writes an RDMA payload.
    method Write(p: Pay<E>)
      requires Valid() && p in net.pays && !p.eager && p.chan.dst in live && p.chan.dst < cfg.n
      requires RecvKey(p.chan) in actors[p.chan.dst].acts
      modifies this`net, this`steps, this`log, actors[p.chan.dst]
      ensures Valid() && log == old(log) + [Event.Write(p)] && steps == old(steps) + [Land(p)]
      ensures net == old(net).(pays := old(net).pays - multiset{p})
    {
      hide IsRun, After, Matched, Plays, Hosts, Total, Plus, Do, Enabled, Shaped, Landing, Kept, Trail, Callers, Outer;
      var r := p.chan.dst;
      ghost var g, early := After(cfg, steps), Kept(cfg.n, log);
      ghost var kept, msgs := Total(early), early[r];
      PlaysActs(cfg, actors[r], r, g.ranks[r]);
      var left := net.(pays := net.pays - multiset{p});
      CanLand(cfg, g, net, kept, p);
      ghost var st := Landing(cfg, r, p, g.ranks[r]);
      WriteSeat(cfg, id, engines[r], actors[r], r, g.ranks[r], msgs, p);
      RunMore(cfg, steps, Land(p));
      OuterMore(steps, Land(p));
      OneMoved(cfg, id, engines, actors, live, g, early, r, st, msgs, Plus(left, kept));
      assert live + {r} == live && early[r := msgs] == early;
      LogMore(cfg.n, log, Event.Write(p));
      net, steps, log := left, steps + [Land(p)], log + [Event.Write(p)];
    }

    // The event can happen now.
    predicate Possible(e: Event<E>)
      reads this, actors
    {
      match e
      case Call(r) => r < |actors| && r !in live
      case Deliver(r, m) => r < |actors| && AddressedTo(cfg, r, m) && if m.RdmaMsg? then m.p in actors[r].landed else InNet(net, m)
      case Inject(c) =>
        c.src < |actors| && c in net.reqs && SendKey(c) in actors[c.src].acts && actors[c.src].acts[SendKey(c)].SendAction?
      case Write(p) =>
        p.chan.dst < |actors| && p.chan.dst in live && p in net.pays && !p.eager && RecvKey(p.chan) in actors[p.chan.dst].acts
    }

    // One event; what cannot happen now is passed over.
    method Happen(e: Event<E>)
      requires Valid()
      modifies this`live, this`net, this`steps, this`log, actors, engines
      ensures Valid() && Fits(cfg, old(Now())) && Next(cfg, old(Now()), e, Now())
      ensures old(Possible(e)) <==> CanHappen(cfg, old(Now()), e)
      ensures live == old(live) + if e.Call? && old(Possible(e)) then {e.r} else {}
      ensures Left(cfg, Now()) >= 0
      ensures if old(Possible(e)) then Left(cfg, Now()) < old(Left(cfg, Now())) else Now() == old(Now())
    {
      hide IsRun, After, Shaped, Matched, Plays, Hosts, AddressedTo, InNet, Total, AllPlay, Called, Fits, CanHappen, Left;
      ghost var before := Now();
      Fitting();
      PossibleIs(e);
      if Possible(e) {
        TakePlace(e);
        Fitting();
      }
      NextFalls(cfg, before, e, Now());
      LeftBound(cfg, Now());
    }

    method TakePlace(e: Event<E>)
      requires Valid() && Possible(e)
      modifies this`live, this`net, this`steps, this`log, actors, engines
      ensures Valid() && log == old(log) + [e] && old(steps) <= steps
      ensures live == old(live) + if e.Call? then {e.r} else {}
    {
      hide IsRun, After, Shaped, Matched, Plays, Hosts, AddressedTo, InNet, Total, Kept, Trail, Callers, Outer;
      PossibleRank(e);
      match e {
        case Call(r) => Begin(r);
        case Deliver(r, m) =>
          if r in live {
            NotLate(r, m);
            Hear(r, m);
          } else {
            NoneLanded(r);
            Keep(r, m);
          }
        case Inject(c) => Release(c);
        case Write(p) => Write(p);
      }
    }

    lemma PossibleRank(e: Event<E>)
      requires Valid()
      ensures Shaped(cfg) && |actors| == cfg.n
    {
    }

    // Any sequence of events: those that are possible in turn take place, and
    // nothing else does.
    method Run(events: seq<Event<E>>)
      requires Valid()
      modifies this`live, this`net, this`steps, this`log, actors, engines
      ensures Valid() && Fits(cfg, old(Now())) && Leads(cfg, old(Now()), events, Now())
      ensures live == old(live) + set r: nat | r < cfg.n && Event<E>.Call(r) in events
    {
      hide IsRun, After, Shaped, Matched, Plays, Hosts, Fits, Next, Leads, AllPlay, Called, CanHappen, Left, Possible;
      hide Total, Kept, Trail, Outer;
      ghost var start := Now();
      Fitting();
      LeadsNowhere(cfg, start);
      assert events[..0] == [];
      for i := 0 to |events|
        invariant Valid() && Leads(cfg, start, events[..i], Now())
      {
        ghost var mid := Now();
        Happen(events[i]);
        LeadsMore(cfg, start, events[..i], mid, events[i], Now());
        assert events[..i] + [events[i]] == events[..i + 1];
      }
      assert events[..|events|] == events;
      CallsLead(cfg, start, events, Now());
    }

    // ---------- what follows from the theorems about runs ----------

    // The world is where its events have led.
    lemma Fitting()
      requires Valid()
      ensures Shaped(cfg) && Fits(cfg, Now())
    {
      hide Matched, IsRun, After, Shaped, Plays, Hosts, Total, Kept, Trail, Callers, Outer, Plus, AddressedTo, Rests, AllPlay, Called;
      hide Distinct, DistinctEngines, Fits;
      var x := Now();
      forall r: nat | r < cfg.n ensures Rests(cfg, x, r) { SeatRests(r); }
      forall r: nat, m | r < cfg.n && m in Kept(cfg.n, x.log)[r]
        ensures AddressedTo(cfg, r, m) && !m.RdmaMsg? && r !in Callers(x.log)
      {
        SeatKeeps(r, m);
      }
      FitsBy(cfg, x);
    }

    lemma SeatKeeps(r: nat, m: Msg<E>)
      requires Valid() && r < cfg.n && m in Kept(cfg.n, log)[r]
      ensures AddressedTo(cfg, r, m) && !m.RdmaMsg? && r !in Callers(log)
    {
      hide Matched, IsRun, After, Shaped, Plays, Hosts, Total, Kept, Trail, Callers, Outer, Plus, AddressedTo;
      KeptFor(cfg, id, engines[r], actors[r], r, After(cfg, steps).ranks[r], Kept(cfg.n, log)[r]);
    }

    lemma SeatRests(r: nat)
      requires Valid() && r < cfg.n
      ensures Rests(cfg, Now(), r)
    {
      hide Matched, IsRun, After, Shaped, Plays, Hosts, Total, Kept, Trail, Callers, Outer, Plus, Can, InitRank;
      var st := After(cfg, steps).ranks[r];
      PlaysLive(cfg, actors[r], r, st);
      forall s: Inner<E> ensures !Can(cfg, r, st, s) { SeatAtRest(cfg, actors[r], r, st, s); }
    }

    lemma PossibleIs(e: Event<E>)
      requires Valid()
      ensures Shaped(cfg) && (Possible(e) <==> CanHappen(cfg, Now(), e))
    {
      hide Matched, IsRun, After, Shaped, Plays, Hosts, Total, Kept, Trail, Callers, Outer, Plus, InNet;
      match e {
        case Call(r) =>
        case Deliver(r, m) =>
          if r < cfg.n && m.RdmaMsg? && AddressedTo(cfg, r, m) { InQueueIs(cfg, actors[r], r, After(cfg, steps).ranks[r], m.p); }
        case Inject(c) => if c.src < cfg.n { PlaysActs(cfg, actors[c.src], c.src, After(cfg, steps).ranks[c.src]); }
        case Write(p) =>
          var r := p.chan.dst;
          if r < cfg.n { PlaysActs(cfg, actors[r], r, After(cfg, steps).ranks[r]); }
      }
    }

    // The actors are where the run says.
    lemma Outcome(r: nat)
      requires Valid() && r < cfg.n
      ensures actors[r].complete == After(cfg, steps).ranks[r].complete && actors[r].mem == After(cfg, steps).ranks[r].mem
      ensures actors[r].started == After(cfg, steps).ranks[r].started
    {
      hide Shaped, IsRun, Matched, Hosts;
      assert Plays(cfg, actors[r], r, After(cfg, steps).ranks[r]);
    }

    // An eager send that its actor has started is in the network at once, and stays
    // there until the NIC is told to read its data; one that is not eager is not there
    // before the receiver's actor has started too.
    lemma Posted(c: Chan)
      requires Valid() && IsChan(cfg, c)
      ensures c.src < |actors| && c.dst < |actors|
      ensures var eager := cfg.useEager(SendAct(cfg, c).nelems);
              && (eager && SendKey(c) in actors[c.src].started && Event<E>.Inject(c) !in log ==> c in net.reqs)
              && (!eager && c in net.reqs ==> SendKey(c) in actors[c.src].started && RecvKey(c) in actors[c.dst].started)
    {
      hide Matched, IsRun, After, Shaped, Fits, Called, AllPlay;
      FirstMessage(cfg, steps, c);
      Fitting();
      FitsLength();
      Outcome(c.src);
      Outcome(c.dst);
      if Event<E>.Inject(c) !in log {
        if Step<E>.Release(c) in steps { ReadIsInjected(cfg, Now(), c); }
        PostedAtOnce(cfg, steps, c);
      }
      ReqsAre(cfg, Now(), c);
    }

    lemma FitsLength()
      requires Valid()
      ensures |actors| == cfg.n
    {
    }

    // Nothing is delivered to a rank that has completed.
    lemma NotLate(r: nat, m: Msg<E>)
      requires Valid() && r < cfg.n && AddressedTo(cfg, r, m)
      requires if m.RdmaMsg? then m.p in actors[r].landed else InNet(net, m)
      ensures !actors[r].complete
    {
      hide Matched, IsRun, After, Hosts, Total, Kept, Trail, Callers, Outer;
      var g := After(cfg, steps);
      Outcome(r);
      if m.RdmaMsg? { InQueueIs(cfg, actors[r], r, g.ranks[r], m.p); } else { StillThere(net, Total(Kept(cfg.n, log)), m); }
      if actors[r].complete { CompleteIsQuiet(cfg, steps, r); }
    }

    lemma NoneLanded(r: nat)
      requires Valid() && r < cfg.n && r !in live
      ensures actors[r].landed == multiset{}
    {
      hide Matched, IsRun, After, Hosts, Total;
      PlaysLive(cfg, actors[r], r, After(cfg, steps).ranks[r]);
    }

    // When nothing can happen any more, every rank has completed and no actor has
    // reached an abort: for matched DAGs without waiting in a circle.
    lemma StuckIsDone()
      requires Valid() && Closed(cfg) && NoEmptyDag(cfg) && Acyclic(cfg, false)
      requires forall e :: !Possible(e)
      ensures forall r: nat {:trigger actors[r]} :: r < cfg.n ==> actors[r].complete && !actors[r].fault
    {
      hide Matched, Closed, NoEmptyDag, Acyclic, Control, LedgerOk, Possible, IsRun, After, Shaped, Fits, Plays, Hosts, CanHappen;
      var lg := RunControl(cfg, steps);
      Fitting();
      if !AllComplete(After(cfg, steps)) {
        var e := SomeEvent(cfg, lg, Now());
        PossibleIs(e);
      }
      AllDone();
    }

    lemma AllDone()
      requires Valid() && AllComplete(After(cfg, steps))
      ensures forall r: nat {:trigger actors[r]} :: r < cfg.n ==> actors[r].complete && !actors[r].fault
    {
      hide Matched, IsRun, After, Shaped, Plays, Hosts, Kept, Trail, Total, Outer;
      forall r: nat | r < cfg.n ensures actors[r].complete && !actors[r].fault {
        Outcome(r);
        NoAbort(cfg, steps, r);
        PlaysLive(cfg, actors[r], r, After(cfg, steps).ranks[r]);
      }
    }
  }

  // An actor at rest, or not started, can do nothing on its own.
  lemma SeatAtRest<E(!new)>(cfg: Config<E>, actor: DagCollectiveActor<E>, r: nat, st: Rank<E>, s: Inner<E>)
    requires Shaped(cfg) && r < cfg.n && Plays(cfg, actor, r, st)
    ensures !Can(cfg, r, st, s)
  {
    PlaysLive(cfg, actor, r, st);
    if st.begun { actor.Rests(); }
  }

  // A polled completion is in its actor's completion queue.
  lemma InQueueIs<E(!new)>(cfg: Config<E>, actor: DagCollectiveActor<E>, r: nat, st: Rank<E>, p: Pay<E>)
    requires Shaped(cfg) && r < cfg.n && Plays(cfg, actor, r, st) && !p.eager
    ensures p in actor.landed <==> p in st.payQ
  {
    hide Shaped;
    PlaysLive(cfg, actor, r, st);
    assert p in Held(actor.kept, actor.limbo, actor.landed) <==> p in actor.kept || p in actor.limbo || p in actor.landed;
  }

  lemma KeptFor<E(!new)>(cfg: Config<E>, id: Id, engine: CollectiveEngine<E>, actor: DagCollectiveActor<E>, r: nat,
                         st: Rank<E>, early: seq<Msg<E>>)
    requires Hosts(cfg, id, engine, actor, r, st, early)
    ensures forall m :: m in early ==> AddressedTo(cfg, r, m) && !m.RdmaMsg?
    ensures st.begun ==> early == []
  {
  }

  // An actor that has not just completed stays in its engine.
  lemma SameHost<E(!new)>(cfg: Config<E>, id: Id, engine: CollectiveEngine<E>, actor: DagCollectiveActor<E>, r: nat,
                          st: Rank<E>, st': Rank<E>, early: seq<Msg<E>>)
    requires Hosts(cfg, id, engine, actor, r, st, early) && st'.begun == st.begun && st'.complete == st.complete
    ensures Hosts(cfg, id, engine, actor, r, st', early)
  {
  }

  lemma AtFirst<E(!new)>(cfg: Config<E>, id: Id, engines: seq<CollectiveEngine<E>>, actors: seq<DagCollectiveActor<E>>,
                         early: seq<seq<Msg<E>>>)
    requires Shaped(cfg) && |actors| == |engines| == |early| == cfg.n
    requires forall r: nat :: r < cfg.n ==> Launches.Prepared(cfg, r, actors[r])
    requires forall r: nat :: r < cfg.n ==> engines[r].collectives == map[] && engines[r].pending == map[]
    requires forall r :: 0 <= r < cfg.n ==> early[r] == []
    ensures IsRun(cfg, []) && After(cfg, []) == Init(cfg) && Init(cfg).net == Plus(NoMsgs(), Total(early)) && Called({}, Init(cfg))
    ensures AllPlay(cfg, id, engines, actors, Init(cfg), early, -1)
  {
    hide Shaped, Total;
    NothingKept(early);
    NoneAdded<E>(NoMsgs());
    forall r: nat | r < cfg.n ensures Plays(cfg, actors[r], r, Init(cfg).ranks[r]) { Launches.FreshView(actors[r]); }
  }

  // The actor a call starts.
  lemma CanStart<E(!new)>(cfg: Config<E>, r: nat, actor: DagCollectiveActor<E>)
    requires Launches.Prepared(cfg, r, actor)
    ensures actor.Building() && Shaped(actor.cfg) && actor.me < actor.cfg.n == |actor.cfg.dag| == |actor.cfg.ptrs|
    ensures actor.acts == actor.cfg.dag[actor.me].acts && actor.pre == actor.cfg.dag[actor.me].pre
  {
  }

  lemma OneRankOut<E(!new)>(net: Net<E>, early: seq<seq<Msg<E>>>, r: nat)
    requires r < |early|
    ensures Plus(net, Total(early)) == Plus(Plus(net, Total(early[r := []])), Of(early[r]))
  {
    hide Total, Of;
    Share(early, r);
    PlusAssoc(net, Total(early[r := []]), Of(early[r]));
  }

  lemma StillThere<E(!new)>(net: Net<E>, kept: Net<E>, m: Msg<E>)
    requires !m.RdmaMsg? ==> InNet(net, m)
    ensures !m.RdmaMsg? ==> InNet(Plus(net, kept), m)
    ensures Without(Plus(net, kept), m) == Plus(Without(net, m), kept)
  {
    if !m.RdmaMsg? { WithoutPlus(net, kept, m); }
  }

  lemma Injects<E(!new)>(g: Global<E>, net: Net<E>, kept: Net<E>, c: Chan, p: Pay<E>)
    requires g.net == Plus(net, kept) && c in net.reqs
    ensures DoRelease(g, c, p).net == Plus(DoRelease(Global([], net), c, p).net, kept)
  {
  }

  lemma InPlus<E(!new)>(net: Net<E>, kept: Net<E>, c: Chan)
    requires c in net.reqs
    ensures c in Plus(net, kept).reqs
  {
  }

  lemma SomeBuffer<E(!new)>(cfg: Config<E>, r: nat)
    requires Shaped(cfg) && r < cfg.n
    ensures r < |cfg.ptrs|
  {
  }

  lemma CanInject<E(!new)>(cfg: Config<E>, g: Global<E>, c: Chan, p: Pay<E>)
    requires Shaped(cfg) && |g.ranks| == cfg.n && c in g.net.reqs && c.src < cfg.n
    requires SendKey(c) in cfg.dag[c.src].acts && cfg.dag[c.src].acts[SendKey(c)].SendAction?
    requires var a := cfg.dag[c.src].acts[SendKey(c)];
             p == Pay(c, cfg.useEager(a.nelems), ReadSpan(g.ranks[c.src].mem, SendSpan(cfg.ptrs[c.src], a)))
    ensures Enabled(cfg, g, Step.Release(c)) && Do(cfg, g, Step.Release(c)) == DoRelease(g, c, p)
  {
    hide ReadSpan, SendSpan;
  }

  lemma CanLand<E(!new)>(cfg: Config<E>, g: Global<E>, net: Net<E>, kept: Net<E>, p: Pay<E>)
    requires Shaped(cfg) && |g.ranks| == cfg.n && g.net == Plus(net, kept) && p in net.pays && !p.eager && p.chan.dst < cfg.n
    requires RecvKey(p.chan) in cfg.dag[p.chan.dst].acts
    ensures Enabled(cfg, g, Land(p))
    ensures var r, left := p.chan.dst, net.(pays := net.pays - multiset{p});
            var st := Landing(cfg, r, p, g.ranks[r]);
            && Do(cfg, g, Land(p)) == Put(g, r, st, Plus(left, kept))
            && st.begun == g.ranks[r].begun && st.complete == g.ranks[r].complete
  {
    hide WriteSpan, LandSpan;
    MinusPlus(net.pays, kept.pays, p);
  }

  // Rank r with the payload p in memory and its completion waiting.
  ghost function Landing<E(!new)>(cfg: Config<E>, r: nat, p: Pay<E>, st: Rank<E>): Rank<E>
    requires Shaped(cfg) && r < cfg.n && RecvKey(p.chan) in cfg.dag[r].acts
  {
    assert cfg.dag[r].acts[RecvKey(p.chan)].Id() == RecvKey(p.chan);
    st.(payQ := st.payQ + multiset{p}, mem := WriteSpan(st.mem, LandSpan(cfg.ptrs[r], cfg.dag[r].acts[RecvKey(p.chan)]), p.data))
  }

  lemma PlaysActs<E(!new)>(cfg: Config<E>, actor: DagCollectiveActor<E>, r: nat, st: Rank<E>)
    requires Shaped(cfg) && r < cfg.n && Plays(cfg, actor, r, st)
    ensures actor.acts == cfg.dag[r].acts && actor.mem == st.mem
  {
  }

  method WriteSeat<E(==,!new)>(cfg: Config<E>, id: Id, engine: CollectiveEngine<E>, actor: DagCollectiveActor<E>, r: nat,
                               ghost st: Rank<E>, ghost early: seq<Msg<E>>, p: Pay<E>)
    requires Shaped(cfg) && r < cfg.n && Plays(cfg, actor, r, st) && Hosts(cfg, id, engine, actor, r, st, early) && st.begun
    requires !p.eager && p.chan.dst == r && RecvKey(p.chan) in cfg.dag[r].acts
    modifies actor
    ensures var st' := Landing(cfg, r, p, st);
            Plays(cfg, actor, r, st') && Hosts(cfg, id, engine, actor, r, st', early) && st'.begun
  {
    hide WriteSpan, Shaped, Hosts;
    actor.Arrive(p);
    SameHost(cfg, id, engine, actor, r, st, Landing(cfg, r, p, st), early);
  }

  lemma CanReceive<E(!new)>(cfg: Config<E>, g: Global<E>, r: nat, m: Msg<E>, actor: DagCollectiveActor<E>)
    requires Shaped(cfg) && |g.ranks| == cfg.n && r < cfg.n && AddressedTo(cfg, r, m) && actor.View() == g.ranks[r] && actor.begun
    requires if m.RdmaMsg? then m.p in actor.landed else InNet(g.net, m)
    ensures Enabled(cfg, g, Delivery(m))
    ensures Plus(g.net, NoMsgs()) == g.net && Plus(Without(g.net, m), NoMsgs()) == Without(g.net, m)
  {
    PlusAssoc(g.net, NoMsgs(), NoMsgs());
    PlusAssoc(Without(g.net, m), NoMsgs(), NoMsgs());
    if !m.RdmaMsg? { Deliverable(cfg, g, r, m); }
  }
}
