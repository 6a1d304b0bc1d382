// What has happened to a collective, as a value: the events that took place, the
// run of the system they have led to, and the messages in the network.  What
// events can do is said here once, for every way of carrying them out.
module Scenes {
  import opened Actions
  import opened Protocol
  import opened Schedule
  import opened Invariant
  import opened LocalSteps
  import opened Engine
  import opened EngineRuns
  import opened ControlSteps
  import opened Conservation
  import opened WaitGraphs
  import opened Liveness
  import opened EarlyMessages
  import Powers
  import Safety

  // What can happen to the ranks from outside.
  datatype Event<!E(==,!new)> =
    | Call(r: nat)               // rank r calls the collective
    | Deliver(r: nat, m: Msg<E>) // a message, or a polled completion, is given to the engine of rank r
    | Inject(c: Chan)            // the NIC of the sender reads a posted transfer's data
    | Write(p: Pay<E>)           // the NIC of the receiver writes an RDMA payload

  datatype Scene<!E(==,!new)> = Scene(log: seq<Event<E>>, steps: seq<Step<E>>, net: Net<E>)

  // Before anything has happened.
  function Opening<E(==,!new)>(): Scene<E> { Scene([], [], NoMsgs()) }

  // ---------- what the events say ----------

  // The ranks that have called.
  function Callers<E(==,!new)>(log: seq<Event<E>>): set<nat> { set e | e in log && e.Call? :: e.r }

  // What the engines keep: messages given to ranks that had not called, in order,
  // until they call.
  ghost function Kept<E(!new)>(n: nat, log: seq<Event<E>>): (early: seq<seq<Msg<E>>>)
    ensures |early| == n
  {
    if log == [] then seq(n, _ => [])
    else
      var before := Kept(n, log[..|log| - 1]);
      match log[|log| - 1]
      case Call(r) => if r < n then before[r := []] else before
      case Deliver(r, m) => if r < n && r !in Callers(log[..|log| - 1]) then before[r := before[r] + [m]] else before
      case _ => before
  }

  // The steps the system is to take for the last event after the others: none for
  // a message that is kept; a call is followed by what was kept for the rank.
  ghost function Due<E(!new)>(n: nat, log: seq<Event<E>>, e: Event<E>): seq<Step<E>> {
    match e
    case Call(r) => [Step<E>.Begin(r)] + Deliveries(if r < n then Kept(n, log)[r] else [])
    case Deliver(r, m) => if r in Callers(log) then [Delivery(m)] else []
    case Inject(c) => [Step<E>.Release(c)]
    case Write(p) => [Land(p)]
  }

  ghost function Trail<E(!new)>(n: nat, log: seq<Event<E>>): seq<Step<E>> {
    if log == [] then [] else Trail(n, log[..|log| - 1]) + Due(n, log[..|log| - 1], log[|log| - 1])
  }

  lemma LogMore<E(!new)>(n: nat, log: seq<Event<E>>, e: Event<E>)
    ensures Trail(n, log + [e]) == Trail(n, log) + Due(n, log, e)
    ensures Callers(log + [e]) == Callers(log) + if e.Call? then {e.r} else {}
    ensures e.Call? && e.r < n ==> Kept(n, log + [e]) == Kept(n, log)[e.r := []]
    ensures e.Deliver? && e.r < n && e.r !in Callers(log) ==>
              Kept(n, log + [e]) == Kept(n, log)[e.r := Kept(n, log)[e.r] + [e.m]]
    ensures e.Deliver? && e.r in Callers(log) ==> Kept(n, log + [e]) == Kept(n, log)
    ensures e.Inject? || e.Write? ==> Kept(n, log + [e]) == Kept(n, log)
  {
    var all := log + [e];
    assert all[..|all| - 1] == log && all[|all| - 1] == e;
    assert forall d :: d in all <==> d in log || d == e;
    if e.Call? { assert e in all; }
  }

  // ---------- scenes ----------

  // The events have led there: apart from what ranks do on their own, the run has
  // just the steps the events are for; and no rank has anything left to do.
  ghost predicate Fits<E(!new)>(cfg: Config<E>, x: Scene<E>)
    requires Shaped(cfg)
  {
    && IsRun(cfg, x.steps) && Outer(x.steps) == Trail(cfg.n, x.log)
    && After(cfg, x.steps).net == Plus(x.net, Total(Kept(cfg.n, x.log)))
    && (forall r: nat :: r < cfg.n ==> Rests(cfg, x, r))
    && forall r: nat, m {:trigger m in Kept(cfg.n, x.log)[r]} :: r < cfg.n && m in Kept(cfg.n, x.log)[r] ==>
         AddressedTo(cfg, r, m) && !m.RdmaMsg? && r !in Callers(x.log)
  }

  ghost predicate Rests<E(!new)>(cfg: Config<E>, x: Scene<E>, r: nat)
    requires Shaped(cfg) && r < cfg.n && IsRun(cfg, x.steps)
  {
    var st := After(cfg, x.steps).ranks[r];
    Quiescent(cfg, r, st) && (r in Callers(x.log) <==> st.begun) && (!st.begun ==> st == InitRank(cfg, r))
  }

  lemma FitsBy<E(!new)>(cfg: Config<E>, x: Scene<E>)
    requires Shaped(cfg) && IsRun(cfg, x.steps) && Outer(x.steps) == Trail(cfg.n, x.log)
    requires After(cfg, x.steps).net == Plus(x.net, Total(Kept(cfg.n, x.log)))
    requires forall r: nat :: r < cfg.n ==> Rests(cfg, x, r)
    requires forall r: nat, m {:trigger m in Kept(cfg.n, x.log)[r]} :: r < cfg.n && m in Kept(cfg.n, x.log)[r] ==>
               AddressedTo(cfg, r, m) && !m.RdmaMsg? && r !in Callers(x.log)
    ensures Fits(cfg, x)
  {
    hide Shaped, IsRun, After, Total, Kept, Rests, Outer, Trail, AddressedTo, Plus;
  }

  ghost predicate CanHappen<E(!new)>(cfg: Config<E>, x: Scene<E>, e: Event<E>)
    requires Shaped(cfg) && IsRun(cfg, x.steps)
  {
    match e
    case Call(r) => r < cfg.n && r !in Callers(x.log)
    case Deliver(r, m) =>
      && r < cfg.n && AddressedTo(cfg, r, m)
      && if m.RdmaMsg? then m.p in After(cfg, x.steps).ranks[r].payQ else InNet(x.net, m)
    case Inject(c) =>
      && c.src < cfg.n && c in x.net.reqs
      && SendKey(c) in cfg.dag[c.src].acts && cfg.dag[c.src].acts[SendKey(c)].SendAction?
    case Write(p) =>
      && p.chan.dst < cfg.n && p.chan.dst in Callers(x.log) && p in x.net.pays && !p.eager
      && RecvKey(p.chan) in cfg.dag[p.chan.dst].acts
  }

  // The event takes place, or is passed over if it cannot.
  ghost predicate Next<E(!new)>(cfg: Config<E>, x: Scene<E>, e: Event<E>, y: Scene<E>)
    requires Shaped(cfg) && Fits(cfg, x)
  {
    Fits(cfg, y) && if CanHappen(cfg, x, e) then y.log == x.log + [e] && x.steps <= y.steps else y == x
  }

  // The events, one after the other, lead from x to y.
  ghost predicate Leads<E(!new)>(cfg: Config<E>, x: Scene<E>, events: seq<Event<E>>, y: Scene<E>)
    requires Shaped(cfg)
    decreases |events|
  {
    if events == [] then y == x
    else
      exists mid :: Leads(cfg, x, events[..|events| - 1], mid) && Fits(cfg, mid) && Next(cfg, mid, events[|events| - 1], y)
  }

  lemma LeadsNowhere<E(!new)>(cfg: Config<E>, x: Scene<E>)
    requires Shaped(cfg)
    ensures Leads(cfg, x, [], x)
  {
  }

  lemma LeadsMore<E(!new)>(cfg: Config<E>, x: Scene<E>, events: seq<Event<E>>, mid: Scene<E>, e: Event<E>, y: Scene<E>)
    requires Shaped(cfg) && Leads(cfg, x, events, mid) && Fits(cfg, mid) && Next(cfg, mid, e, y)
    ensures Leads(cfg, x, events + [e], y)
  {
    hide Shaped, Fits, Next;
    var all := events + [e];
    assert all[..|all| - 1] == events && all[|all| - 1] == e;
  }

  lemma {:induction false} LeadsSplit<E(!new)>(cfg: Config<E>, x: Scene<E>, a: seq<Event<E>>, b: seq<Event<E>>, y: Scene<E>)
    returns (mid: Scene<E>)
    requires Shaped(cfg) && Leads(cfg, x, a + b, y)
    ensures Leads(cfg, x, a, mid) && Leads(cfg, mid, b, y)
    decreases |b|
  {
    hide Shaped, Fits, Next;
    var all := a + b;
    if b == [] {
      assert all == a;
      mid := y;
    } else {
      var front, e := b[..|b| - 1], b[|b| - 1];
      assert all[..|all| - 1] == a + front && all[|all| - 1] == e;
      var z :| Leads(cfg, x, all[..|all| - 1], z) && Fits(cfg, z) && Next(cfg, z, e, y);
      mid := LeadsSplit(cfg, x, a, front, z);
      LeadsMore(cfg, mid, front, z, e, y);
      assert front + [e] == b;
    }
  }

  // Exactly the ranks that are told to call have called.
  lemma {:induction false} CallsLead<E(!new)>(cfg: Config<E>, x: Scene<E>, events: seq<Event<E>>, y: Scene<E>)
    requires Shaped(cfg) && Fits(cfg, x) && Leads(cfg, x, events, y)
    ensures Fits(cfg, y) && Callers(y.log) == Callers(x.log) + set r: nat | r < cfg.n && Event<E>.Call(r) in events
    decreases |events|
  {
    hide Shaped, Fits, Callers, CanHappen, Kept, Trail, Due;
    if events != [] {
      var front, e := events[..|events| - 1], events[|events| - 1];
      var mid :| Leads(cfg, x, front, mid) && Fits(cfg, mid) && Next(cfg, mid, e, y);
      CallsLead(cfg, x, front, mid);
      assert events == front + [e];
      FitsRun(cfg, mid);
      if e.Call? { CallOk(cfg, mid, e); }
      if CanHappen(cfg, mid, e) { LogMore(cfg.n, mid.log, e); }
    }
  }

  lemma CallOk<E(!new)>(cfg: Config<E>, x: Scene<E>, e: Event<E>)
    requires Shaped(cfg) && IsRun(cfg, x.steps) && e.Call?
    ensures CanHappen(cfg, x, e) <==> e.r < cfg.n && e.r !in Callers(x.log)
  {
  }

  lemma FitsRun<E(!new)>(cfg: Config<E>, x: Scene<E>)
    requires Shaped(cfg) && Fits(cfg, x)
    ensures IsRun(cfg, x.steps)
  {
  }

  // A transfer is read by the NIC only where an event says so.
  lemma ReadIsInjected<E(!new)>(cfg: Config<E>, x: Scene<E>, c: Chan)
    requires Shaped(cfg) && Fits(cfg, x) && Step<E>.Release(c) in x.steps
    ensures Event<E>.Inject(c) in x.log
  {
    hide Shaped, IsRun, After, Total, Kept, Rests, Outer, Trail;
    InOuter(x.steps, Step<E>.Release(c));
    ReleaseInTrail(cfg.n, x.log, c);
  }

  lemma {:induction false} InOuter<E(!new)>(steps: seq<Step<E>>, s: Step<E>)
    requires s in steps && !Own(s)
    ensures s in Outer(steps)
    decreases |steps|
  {
    if s in steps[..|steps| - 1] { InOuter(steps[..|steps| - 1], s); }
  }

  lemma {:induction false} ReleaseInTrail<E(!new)>(n: nat, log: seq<Event<E>>, c: Chan)
    requires Step<E>.Release(c) in Trail(n, log)
    ensures Event<E>.Inject(c) in log
    decreases |log|
  {
    hide Kept;
    var front, e := log[..|log| - 1], log[|log| - 1];
    if Step<E>.Release(c) in Trail(n, front) {
      ReleaseInTrail(n, front, c);
    } else {
      assert e in log;
      if e.Call? && e.r < n { NoReleases(Kept(n, front)[e.r], c); }
    }
  }

  lemma {:induction false} NoReleases<E(!new)>(msgs: seq<Msg<E>>, c: Chan)
    ensures Step<E>.Release(c) !in Deliveries(msgs)
    decreases |msgs|
  {
    if msgs != [] { NoReleases(msgs[..|msgs| - 1], c); }
  }

  // ---------- every event uses something up ----------

  function Size<E(==,!new)>(net: Net<E>): nat { |net.hdrs| + |net.reqs| + |net.pays| + |net.acks| }

  // Steps still to be taken count more than messages still in flight.
  ghost function Measure(most: nat, done: int, size: int): int { (most - done) * (most + 1) + size }

  lemma MeasureFalls(most: nat, done: nat, size: nat, done': nat, size': nat)
    requires done <= done' <= most && size' <= most
    ensures Measure(most, done', size') >= 0
    ensures done < done' || (done == done' && size' < size) ==> Measure(most, done', size') < Measure(most, done, size)
  {
    if done < done' { Powers.Multiples(most - done' + 1, most - done, most + 1); }
  }

  // How much can still happen.
  ghost function Left<E(!new)>(cfg: Config<E>, x: Scene<E>): int
    requires Shaped(cfg)
  {
    Measure(Budget(cfg, Init(cfg)), |x.steps|, Size(x.net))
  }

  // A bounded number of steps has been taken, and not more is in flight.
  lemma LeftBound<E(!new)>(cfg: Config<E>, x: Scene<E>)
    requires Shaped(cfg) && Fits(cfg, x)
    ensures |x.steps| <= Budget(cfg, Init(cfg)) && Size(x.net) <= Budget(cfg, Init(cfg)) && Left(cfg, x) >= 0
  {
    hide Shaped, IsRun, After, Total, Budget, Size, Measure, Outer, Trail, Kept, Rests, Plus;
    RunsTerminate(cfg, x.steps);
    SizeBound(cfg, After(cfg, x.steps), x.net, Total(Kept(cfg.n, x.log)));
    MeasureFalls(Budget(cfg, Init(cfg)), |x.steps|, Size(x.net), |x.steps|, Size(x.net));
  }

  lemma SizeBound<E(!new)>(cfg: Config<E>, g: Global<E>, net: Net<E>, kept: Net<E>)
    requires Shaped(cfg) && |g.ranks| == cfg.n && g.net == Plus(net, kept)
    ensures Size(net) <= Budget(cfg, g)
  {
    hide Shaped, RankBudget;
  }

  lemma NextFalls<E(!new)>(cfg: Config<E>, x: Scene<E>, e: Event<E>, y: Scene<E>)
    requires Shaped(cfg) && Fits(cfg, x) && Next(cfg, x, e, y)
    ensures Fits(cfg, y) && if CanHappen(cfg, x, e) then Left(cfg, y) < Left(cfg, x) else y == x
  {
    hide Shaped, Fits, Total, Budget, Size, Measure, Outer, Trail, Kept, Due, AddressedTo;
    FitsRun(cfg, x);
    if CanHappen(cfg, x, e) {
      LeftBound(cfg, x);
      LeftBound(cfg, y);
      if |x.steps| == |y.steps| {
        assert x.steps == y.steps;
        KeptOne(cfg, x, e, y);
      }
      MeasureFalls(Budget(cfg, Init(cfg)), |x.steps|, Size(x.net), |y.steps|, Size(y.net));
    }
  }

  // An event without a step has taken a message out of the network to be kept.
  lemma KeptOne<E(!new)>(cfg: Config<E>, x: Scene<E>, e: Event<E>, y: Scene<E>)
    requires Shaped(cfg) && Fits(cfg, x) && Fits(cfg, y) && CanHappen(cfg, x, e) && y.log == x.log + [e] && y.steps == x.steps
    ensures Size(y.net) < Size(x.net)
  {
    hide Shaped, IsRun, After, Total, Outer, Trail, Kept, Rests, AddressedTo, Plus, Size, Just;
    LogMore(cfg.n, x.log, e);
    assert Due(cfg.n, x.log, e) == [];
    assert e.Deliver? && e.r !in Callers(x.log);
    NotLanded(cfg, x, e.r);
    KeepMore(Kept(cfg.n, x.log), e.r, e.m);
    OneLess(x.net, y.net, Total(Kept(cfg.n, x.log)), e.m);
  }

  lemma OneLess<E(!new)>(x: Net<E>, y: Net<E>, t: Net<E>, m: Msg<E>)
    requires Plus(x, t) == Plus(y, Plus(t, Just(m))) && !m.RdmaMsg?
    ensures Size(y) < Size(x)
  {
    var a, b := Plus(x, t), Plus(y, Plus(t, Just(m)));
    assert |a.hdrs| == |b.hdrs| && |a.reqs| == |b.reqs| && |a.pays| == |b.pays| && |a.acks| == |b.acks|;
  }

  // A rank that has not called has no payload in memory.
  lemma NotLanded<E(!new)>(cfg: Config<E>, x: Scene<E>, r: nat)
    requires Shaped(cfg) && Fits(cfg, x) && r < cfg.n && r !in Callers(x.log)
    ensures forall p :: p !in After(cfg, x.steps).ranks[r].payQ
  {
    assert Rests(cfg, x, r);
  }
}
