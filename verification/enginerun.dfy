// Systems of actors are the systems of module Protocol: delivering a message to
// an actor, with everything the actor then does, extends a run of the system.
module EngineRuns {
  import opened Actions
  import opened Protocol
  import opened Schedule
  import opened LocalSteps
  import opened Engine

  // The system step that takes m to its rank.
  ghost function Delivery<E(!new)>(m: Msg<E>): Step<E> {
    match m
    case EagerMsg(p) => EagerIn(p)
    case HeaderMsg(c) => NetHdr(c)
    case RdmaMsg(p) => Landed(p)
    case AckMsg(c) => AckIn(c)
  }

  // The network without m (a polled completion is no longer in the network).
  function Without<E(==,!new)>(net: Net<E>, m: Msg<E>): Net<E> {
    match m
    case EagerMsg(p) => net.(pays := net.pays - multiset{p})
    case HeaderMsg(c) => net.(hdrs := net.hdrs - multiset{c})
    case RdmaMsg(p) => net
    case AckMsg(c) => net.(acks := net.acks - multiset{c})
  }

  lemma DeliveredIsDo<E(!new)>(cfg: Config<E>, g: Global<E>, r: nat, m: Msg<E>)
    requires Shaped(cfg) && |g.ranks| == cfg.n && r < cfg.n && AddressedTo(cfg, r, m) && Enabled(cfg, g, Delivery(m))
    ensures var b := Delivered(cfg, r, Local(g.ranks[r], Without(g.net, m)), m);
            Do(cfg, g, Delivery(m)) == Put(g, r, b.st, b.out)
  {
  }

  ghost function Shift<E(!new)>(x: Net<E>, a: Local<E>): Local<E> { Local(a.st, Plus(x, a.out)) }

  lemma PlusAssoc<E(!new)>(a: Net<E>, b: Net<E>, c: Net<E>)
    ensures Plus(Plus(a, b), c) == Plus(a, Plus(b, c)) && Plus(a, NoMsgs()) == a
  {
    assert Plus(Plus(a, b), c).hdrs == Plus(a, Plus(b, c)).hdrs;
    assert Plus(Plus(a, b), c).reqs == Plus(a, Plus(b, c)).reqs;
    assert Plus(Plus(a, b), c).pays == Plus(a, Plus(b, c)).pays;
    assert Plus(Plus(a, b), c).acks == Plus(a, Plus(b, c)).acks;
  }

  lemma ShiftOne<E(!new)>(cfg: Config<E>, r: nat, x: Net<E>, a: Local<E>, b: Local<E>)
    requires Shaped(cfg) && r < cfg.n && One(cfg, r, a, b)
    ensures One(cfg, r, Shift(x, a), Shift(x, b))
  {
    hide Plus, Launch, LaunchMsgs, HandleEager, HandleHdr, HdrMsgs, Finish;
    var s: Inner<E> :| Can(cfg, r, a.st, s) && b == Take(cfg, r, a, s);
    match s {
      case Go(k) => PlusAssoc(x, a.out, LaunchMsgs(cfg, r, k));
      case Hdr(c) => PlusAssoc(x, a.out, HdrMsgs(cfg, a.st.(hdrQ := a.st.hdrQ - multiset{c}), c));
      case Eager(p) =>
      case End =>
    }
    assert Shift(x, b) == Take(cfg, r, Shift(x, a), s);
  }

  // What a rank does does not depend on the messages already in flight.
  lemma ShiftReaches<E(!new)>(cfg: Config<E>, r: nat, x: Net<E>, a: Local<E>, b: Local<E>)
    requires Shaped(cfg) && r < cfg.n && Reaches(cfg, r, a, b)
    ensures Reaches(cfg, r, Shift(x, a), Shift(x, b))
  {
    var tr: seq<Local<E>> :| Trace(cfg, r, tr) && tr[0] == a && tr[|tr| - 1] == b;
    var sh := seq(|tr|, i requires 0 <= i < |tr| => Shift(x, tr[i]));
    forall i | 0 < i < |sh| ensures One(cfg, r, sh[i - 1], sh[i]) {
      ShiftOne(cfg, r, x, tr[i - 1], tr[i]);
    }
    assert Trace(cfg, r, sh) && sh[0] == Shift(x, a) && sh[|sh| - 1] == Shift(x, b);
  }

  lemma ShiftDelivered<E(!new)>(cfg: Config<E>, r: nat, x: Net<E>, a: Local<E>, m: Msg<E>)
    requires Shaped(cfg) && r < cfg.n
    ensures Delivered(cfg, r, Shift(x, a), m) == Shift(x, Delivered(cfg, r, a, m))
  {
    hide Plus, HandleEager, HandleHdr, HdrMsgs, HandleLanded, HandleAck;
    match m {
      case HeaderMsg(c) => PlusAssoc(x, a.out, HdrMsgs(cfg, a.st, c));
      case _ =>
    }
  }

  // m is in x, and its rank can take it.
  predicate InNet<E(==,!new)>(x: Net<E>, m: Msg<E>) {
    match m
    case EagerMsg(p) => p in x.pays
    case HeaderMsg(c) => c in x.hdrs
    case RdmaMsg(p) => false
    case AckMsg(c) => c in x.acks
  }

  lemma MinusPlus<T>(a: multiset<T>, b: multiset<T>, x: T)
    requires x in a
    ensures a + b - multiset{x} == (a - multiset{x}) + b
  {
  }

  lemma WithoutPlus<E(!new)>(x: Net<E>, y: Net<E>, m: Msg<E>)
    requires InNet(x, m)
    ensures Without(Plus(x, y), m) == Plus(Without(x, m), y) && InNet(Plus(x, y), m)
  {
    match m {
      case EagerMsg(p) => MinusPlus(x.pays, y.pays, p);
      case HeaderMsg(c) => MinusPlus(x.hdrs, y.hdrs, c);
      case RdmaMsg(p) =>
      case AckMsg(c) => MinusPlus(x.acks, y.acks, c);
    }
  }

  lemma Deliverable<E(!new)>(cfg: Config<E>, g: Global<E>, r: nat, m: Msg<E>)
    requires Shaped(cfg) && |g.ranks| == cfg.n && r < cfg.n && AddressedTo(cfg, r, m) && InNet(g.net, m) && g.ranks[r].begun
    ensures Enabled(cfg, g, Delivery(m))
  {
  }

  // The actor of rank r, in state a, is given a message m that is in flight
  // among the messages x of the others, and ends in state b.  The outcome is
  // that of a run of the system.
  lemma DeliverIsRun<E(!new)>(cfg: Config<E>, steps: seq<Step<E>>, r: nat, x: Net<E>, a: Local<E>, m: Msg<E>, b: Local<E>)
    returns (all: seq<Step<E>>)
    requires Shaped(cfg) && IsRun(cfg, steps) && r < cfg.n && AddressedTo(cfg, r, m)
    requires After(cfg, steps).ranks[r] == a.st && After(cfg, steps).net == Plus(x, a.out)
    requires Without(Plus(x, a.out), m) == Plus(Without(x, m), a.out) && Enabled(cfg, After(cfg, steps), Delivery(m))
    requires Reaches(cfg, r, Delivered(cfg, r, a, m), b)
    ensures IsRun(cfg, all) && steps + [Delivery(m)] <= all && Outer(all) == Outer(steps) + [Delivery(m)]
    ensures After(cfg, all) == Put(After(cfg, steps), r, b.st, Plus(Without(x, m), b.out))
  {
    hide HandleEager, HandleHdr, HdrMsgs, HandleLanded, HandleAck;
    hide Enabled, Do, Plus, Delivered, Reaches, Without, AddressedTo, IsRun, After, Outer;
    var g, rest := After(cfg, steps), Without(x, m);
    DeliveredIsDo(cfg, g, r, m);
    ShiftDelivered(cfg, r, rest, a, m);
    ShiftReaches(cfg, r, rest, Delivered(cfg, r, a, m), b);
    RunMore(cfg, steps, Delivery(m));
    OuterMore(steps, Delivery(m));
    all := ReachesIsRun(cfg, steps + [Delivery(m)], r, Shift(rest, b));
    PutPut(g, r, Shift(rest, Delivered(cfg, r, a, m)), Shift(rest, b));
  }

  // Starting an actor, likewise.
  lemma StartIsRun<E(!new)>(cfg: Config<E>, steps: seq<Step<E>>, r: nat, b: Local<E>) returns (all: seq<Step<E>>)
    requires Shaped(cfg) && IsRun(cfg, steps) && r < cfg.n && !After(cfg, steps).ranks[r].begun
    requires Reaches(cfg, r, Local(After(cfg, steps).ranks[r].(begun := true), NoMsgs()), b)
    ensures IsRun(cfg, all) && steps + [Begin(r)] <= all && Outer(all) == Outer(steps) + [Step<E>.Begin(r)]
    ensures After(cfg, all) == Put(After(cfg, steps), r, b.st, Plus(After(cfg, steps).net, b.out))
  {
    hide Plus, Reaches, IsRun, After, Outer;
    var g := After(cfg, steps);
    var a := Local(g.ranks[r].(begun := true), NoMsgs());
    PlusAssoc(g.net, NoMsgs(), NoMsgs());
    ShiftReaches(cfg, r, g.net, a, b);
    RunMore(cfg, steps, Begin(r));
    OuterMore(steps, Step<E>.Begin(r));
    all := ReachesIsRun(cfg, steps + [Begin(r)], r, Shift(g.net, b));
    PutPut(g, r, Shift(g.net, a), Shift(g.net, b));
  }

  // ---------- messages that arrived early ----------

  // From a, after its own steps, the rank is given msgs one by one.
  ghost predicate Serves<E(!new)>(cfg: Config<E>, r: nat, a: Local<E>, msgs: seq<Msg<E>>, b: Local<E>)
    requires Shaped(cfg) && r < cfg.n
    decreases |msgs|
  {
    if msgs == [] then Reaches(cfg, r, a, b)
    else
      exists mid: Local<E> {:trigger Delivered(cfg, r, mid, msgs[|msgs| - 1])} ::
        Serves(cfg, r, a, msgs[..|msgs| - 1], mid) && Reaches(cfg, r, Delivered(cfg, r, mid, msgs[|msgs| - 1]), b)
  }

  lemma ServeOne<E(!new)>(cfg: Config<E>, r: nat, a: Local<E>, msgs: seq<Msg<E>>, mid: Local<E>, m: Msg<E>, b: Local<E>)
    requires Shaped(cfg) && r < cfg.n && Serves(cfg, r, a, msgs, mid) && Reaches(cfg, r, Delivered(cfg, r, mid, m), b)
    ensures Serves(cfg, r, a, msgs + [m], b)
  {
    var all := msgs + [m];
    assert all[..|all| - 1] == msgs && all[|all| - 1] == m;
    assert Reaches(cfg, r, Delivered(cfg, r, mid, all[|all| - 1]), b);
  }

  // The messages are all in x, each as often as it is served.
  ghost predicate AllIn<E(!new)>(x: Net<E>, msgs: seq<Msg<E>>)
    decreases |msgs|
  {
    msgs == [] || (AllIn(x, msgs[..|msgs| - 1]) && InNet(Minus(x, msgs[..|msgs| - 1]), msgs[|msgs| - 1]))
  }

  ghost function Minus<E(!new)>(x: Net<E>, msgs: seq<Msg<E>>): Net<E>
    decreases |msgs|
  {
    if msgs == [] then x else Without(Minus(x, msgs[..|msgs| - 1]), msgs[|msgs| - 1])
  }

  lemma {:induction false} ServedBegun<E(!new)>(cfg: Config<E>, r: nat, a: Local<E>, msgs: seq<Msg<E>>, b: Local<E>)
    requires Shaped(cfg) && r < cfg.n && a.st.begun && Serves(cfg, r, a, msgs, b)
    ensures b.st.begun
    decreases |msgs|
  {
    hide Delivered, Reaches;
    if msgs == [] {
      ReachedBegun(cfg, r, a, b);
    } else {
      var mid: Local<E> :| Serves(cfg, r, a, msgs[..|msgs| - 1], mid) && Reaches(cfg, r, Delivered(cfg, r, mid, msgs[|msgs| - 1]), b);
      ServedBegun(cfg, r, a, msgs[..|msgs| - 1], mid);
      DeliveredBegun(cfg, r, mid, msgs[|msgs| - 1]);
      ReachedBegun(cfg, r, Delivered(cfg, r, mid, msgs[|msgs| - 1]), b);
    }
  }

  lemma DeliveredBegun<E(!new)>(cfg: Config<E>, r: nat, a: Local<E>, m: Msg<E>)
    requires Shaped(cfg) && r < cfg.n && a.st.begun
    ensures Delivered(cfg, r, a, m).st.begun
  {
  }

  lemma ReachedBegun<E(!new)>(cfg: Config<E>, r: nat, a: Local<E>, b: Local<E>)
    requires Shaped(cfg) && r < cfg.n && a.st.begun && Reaches(cfg, r, a, b)
    ensures b.st.begun
  {
    var tr: seq<Local<E>> :| Trace(cfg, r, tr) && tr[0] == a && tr[|tr| - 1] == b;
    var i := 1;
    while i < |tr|
      invariant 1 <= i <= |tr| && tr[i - 1].st.begun
    {
      assert One(cfg, r, tr[i - 1], tr[i]);
      i := i + 1;
    }
  }

  // The deliveries of msgs, in order.
  ghost function Deliveries<E(!new)>(msgs: seq<Msg<E>>): seq<Step<E>> {
    if msgs == [] then [] else Deliveries(msgs[..|msgs| - 1]) + [Delivery(msgs[|msgs| - 1])]
  }

  // A collective that starts with messages waiting for it, and serves them, is
  // in a state that a run of the system reaches.
  lemma {:induction false} ServesIsRun<E(!new)>(cfg: Config<E>, steps: seq<Step<E>>, r: nat, msgs: seq<Msg<E>>, b: Local<E>)
    returns (all: seq<Step<E>>)
    requires Shaped(cfg) && IsRun(cfg, steps) && r < cfg.n && !After(cfg, steps).ranks[r].begun
    requires AllIn(After(cfg, steps).net, msgs) && forall m :: m in msgs ==> AddressedTo(cfg, r, m)
    requires Serves(cfg, r, Local(After(cfg, steps).ranks[r].(begun := true), NoMsgs()), msgs, b)
    ensures IsRun(cfg, all) && steps + [Begin(r)] <= all
    ensures Outer(all) == Outer(steps) + [Step<E>.Begin(r)] + Deliveries(msgs)
    ensures After(cfg, all) == Put(After(cfg, steps), r, b.st, Plus(Minus(After(cfg, steps).net, msgs), b.out))
    decreases |msgs|
  {
    hide Plus, Reaches, IsRun, After, Delivered, AddressedTo, Enabled, Without, InNet, Outer, Delivery;
    var g := After(cfg, steps);
    var a := Local(g.ranks[r].(begun := true), NoMsgs<E>());
    if msgs == [] {
      all := StartIsRun(cfg, steps, r, b);
    } else {
      var front, m := msgs[..|msgs| - 1], msgs[|msgs| - 1];
      var mid: Local<E> :| Serves(cfg, r, a, front, mid) && Reaches(cfg, r, Delivered(cfg, r, mid, m), b);
      var more := ServesIsRun(cfg, steps, r, front, mid);
      var x := Minus(g.net, front);
      ServedBegun(cfg, r, a, front, mid);
      WithoutPlus(x, mid.out, m);
      Deliverable(cfg, After(cfg, more), r, m);
      all := DeliverIsRun(cfg, more, r, x, mid, m, b);
      PutPut(g, r, Local(mid.st, Plus(x, mid.out)), Local(b.st, Plus(Without(x, m), b.out)));
    }
  }
}
