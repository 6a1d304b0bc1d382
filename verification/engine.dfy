// The actor that executes one rank's DAG (DagCollectiveActor), as the object it
// is.  Its handlers are proved to take the rank-local steps of module Protocol,
// and to return only when none of them is left.
module Engine {
  import opened Actions
  import opened Protocol
  import opened Schedule
  import opened LocalSteps
  import opened Bookkeeping

  // What recv() distinguishes: an eager message, a rendezvous header, a polled
  // RDMA completion, an injection acknowledgement.
  datatype Msg<!E(==,!new)> = EagerMsg(p: Pay<E>) | HeaderMsg(c: Chan) | RdmaMsg(p: Pay<E>) | AckMsg(c: Chan)

  predicate AddressedTo<E(==,!new)>(cfg: Config<E>, r: nat, m: Msg<E>) {
    match m
    case EagerMsg(p) => p.eager && p.chan.dst == r
    case HeaderMsg(c) => HdrHome(cfg, c) == r
    case RdmaMsg(p) => !p.eager && p.chan.dst == r
    case AckMsg(c) => c.src == r
  }

  // The delivery of m, as the system takes it.
  ghost function Delivered<E(!new)>(cfg: Config<E>, r: nat, a: Local<E>, m: Msg<E>): Local<E>
    requires Shaped(cfg) && r < cfg.n
  {
    match m
    case EagerMsg(p) => Local(HandleEager(cfg, r, a.st, p), a.out)
    case HeaderMsg(c) => Local(HandleHdr(cfg, a.st, c), Plus(a.out, HdrMsgs(cfg, a.st, c)))
    case RdmaMsg(p) => Local(HandleLanded(cfg, r, a.st.(payQ := a.st.payQ - multiset{p}), p.chan), a.out)
    case AckMsg(c) => Local(HandleAck(a.st, c), a.out)
  }

  // Kept messages are for actions that are not active.
  ghost predicate KeptOk<E(!new)>(cfg: Config<E>, me: nat, active: set<Key>, hdrs: multiset<Chan>,
                                  kept: multiset<Pay<E>>, limbo: multiset<Pay<E>>, landed: multiset<Pay<E>>) {
    && (forall c :: c in hdrs ==> HdrHome(cfg, c) == me && HdrKey(cfg, c) !in active)
    && (forall p :: p in kept ==> p.eager && p.chan.dst == me && RecvKey(p.chan) !in active)
    && (forall p :: p in limbo ==> p.eager && p.chan.dst == me)
    && (forall p :: p in landed ==> !p.eager)
  }

  // completed_actions_ lists every finished action once, those being cleared excepted.
  ghost predicate Logged(completed: seq<Key>, fin: set<Key>, lag: set<Key>) { multiset(completed) == multiset(fin - lag) }

  // Every payload a rank has received and not processed.
  ghost function Held<E(!new)>(kept: multiset<Pay<E>>, limbo: multiset<Pay<E>>, landed: multiset<Pay<E>>): multiset<Pay<E>> {
    kept + limbo + landed
  }

  predicate AllFinished(acts: map<Key, Action>, fin: set<Key>) { acts != map[] && forall k :: k in acts ==> k in fin }

  // multimap::find: the first entry filed under id, or the end.
  function Find(pending: seq<(Key, Key)>, id: Key): (i: nat)
    ensures i <= |pending|
    ensures i < |pending| ==> pending[i].0 == id
    ensures i == |pending| ==> forall e :: e in pending ==> e.0 != id
  {
    if pending == [] then 0
    else if pending[0].0 == id then 0
    else 1 + Find(pending[1..], id)
  }

  class DagCollectiveActor<E(==,!new)> {
    // The collective this actor takes part in; the code uses its parameters and
    // buffers only, never the DAGs in it.
    const cfg: Config<E>
    const me: nat

    var acts: map<Key, Action>           // every action added
    var book: Book                       // initial_actions_, pending_comms_, join counters, active_comms_
    var completed: seq<Key>              // completed_actions_
    var hdrs: multiset<Chan>             // kept rendezvous headers
    var kept: multiset<Pay<E>>           // kept eager messages
    var landed: multiset<Pay<E>>         // RDMA payloads in memory, not polled (the completion queue)
    var complete: bool
    var fault: bool                      // an abort or throw was reached
    var mem: Mem<E>                      // the buffers
    var out: Net<E>                      // messages handed to the transport

    ghost var pre: map<Key, set<Key>>    // what each action was told to wait for
    ghost var begun: bool
    ghost var started: set<Key>
    ghost var fin: set<Key>
    ghost var limbo: multiset<Pay<E>>    // kept messages being redelivered
    ghost var owed: Net<E>               // messages about to be posted

    constructor (cfg: Config<E>, me: nat, mem: Mem<E>)
      ensures this.cfg == cfg && this.me == me && this.mem == mem
      ensures acts == map[] && pre == map[] && Building()
    {
      this.cfg, this.me, this.mem := cfg, me, mem;
      acts, book, completed := map[], Book({}, [], map[], {}), [];
      hdrs, kept, complete, fault, out := multiset{}, multiset{}, false, false, NoMsgs();
      pre, begun, started, fin, limbo, landed, owed := map[], false, {}, {}, multiset{}, multiset{}, NoMsgs();
    }

    // ---------- construction (initDag) ----------

    // Nothing has been started; everything added waits for its precursors.
    ghost predicate Building()
      reads this
    {
      && !begun && !complete && !fault && started == {} && fin == {} && completed == []
      && hdrs == multiset{} && kept == limbo == landed == multiset{} && out == owed == NoMsgs()
      && Built(acts, pre, book)
    }

    // addDependencyToMap
    method AddDependencyToMap(id: Key, ac: Action)
      requires Building()
      modifies this`acts, this`book, this`pre
      ensures Building()
      ensures acts == old(acts)[ac.Id() := ac] && pre == PreAdded(old(pre), Some(id), ac.Id())
    {
      var k := ac.Id();
      var count := if k in book.joins then book.joins[k] else 0;
      var b := Book(book.initial - {k}, book.pending + [(id, k)], book.joins[k := count + 1], book.active);
      assert b == Added(book, Some(id), k);
      assert Built(acts[k := ac], PreAdded(pre, Some(id), k), b) by { AddedAfter(acts, pre, book, id, ac); }
      book, acts, pre := b, acts[k := ac], PreAdded(pre, Some(id), k);
    }

    // addDependency without a precursor, for communicators whose ranks are resolved.
    method AddAlone(ac: Action)
      requires Building()
      modifies this`acts, this`book, this`pre
      ensures Building()
      ensures acts == old(acts)[ac.Id() := ac] && pre == PreAdded(old(pre), None, ac.Id())
    {
      var k := ac.Id();
      var count := if k in book.joins then book.joins[k] else 0;
      var b := Book(if count == 0 then book.initial + {k} else book.initial, book.pending, book.joins[k := count], book.active);
      assert b == Added(book, None, k);
      assert Built(acts[k := ac], PreAdded(pre, None, k), b) by { AddedAlone(acts, pre, book, ac); }
      book, acts, pre := b, acts[k := ac], PreAdded(pre, None, k);
    }

    // addDependency
    method AddDependency(precursor: Option<Key>, ac: Action)
      requires Building()
      modifies this`acts, this`book, this`pre
      ensures Building()
      ensures acts == old(acts)[ac.Id() := ac] && pre == PreAdded(old(pre), precursor, ac.Id())
    {
      if precursor.Some? {
        AddDependencyToMap(precursor.value, ac);
      } else {
        AddAlone(ac);
      }
    }

    // ---------- execution ----------

    ghost function View(): Rank<E>
      reads this`begun, this`started, this`fin, this`complete, this`fault, this`mem, this`hdrs, this`kept, this`limbo, this`landed
    {
      Rank(begun, started, fin, complete, fault, mem, hdrs, Held(kept, limbo, landed))
    }

    ghost function Here(): Local<E>
      reads this
    {
      Local(View(), Plus(out, owed))
    }

    ghost predicate Env()
      reads this`acts
    {
      Shaped(cfg) && me < cfg.n == |cfg.dag| == |cfg.ptrs| && acts == cfg.dag[me].acts
    }

    ghost predicate Kept()
      reads this`hdrs, this`book, this`kept, this`limbo, this`landed
    {
      KeptOk(cfg, me, book.active, hdrs, kept, limbo, landed)
    }

    // The state between two calls; lag as in BookOk.
    ghost predicate Mid(lag: set<Key>)
      reads this
    {
      && Env() && BookOk(cfg.dag[me], begun, started, fin, book, lag, None) && Kept()
      && begun && (complete <==> AllFinished(acts, fin)) && owed == NoMsgs()
      && Logged(completed, fin, lag)
    }

    // checkCollectiveDone
    method CheckCollectiveDone(ghost lag: set<Key>)
      requires Env() && begun && BookOk(cfg.dag[me], begun, started, fin, book, lag, None) && !complete
      requires acts != map[]   // asked when an action has finished
      modifies this`complete, this`mem
      ensures complete <==> AllFinished(acts, fin)
      ensures Reaches(cfg, me, old(Here()), Here())
    {
      EmptyMeansDone(cfg.dag[me], begun, started, fin, book, lag);
      if book.active == {} && book.pending == [] && book.initial == {} {
        OneStep(cfg, me, Here(), End);
        mem := cfg.finish(me, mem);
        complete := true;
      } else {
        Stay(cfg, me, Here());
      }
    }

    // reputPending for rendezvous headers: those kept for the action k that has
    // just become active are acted on.
    method RedeliverHeaders(k: Key, c: Chan)
      requires Env() && k in started && k !in fin && HdrHome(cfg, c) == me && HdrKey(cfg, c) == k
      modifies this`hdrs, this`out
      ensures Reaches(cfg, me, old(Here()), Here())
      ensures c !in hdrs && forall d :: d in hdrs ==> d in old(hdrs)
    {
      hide Shaped, One, Trace, Reaches, Take, Plus, Held;
      Stay(cfg, me, Here());
      while c in hdrs
        invariant forall d :: d in hdrs ==> d in old(hdrs)
        invariant Reaches(cfg, me, old(Here()), Here())
        decreases |hdrs|
      {
        ghost var before := Here();
        OneStep(cfg, me, before, Hdr(c));
        HdrTaken(cfg, me, before, c);
        PostReq(out, owed, c);
        hdrs := hdrs - multiset{c};
        out := out.(reqs := out.reqs + multiset{c});
        Then(cfg, me, old(Here()), before, Here());
      }
    }

    // reputPending for eager messages, first loop: take those kept for k out.
    method TakeKept(k: Key) returns (tmp: multiset<Pay<E>>)
      modifies this`kept, this`limbo
      ensures forall p :: p in kept ==> p in old(kept) && RecvKey(p.chan) != k
      ensures forall p :: p in tmp ==> p in old(kept) && RecvKey(p.chan) == k
      ensures limbo == old(limbo) + tmp && View() == old(View())
    {
      hide Held;
      ghost var k0, l0 := kept, limbo;
      kept, tmp := Separate(kept, k);
      HeldMove(kept, tmp, limbo, landed);
      limbo := limbo + tmp;
      assert Held(kept, limbo, landed) == Held(k0, l0, landed);
      forall p | p in kept || p in tmp ensures p in k0 {
        assert p in kept + tmp;
      }
    }

    // What every handler leaves alone, and what only grows or shrinks.
    twostate predicate Went()
      reads this
    {
      && old(started) <= started && old(fin) <= fin && |book.pending| <= |old(book.pending)|
      && acts == old(acts) && book.initial == old(book.initial)
      && limbo == old(limbo) && landed == old(landed) && begun == old(begun)
    }

    ghost function Unstarted(): nat
      reads this`acts, this`started
    {
      |acts.Keys - started|
    }

    ghost function Unfinished(): nat
      reads this`acts, this`fin
    {
      |acts.Keys - fin|
    }

    // startAction; k has just left the book.
    method StartAction(k: Key, ghost lag: set<Key>)
      requires Env() && BookOk(cfg.dag[me], begun, started, fin, book, lag, Some(k)) && Kept()
      requires begun && !complete && owed == NoMsgs() && Logged(completed, fin, lag)
      modifies this
      ensures Mid(lag) && Went() && k in started
      ensures Reaches(cfg, me, old(Here()), Here())
      decreases Unstarted(), Unfinished(), 1
    {
      hide BookOk, Logged, Take, One, Trace, Reaches, KeptOk, Mid, Went, Plus, Held;
      LateReady(cfg.dag[me], begun, started, fin, book, lag, k);
      assert Can(cfg, me, Here().st, Go(k));
      ghost var go := Take(cfg, me, Here(), Go(k));
      OneStep(cfg, me, Here(), Go(k));
      if k.kind == Send {
        StartSend(k, lag);
      } else if k.kind == Recv {
        StartRecv(k, lag);
      } else {
        StartInner(k, lag);
      }
      Then(cfg, me, old(Here()), go, Here());
    }

    // doSend
    method DoSend(k: Key)
      requires Env() && k in acts && k.kind == Send
      modifies this`out
      ensures out == Plus(old(out), LaunchMsgs(cfg, me, k))
    {
      var ac := acts[k];
      assert ac.Id() == k;
      var c := Chan(me, ac.partner, ac.round);
      if cfg.useEager(ac.nelems) {
        out := out.(reqs := out.reqs + multiset{c});
      } else if cfg.useGet {
        out := out.(hdrs := out.hdrs + multiset{c});
      }
    }

    // doRecv
    method DoRecv(k: Key)
      requires Env() && k in acts && k.kind == Recv
      modifies this`out
      ensures out == Plus(old(out), LaunchMsgs(cfg, me, k))
    {
      var ac := acts[k];
      assert ac.Id() == k;
      if cfg.useEager(ac.nelems) || cfg.useGet {
        // the sender makes contact
      } else {
        out := out.(hdrs := out.hdrs + multiset{Chan(ac.partner, me, ac.round)});
      }
    }

    // active_comms_[k] = k, for an action that has left the book.
    method Activate(k: Key, ghost lag: set<Key>)
      requires Env() && BookOk(cfg.dag[me], begun, started, fin, book, lag, Some(k)) && begun && IsComm(k)
      modifies this`book, this`started
      ensures BookOk(cfg.dag[me], begun, started, fin, book, lag, None)
      ensures started == old(started) + {k} && book == old(book).(active := old(book).active + {k})
      ensures k in acts && k !in fin && !AllFinished(acts, fin) && k !in old(started)
    {
      hide BookOk, Shaped;
      LateReady(cfg.dag[me], begun, started, fin, book, lag, k);
      ActivateOk(cfg.dag[me], begun, started, fin, book, lag, k);
      book := book.(active := book.active + {k});
      started := started + {k};
    }

    // startSend: kept put headers first, then doSend.
    method StartSend(k: Key, ghost lag: set<Key>)
      requires Env() && BookOk(cfg.dag[me], begun, started, fin, book, lag, Some(k)) && Kept()
      requires begun && !complete && owed == NoMsgs() && Logged(completed, fin, lag)
      requires k.kind == Send && Can(cfg, me, View(), Go(k))
      modifies this
      ensures Mid(lag) && Went() && k in started
      ensures Reaches(cfg, me, Take(cfg, me, old(Here()), Go(k)), Here())
      decreases Unstarted(), Unfinished(), 0
    {
      hide BookOk, Logged, Shaped, One, Trace, Reaches, Take, Can, Plus, Held, KeptOk, AllFinished, LaunchMsgs;
      OpenSend(k, lag);
      KeptSend(cfg, me, old(book).active, k, old(hdrs), hdrs, kept, limbo, landed);
      SendOut(k);
    }

    // The first half of startSend; the message of doSend is still owed.
    method OpenSend(k: Key, ghost lag: set<Key>)
      requires Env() && BookOk(cfg.dag[me], begun, started, fin, book, lag, Some(k))
      requires begun && !complete && owed == NoMsgs()
      requires k.kind == Send && Can(cfg, me, View(), Go(k))
      modifies this`book, this`started, this`hdrs, this`out, this`owed
      ensures k in acts && !AllFinished(acts, fin) && owed == LaunchMsgs(cfg, me, k)
      ensures started == old(started) + {k} && book == old(book).(active := old(book).active + {k})
      ensures BookOk(cfg.dag[me], begun, started, fin, book, lag, None)
      ensures (forall d :: d in hdrs ==> d in old(hdrs)) && (!cfg.useGet ==> Chan(me, k.partner, k.round) !in hdrs)
      ensures Reaches(cfg, me, Take(cfg, me, old(Here()), Go(k)), Here())
    {
      hide BookOk, Shaped, One, Trace, Reaches, Take, Can, Plus, Held, KeptOk, AllFinished, LaunchMsgs;
      LateReady(cfg.dag[me], begun, started, fin, book, lag, k);
      GoComm(cfg, me, Here(), k);
      PlusNone(out, LaunchMsgs(cfg, me, k));
      Activate(k, lag);
      owed := LaunchMsgs(cfg, me, k);
      Stay(cfg, me, Here());
      if !cfg.useGet {
        RedeliverHeaders(k, Chan(me, k.partner, k.round));
      }
    }

    // doSend, which pays what was owed.
    method SendOut(k: Key)
      requires Env() && k in acts && k.kind == Send && owed == LaunchMsgs(cfg, me, k)
      modifies this`out, this`owed
      ensures owed == NoMsgs() && Here() == old(Here())
    {
      hide Shaped, Plus, LaunchMsgs;
      DoSend(k);
      PlusNone(out, NoMsgs());
      owed := NoMsgs();
    }

    // startRecv: doRecv, then kept messages.
    method StartRecv(k: Key, ghost lag: set<Key>)
      requires Env() && BookOk(cfg.dag[me], begun, started, fin, book, lag, Some(k)) && Kept()
      requires begun && !complete && owed == NoMsgs() && Logged(completed, fin, lag)
      requires k.kind == Recv && Can(cfg, me, View(), Go(k))
      modifies this
      ensures Mid(lag) && Went() && k in started
      ensures Reaches(cfg, me, Take(cfg, me, old(Here()), Go(k)), Here())
      decreases Unstarted(), Unfinished(), 0
    {
      hide BookOk, Logged, One, Trace, Reaches, Take, Can, Shaped, Plus, Held, KeptOk, AllFinished;
      ghost var go := Take(cfg, me, Here(), Go(k));
      var tmp := BecomeActive(k, lag);
      FewerLeft(acts.Keys, old(started), started);
      while tmp != multiset{}
        invariant Mid(lag) && limbo == old(limbo) + tmp && k in started
        invariant old(started) <= started && old(fin) <= fin && |book.pending| <= |old(book.pending)|
        invariant acts == old(acts) && book.initial == old(book.initial) && landed == old(landed) && begun == old(begun)
        invariant forall p :: p in tmp ==> RecvKey(p.chan) == k
        invariant Reaches(cfg, me, go, Here()) && Unstarted() < old(Unstarted())
        decreases |tmp|
      {
        var p :| p in tmp;
        ghost var s0 := started;
        RedeliverKept(p, k, lag, go);
        FewerLeft(acts.Keys, s0, started);
        tmp := tmp - multiset{p};
      }
    }

    // The part of startRecv up to the redelivery of kept eager messages.
    method BecomeActive(k: Key, ghost lag: set<Key>) returns (tmp: multiset<Pay<E>>)
      requires Env() && BookOk(cfg.dag[me], begun, started, fin, book, lag, Some(k)) && Kept()
      requires begun && !complete && owed == NoMsgs() && Logged(completed, fin, lag)
      requires k.kind == Recv && Can(cfg, me, View(), Go(k))
      modifies this`book, this`started, this`out, this`hdrs, this`kept, this`limbo
      ensures Mid(lag) && k in acts && k !in old(started) && started == old(started) + {k}
      ensures book == old(book).(active := old(book).active + {k})
      ensures limbo == old(limbo) + tmp && forall p :: p in tmp ==> RecvKey(p.chan) == k
      ensures Reaches(cfg, me, Take(cfg, me, old(Here()), Go(k)), Here())
    {
      hide BookOk, Logged, One, Trace, Reaches, Take, Can, Shaped, Plus, Held, KeptOk, AllFinished, LaunchMsgs;
      OpenRecv(k, lag);
      tmp := TakeKept(k);
      KeptRecv(cfg, me, old(book).active, k, old(hdrs), hdrs, old(kept), kept, old(limbo), limbo, tmp, landed);
    }

    // doRecv and the redelivery of kept get headers.
    method OpenRecv(k: Key, ghost lag: set<Key>)
      requires Env() && BookOk(cfg.dag[me], begun, started, fin, book, lag, Some(k))
      requires begun && !complete && owed == NoMsgs()
      requires k.kind == Recv && Can(cfg, me, View(), Go(k))
      modifies this`book, this`started, this`out, this`hdrs
      ensures k in acts && !AllFinished(acts, fin) && k !in old(started)
      ensures started == old(started) + {k} && book == old(book).(active := old(book).active + {k})
      ensures BookOk(cfg.dag[me], begun, started, fin, book, lag, None)
      ensures (forall d :: d in hdrs ==> d in old(hdrs)) && (cfg.useGet ==> Chan(k.partner, me, k.round) !in hdrs)
      ensures Reaches(cfg, me, Take(cfg, me, old(Here()), Go(k)), Here())
    {
      hide BookOk, One, Trace, Reaches, Take, Can, Shaped, Plus, Held, KeptOk, AllFinished, LaunchMsgs;
      LateReady(cfg.dag[me], begun, started, fin, book, lag, k);
      GoComm(cfg, me, Here(), k);
      PlusNone(out, LaunchMsgs(cfg, me, k));
      Activate(k, lag);
      DoRecv(k);
      PlusNone(out, NoMsgs());
      Stay(cfg, me, Here());
      if cfg.useGet {
        RedeliverHeaders(k, Chan(k.partner, me, k.round));
      }
    }

    // reputPending, second loop: one message taken out for k is received again.
    method RedeliverKept(p: Pay<E>, k: Key, ghost lag: set<Key>, ghost go: Local<E>)
      requires Mid(lag) && k in started && p in limbo && RecvKey(p.chan) == k
      requires Reaches(cfg, me, go, Here())
      modifies this
      ensures Mid(lag) && k in started
      ensures old(started) <= started && old(fin) <= fin && |book.pending| <= |old(book.pending)|
      ensures acts == old(acts) && book.initial == old(book.initial) && landed == old(landed) && begun == old(begun)
      ensures limbo == old(limbo) - multiset{p}
      ensures Reaches(cfg, me, go, Here())
      decreases Unstarted(), Unfinished(), 10
    {
      hide BookOk, Logged, One, Trace, Reaches, Shaped, Plus, Held, KeptOk, AllFinished, Delivered;
      KeptLimbo(cfg, me, book.active, hdrs, kept, limbo, landed, p);
      HeldMinus(kept, limbo, landed, p);
      ghost var before := Here();
      limbo := limbo - multiset{p};
      ghost var after := Delivered(cfg, me, Here(), EagerMsg(p));
      RedeliveredIs(cfg, me, before, Here(), p);
      if Active(before.st, k) {
        Then(cfg, me, go, before, after);
      }
      Receive(EagerMsg(p), lag);
      Then(cfg, me, go, after, Here());
    }

    // recv
    method Receive(m: Msg<E>, ghost lag: set<Key>)
      requires Mid(lag) && AddressedTo(cfg, me, m) && (m.RdmaMsg? ==> m.p in landed)
      modifies this
      ensures Mid(lag)
      ensures old(started) <= started && old(fin) <= fin && |book.pending| <= |old(book.pending)|
      ensures acts == old(acts) && book.initial == old(book.initial) && limbo == old(limbo) && begun == old(begun)
      ensures landed == if m.RdmaMsg? then old(landed) - multiset{m.p} else old(landed)
      ensures Reaches(cfg, me, Delivered(cfg, me, old(Here()), m), Here())
      decreases Unstarted(), Unfinished(), 9
    {
      hide BookOk, Logged, One, Trace, Reaches, Shaped, Plus, Held, KeptOk, AllFinished;
      hide HandleEager, HandleHdr, HdrMsgs, HandleLanded, HandleAck;
      match m
      case EagerMsg(p) => IncomingEager(p, lag);
      case HeaderMsg(c) => IncomingHeader(c, lag);
      case RdmaMsg(p) => RdmaDone(p, lag);
      case AckMsg(c) => DataSent(c, lag);
    }

    // incomingHeader, eager
    method IncomingEager(p: Pay<E>, ghost lag: set<Key>)
      requires Mid(lag) && p.eager && p.chan.dst == me
      modifies this
      ensures Mid(lag) && Went()
      ensures Reaches(cfg, me, Local(HandleEager(cfg, me, old(View()), p), old(Here()).out), Here())
      decreases Unstarted(), Unfinished(), 7
    {
      hide BookOk, Logged, One, Trace, Reaches, Shaped, Plus, Held, KeptOk, AllFinished, HandleEager, RecvMem;
      var k := RecvKey(p.chan);
      ActiveIs(cfg.dag[me], begun, started, fin, book, lag, None);
      EagerIs(cfg, me, View(), p);
      Stay(cfg, me, Local(HandleEager(cfg, me, View(), p), Here().out));
      if k !in book.active {
        KeepEager(p, lag);
      } else if |p.data| != acts[k].nelems {
        fault := true;
      } else {
        DataRecved(k, true, p.data, lag);
      }
    }

    // The receive of an eager message is not active: the message is kept.
    method KeepEager(p: Pay<E>, ghost lag: set<Key>)
      requires Mid(lag) && p.eager && p.chan.dst == me && RecvKey(p.chan) !in book.active
      modifies this`kept
      ensures Mid(lag) && Here() == old(Here()).(st := old(View()).(payQ := old(View()).payQ + multiset{p}))
    {
      hide BookOk, Shaped, Plus, Held, KeptOk, AllFinished;
      KeptMore(cfg, me, book.active, hdrs, kept, limbo, landed, p);
      HeldPlus(kept, limbo, landed, p);
      kept := kept + multiset{p};
    }

    // incomingHeader, get and put
    method IncomingHeader(c: Chan, ghost lag: set<Key>)
      requires Mid(lag) && HdrHome(cfg, c) == me
      modifies this`hdrs, this`out
      ensures Mid(lag)
      ensures Reaches(cfg, me, Local(HandleHdr(cfg, old(View()), c), Plus(old(Here()).out, HdrMsgs(cfg, old(View()), c))), Here())
    {
      hide BookOk, Logged, One, Trace, Reaches, Shaped, Plus, Held, KeptOk, AllFinished, HandleHdr, HdrMsgs;
      ActiveIs(cfg.dag[me], begun, started, fin, book, lag, None);
      KeptHdr(cfg, me, book.active, hdrs, kept, limbo, landed, c);
      HdrIs(cfg, View(), out, c);
      if HdrKey(cfg, c) in book.active {
        out := out.(reqs := out.reqs + multiset{c});
      } else {
        hdrs := hdrs + multiset{c};
      }
      Stay(cfg, me, Here());
    }

    // A polled RDMA completion
    method RdmaDone(p: Pay<E>, ghost lag: set<Key>)
      requires Mid(lag) && p in landed && p.chan.dst == me
      modifies this
      ensures Mid(lag)
      ensures old(started) <= started && old(fin) <= fin && |book.pending| <= |old(book.pending)|
      ensures acts == old(acts) && book.initial == old(book.initial) && limbo == old(limbo) && begun == old(begun)
      ensures landed == old(landed) - multiset{p}
      ensures Reaches(cfg, me, Delivered(cfg, me, old(Here()), RdmaMsg(p)), Here())
      decreases Unstarted(), Unfinished(), 8
    {
      hide BookOk, Logged, One, Trace, Reaches, Shaped, Plus, Held, KeptOk, AllFinished, HandleLanded, RecvMem, ReadSpan, LandSpan;
      KeptLanded(cfg, me, book.active, hdrs, kept, limbo, landed, p);
      HeldLanded(kept, limbo, landed, p);
      landed := landed - multiset{p};
      LandedIn(p.chan, lag);
    }

    // dataRecved for a payload that is already in memory
    method LandedIn(c: Chan, ghost lag: set<Key>)
      requires Mid(lag)
      modifies this
      ensures Mid(lag) && Went()
      ensures Reaches(cfg, me, Local(HandleLanded(cfg, me, old(View()), c), old(Here()).out), Here())
      decreases Unstarted(), Unfinished(), 7
    {
      hide BookOk, Logged, One, Trace, Reaches, Shaped, Plus, Held, KeptOk, AllFinished, HandleLanded, RecvMem, ReadSpan;
      var k := RecvKey(c);
      ActiveIs(cfg.dag[me], begun, started, fin, book, lag, None);
      LandedIs(cfg, me, View(), c);
      Stay(cfg, me, Local(HandleLanded(cfg, me, View(), c), Here().out));
      if k !in book.active {
        fault := true;
      } else {
        IsRecv(cfg, me, k);
        DataRecved(k, false, ReadSpan(mem, LandSpan(cfg.ptrs[me], acts[k])), lag);
      }
    }

    // dataRecved for an active receive: the slicer's work, then commActionDone
    method DataRecved(k: Key, eager: bool, data: seq<E>, ghost lag: set<Key>)
      requires Mid(lag) && k in book.active && k.kind == Recv && k in acts && acts[k].RecvAction?
      modifies this
      ensures Mid(lag) && Went()
      ensures var st := old(View()).(fin := old(fin) + {k}, mem := RecvMem(cfg, me, old(acts)[k], eager, data, old(mem)));
              Reaches(cfg, me, Local(st, old(Here()).out), Here())
      decreases Unstarted(), Unfinished(), 6
    {
      hide BookOk, Logged, One, Trace, Reaches, Shaped, Plus, Held, KeptOk, AllFinished, RecvMem;
      mem := RecvMem(cfg, me, acts[k], eager, data, mem);
      FinishComm(k, lag);
    }

    // dataSent
    method DataSent(c: Chan, ghost lag: set<Key>)
      requires Mid(lag)
      modifies this
      ensures Mid(lag) && Went()
      ensures Reaches(cfg, me, Local(HandleAck(old(View()), c), old(Here()).out), Here())
      decreases Unstarted(), Unfinished(), 7
    {
      hide BookOk, Logged, One, Trace, Reaches, Shaped, Plus, Held, KeptOk, AllFinished;
      var k := SendKey(c);
      ActiveIs(cfg.dag[me], begun, started, fin, book, lag, None);
      Stay(cfg, me, Local(HandleAck(View(), c), Here().out));
      if k !in book.active {
        fault := true;
      } else {
        FinishComm(k, lag);
      }
    }

    // commActionDone; the buffers are already up to date.
    method FinishComm(k: Key, ghost lag: set<Key>)
      requires Mid(lag) && k in book.active
      modifies this
      ensures Mid(lag) && Went()
      ensures Reaches(cfg, me, Local(old(View()).(fin := old(fin) + {k}), old(Here()).out), Here())
      decreases Unstarted(), Unfinished(), 5
    {
      hide BookOk, Logged, One, Trace, Reaches, Shaped, Plus, Held, KeptOk, AllFinished;
      MarkFinished(k, lag);
      FewerLeft(acts.Keys, old(fin), fin);
      ClearAction(k, lag);
    }

    ghost method MarkFinished(k: Key, lag: set<Key>)
      requires Mid(lag) && k in book.active
      modifies this`fin
      ensures fin == old(fin) + {k} && k in acts && k !in old(fin) && k !in lag && !complete
      ensures BookOk(cfg.dag[me], begun, started, fin, book.(active := book.active - {k}), lag + {k}, None)
      ensures Logged(completed, fin, lag + {k})
    {
      hide BookOk, Logged, Shaped, Plus, Held, KeptOk, AllFinished;
      ActiveIs(cfg.dag[me], begun, started, fin, book, lag, None);
      NotYetAll(acts, fin, k);
      FinishOk(cfg.dag[me], begun, started, fin, book, lag, k);
      LagGrows(completed, fin, lag, k);
      fin := fin + {k};
    }

    // A shuffle or join: done at once.
    method StartInner(k: Key, ghost lag: set<Key>)
      requires Env() && BookOk(cfg.dag[me], begun, started, fin, book, lag, Some(k)) && Kept()
      requires begun && !complete && owed == NoMsgs() && Logged(completed, fin, lag)
      requires !IsComm(k) && Can(cfg, me, View(), Go(k))
      modifies this
      ensures Mid(lag) && Went() && k in started
      ensures Reaches(cfg, me, Take(cfg, me, old(Here()), Go(k)), Here())
      decreases Unstarted(), Unfinished(), 0
    {
      hide BookOk, Logged, One, Trace, Reaches, Take, Can, Shaped, Plus, Held, KeptOk, AllFinished, ShuffleMem;
      ghost var go := Take(cfg, me, Here(), Go(k));
      RunInner(k, lag);
      FewerLeft(acts.Keys, old(started), started);
      ghost var mid := Here();
      ClearAction(k, lag);
      Then(cfg, me, go, mid, Here());
    }

    // startShuffle; a join does nothing.
    method RunInner(k: Key, ghost lag: set<Key>)
      requires Env() && BookOk(cfg.dag[me], begun, started, fin, book, lag, Some(k)) && begun && !IsComm(k)
      requires Logged(completed, fin, lag) && owed == NoMsgs() && Can(cfg, me, View(), Go(k))
      modifies this`mem, this`started, this`fin
      ensures started == old(started) + {k} && fin == old(fin) + {k} && k in acts && k !in lag && k !in old(started)
      ensures Reaches(cfg, me, Take(cfg, me, old(Here()), Go(k)), Here())
      ensures BookOk(cfg.dag[me], begun, started, fin, book.(active := book.active - {k}), lag + {k}, None)
      ensures Logged(completed, fin, lag + {k})
    {
      hide BookOk, Logged, One, Trace, Reaches, Take, Can, Shaped, Plus, Held, ShuffleMem;
      LateReady(cfg.dag[me], begun, started, fin, book, lag, k);
      GoInner(cfg, me, Here(), k);
      RunOk(cfg.dag[me], begun, started, fin, book, lag, k);
      LagGrows(completed, fin, lag, k);
      if k.kind == Shuffle {
        mem := ShuffleMem(cfg, me, k, mem);
      }
      started, fin := started + {k}, fin + {k};
      assert book.(active := book.active - {k}) == book;
      Stay(cfg, me, Here());
    }

    // clearAction; k has just been finished.
    method ClearAction(k: Key, ghost lag: set<Key>)
      requires Env() && k in fin && k !in lag && Kept() && begun && !complete && owed == NoMsgs()
      requires BookOk(cfg.dag[me], begun, started, fin, book.(active := book.active - {k}), lag + {k}, None)
      requires Logged(completed, fin, lag + {k})
      modifies this
      ensures Mid(lag) && Went()
      ensures Reaches(cfg, me, old(Here()), Here())
      decreases Unstarted(), Unfinished(), 4
    {
      hide BookOk, Logged, One, Trace, Reaches, Shaped, Plus, Held, KeptOk, AllFinished;
      FinishedKnown(cfg.dag[me], begun, started, fin, book.(active := book.active - {k}), lag + {k}, k);
      Retire(k, lag);
      ghost var b := Here();
      ClearDependencies(k, lag + {k});
      Then(cfg, me, old(Here()), b, Here());
      LogAction(k, lag);
    }

    // active_comms_.erase and checkCollectiveDone
    method Retire(k: Key, ghost lag: set<Key>)
      requires Env() && Kept() && begun && !complete && owed == NoMsgs() && k in acts
      requires BookOk(cfg.dag[me], begun, started, fin, book.(active := book.active - {k}), lag + {k}, None)
      requires Logged(completed, fin, lag + {k})
      modifies this`book, this`complete, this`mem
      ensures Mid(lag + {k}) && book == old(book).(active := old(book).active - {k})
      ensures Reaches(cfg, me, old(Here()), Here())
    {
      hide BookOk, Logged, One, Trace, Reaches, Shaped, Plus, Held, KeptOk, AllFinished;
      FewerActive(cfg, me, book.active, book.active - {k}, hdrs, kept, limbo, landed);
      book := book.(active := book.active - {k});
      CheckCollectiveDone(lag + {k});
    }

    // completed_actions_.push_back; k's dependents have been notified.
    method LogAction(k: Key, ghost lag: set<Key>)
      requires Mid(lag + {k}) && k in fin && k !in lag && forall e :: e in book.pending ==> e.0 != k
      modifies this`completed
      ensures Mid(lag) && Here() == old(Here())
    {
      hide BookOk, Logged, Shaped, Plus, Held, KeptOk, AllFinished;
      NotifiedOk(cfg.dag[me], begun, started, fin, book, lag + {k}, k);
      LagShrinks(completed, fin, lag, k);
      completed := completed + [k];
    }

    // clearDependencies
    method ClearDependencies(k: Key, ghost lag: set<Key>)
      requires Mid(lag) && k in lag
      modifies this
      ensures Mid(lag) && Went() && forall e :: e in book.pending ==> e.0 != k
      ensures Reaches(cfg, me, old(Here()), Here())
      decreases Unstarted(), Unfinished(), 3
    {
      hide BookOk, Logged, One, Trace, Reaches, Shaped, Plus, Held, KeptOk, AllFinished, Find, Kept, View;
      hide Unstarted, Unfinished;
      Stay(cfg, me, Here());
      var i := Find(book.pending, k);
      while i < |book.pending|
        invariant Mid(lag) && Went() && i == Find(book.pending, k)
        invariant Unstarted() <= old(Unstarted()) && Unfinished() <= old(Unfinished())
        invariant Reaches(cfg, me, old(Here()), Here())
        decreases |book.pending|
      {
        ghost var mid := Here();
        NotifyFirst(k, i, lag);
        Then(cfg, me, old(Here()), mid, Here());
        i := Find(book.pending, k);
      }
    }

    // One turn of clearDependencies' loop.
    method NotifyFirst(k: Key, i: nat, ghost lag: set<Key>)
      requires Mid(lag) && k in lag && i < |book.pending| && book.pending[i].0 == k
      modifies this
      ensures Mid(lag) && Went() && |book.pending| < |old(book.pending)|
      ensures Unstarted() <= old(Unstarted()) && Unfinished() <= old(Unfinished())
      ensures Reaches(cfg, me, old(Here()), Here())
      decreases Unstarted(), Unfinished(), 2
    {
      hide BookOk, Logged, One, Trace, Reaches, Shaped, Plus, Held, KeptOk, AllFinished;
      LagFinished(cfg.dag[me], begun, started, fin, book, lag, k);
      NotifyOk(cfg.dag[me], begun, started, fin, book, lag, i);
      PendingUnfinished(cfg.dag[me], begun, started, fin, book, lag, i);
      var a := book.pending[i].1;
      NotYetAll(acts, fin, a);
      book := book.(pending := Without(book.pending, i), joins := book.joins[a := book.joins[a] - 1]);
      assert book == Notify(old(book), i);
      if book.joins[a] == 0 {
        StartAction(a, lag);
      } else {
        Stay(cfg, me, Here());
      }
      FewerLeft(acts.Keys, old(started), started);
      FewerLeft(acts.Keys, old(fin), fin);
    }

    // ---------- what the transport calls ----------

    // Nothing is left to do: with no call in progress no further step is enabled.
    lemma Rests()
      requires Mid({}) && book.initial == {} && limbo == multiset{}
      ensures Quiescent(cfg, me, View())
    {
      forall s: Inner<E> ensures !Can(cfg, me, View(), s) {
        match s
        case Go(k) => if k in acts && k !in started { NothingReady(cfg.dag[me], begun, started, fin, book, k); }
        case Hdr(c) =>
        case Eager(p) =>
        case End =>
      }
    }

    // start
    method Start()
      requires Building() && Shaped(cfg) && me < cfg.n == |cfg.dag| == |cfg.ptrs|
      requires acts == cfg.dag[me].acts && pre == cfg.dag[me].pre
      modifies this
      ensures Mid({}) && Quiescent(cfg, me, View()) && book.initial == {} && limbo == multiset{}
      ensures Reaches(cfg, me, old(Here()).(st := old(View()).(begun := true)), Here())
    {
      hide BookOk, Built, Logged, One, Trace, Reaches, Plus, Held, KeptOk, Shaped, Quiescent, AllFinished;
      BuiltIsBook(acts, pre, book);
      begun := true;
      FreshStart();
      ghost var a := Here();
      Stay(cfg, me, a);
      while book.initial != {}
        invariant Mid({}) && limbo == multiset{}
        invariant Reaches(cfg, me, a, Here())
        decreases |book.initial|
      {
        ghost var s0 := book.initial;
        StartOne(a);
        ProperLess(book.initial, s0);
      }
      Rests();
    }

    lemma FreshStart()
      requires Env() && begun && !complete && fin == {} && completed == [] && owed == NoMsgs()
      requires hdrs == multiset{} && kept == limbo == landed == multiset{}
      requires BookOk(cfg.dag[me], begun, started, fin, book, {}, None)
      ensures Mid({})
    {
      if acts != map[] { var k :| k in acts; }
    }

    // One turn of start's loop.
    method StartOne(ghost a: Local<E>)
      requires Mid({}) && book.initial != {} && limbo == multiset{} && Reaches(cfg, me, a, Here())
      modifies this
      ensures Mid({}) && limbo == multiset{} && Reaches(cfg, me, a, Here())
      ensures book.initial < old(book.initial)
    {
      hide BookOk, Logged, One, Trace, Reaches, Shaped, Plus, Held, KeptOk, AllFinished;
      var k :| k in book.initial;
      TakeInitialOk(cfg.dag[me], begun, started, fin, book, {}, k);
      book := book.(initial := book.initial - {k});
      LateReady(cfg.dag[me], begun, started, fin, book, {}, k);
      NotYetAll(acts, fin, k);
      ghost var mid := Here();
      StartAction(k, {});
      Then(cfg, me, a, mid, Here());
    }

    // The NIC writes an RDMA payload into the posted receive buffer.
    method Arrive(p: Pay<E>)
      requires Mid({}) && book.initial == {} && limbo == multiset{}
      requires !p.eager && p.chan.dst == me && RecvKey(p.chan) in acts
      modifies this`mem, this`landed
      ensures Mid({}) && Quiescent(cfg, me, View()) && book.initial == {} && limbo == multiset{} && p in landed
      ensures acts[RecvKey(p.chan)].RecvAction?
      ensures View() == old(View()).(payQ := old(View()).payQ + multiset{p},
                                     mem := WriteSpan(old(mem), LandSpan(cfg.ptrs[me], acts[RecvKey(p.chan)]), p.data))
    {
      hide BookOk, Logged, Held, KeptOk, AllFinished, WriteSpan;
      IsRecv(cfg, me, RecvKey(p.chan));
      mem := WriteSpan(mem, LandSpan(cfg.ptrs[me], acts[RecvKey(p.chan)]), p.data);
      HeldArrives(kept, limbo, landed, p);
      KeptArrives(cfg, me, book.active, hdrs, kept, limbo, landed, p);
      landed := landed + multiset{p};
      Rests();
    }

    // The transport takes over what has been posted.
    method TakePosted() returns (posted: Net<E>)
      requires Mid({}) && book.initial == {} && limbo == multiset{}
      modifies this`out
      ensures Mid({}) && View() == old(View()) && posted == old(Here()).out && out == NoMsgs()
    {
      hide BookOk, Logged, Shaped, Held, KeptOk, AllFinished;
      PlusNone(out, NoMsgs());
      posted := out;
      out := NoMsgs();
    }

    // recv, as called from outside: the rank takes the delivery step and then
    // every step it can take on its own.
    method Deliver(m: Msg<E>)
      requires Mid({}) && book.initial == {} && limbo == multiset{}
      requires AddressedTo(cfg, me, m) && (m.RdmaMsg? ==> m.p in landed)
      modifies this
      ensures Mid({}) && Quiescent(cfg, me, View()) && book.initial == {} && limbo == multiset{}
      ensures Reaches(cfg, me, Delivered(cfg, me, old(Here()), m), Here())
    {
      hide BookOk, Logged, One, Trace, Reaches, Shaped, Plus, Held, KeptOk, AllFinished, Delivered;
      Receive(m, {});
      Rests();
    }
  }

  // ---------- facts about values ----------

  lemma ProperLess(a: set<Key>, b: set<Key>)
    requires a < b
    ensures |a| < |b|
  {
    var x :| x in b && x !in a;
    CardinalityLe(a, b - {x});
  }

  lemma PlusNone<E(!new)>(a: Net<E>, b: Net<E>)
    ensures Plus(Plus(a, NoMsgs()), b) == Plus(a, b) && Plus(a, NoMsgs()) == a
  {
  }

  lemma PostReq<E(!new)>(out: Net<E>, owed: Net<E>, c: Chan)
    ensures Plus(out.(reqs := out.reqs + multiset{c}), owed) == Plus(Plus(out, owed), NoMsgs<E>().(reqs := multiset{c}))
  {
  }

  lemma HdrIs<E(!new)>(cfg: Config<E>, st: Rank<E>, out: Net<E>, c: Chan)
    ensures Active(st, HdrKey(cfg, c)) ==>
              HandleHdr(cfg, st, c) == st &&
              Plus(Plus(out, NoMsgs()), HdrMsgs(cfg, st, c)) == Plus(out.(reqs := out.reqs + multiset{c}), NoMsgs())
    ensures !Active(st, HdrKey(cfg, c)) ==>
              HandleHdr(cfg, st, c) == st.(hdrQ := st.hdrQ + multiset{c}) &&
              Plus(Plus(out, NoMsgs()), HdrMsgs(cfg, st, c)) == Plus(out, NoMsgs())
  {
  }

  lemma HdrTaken<E(!new)>(cfg: Config<E>, r: nat, a: Local<E>, c: Chan)
    requires Shaped(cfg) && r < cfg.n && Can(cfg, r, a.st, Hdr(c))
    ensures Take(cfg, r, a, Hdr(c))
            == Local(a.st.(hdrQ := a.st.hdrQ - multiset{c}), Plus(a.out, NoMsgs<E>().(reqs := multiset{c})))
  {
  }

  lemma IsRecv<E(!new)>(cfg: Config<E>, r: nat, k: Key)
    requires Shaped(cfg) && r < cfg.n && k in cfg.dag[r].acts && k.kind == Recv
    ensures cfg.dag[r].acts[k].RecvAction?
  {
    assert cfg.dag[r].acts[k].Id() == k;
  }

  lemma GoComm<E(!new)>(cfg: Config<E>, r: nat, a: Local<E>, k: Key)
    requires Shaped(cfg) && r < cfg.n && Can(cfg, r, a.st, Go(k)) && IsComm(k)
    ensures Take(cfg, r, a, Go(k)) == Local(a.st.(started := a.st.started + {k}), Plus(a.out, LaunchMsgs(cfg, r, k)))
  {
    assert cfg.dag[r].acts[k].Id() == k;
  }

  lemma GoInner<E(!new)>(cfg: Config<E>, r: nat, a: Local<E>, k: Key)
    requires Shaped(cfg) && r < cfg.n && Can(cfg, r, a.st, Go(k)) && !IsComm(k)
    ensures var mem := if k.kind == Shuffle then ShuffleMem(cfg, r, k, a.st.mem) else a.st.mem;
            Take(cfg, r, a, Go(k)) == Local(a.st.(started := a.st.started + {k}, fin := a.st.fin + {k}, mem := mem), a.out)
  {
    assert cfg.dag[r].acts[k].Id() == k;
    PlusNone(a.out, NoMsgs());
  }

  lemma EagerIs<E(!new)>(cfg: Config<E>, r: nat, st: Rank<E>, p: Pay<E>)
    requires Shaped(cfg) && r < cfg.n
    ensures var k := RecvKey(p.chan);
            && (!Active(st, k) ==> HandleEager(cfg, r, st, p) == st.(payQ := st.payQ + multiset{p}))
            && (Active(st, k) && k in cfg.dag[r].acts ==>
                  cfg.dag[r].acts[k].RecvAction? &&
                  HandleEager(cfg, r, st, p)
                  == if |p.data| != cfg.dag[r].acts[k].nelems then st.(fault := true)
                     else st.(fin := st.fin + {k}, mem := RecvMem(cfg, r, cfg.dag[r].acts[k], true, p.data, st.mem)))
  {
    if RecvKey(p.chan) in cfg.dag[r].acts { IsRecv(cfg, r, RecvKey(p.chan)); }
  }

  lemma LandedIs<E(!new)>(cfg: Config<E>, r: nat, st: Rank<E>, c: Chan)
    requires Shaped(cfg) && r < cfg.n
    ensures var k := RecvKey(c);
            && (!Active(st, k) ==> HandleLanded(cfg, r, st, c) == st.(fault := true))
            && (Active(st, k) && k in cfg.dag[r].acts ==>
                  cfg.dag[r].acts[k].RecvAction? &&
                  HandleLanded(cfg, r, st, c)
                  == st.(fin := st.fin + {k}, mem := RecvMem(cfg, r, cfg.dag[r].acts[k], false,
                                                             ReadSpan(st.mem, LandSpan(cfg.ptrs[r], cfg.dag[r].acts[k])), st.mem)))
  {
    if RecvKey(c) in cfg.dag[r].acts { IsRecv(cfg, r, RecvKey(c)); }
  }

  lemma NotYetAll(acts: map<Key, Action>, fin: set<Key>, k: Key)
    requires k in acts && k !in fin
    ensures !AllFinished(acts, fin)
  {
  }

  lemma HeldPlus<E(!new)>(kept: multiset<Pay<E>>, limbo: multiset<Pay<E>>, landed: multiset<Pay<E>>, p: Pay<E>)
    ensures Held(kept + multiset{p}, limbo, landed) == Held(kept, limbo, landed) + multiset{p}
  {
  }

  lemma HeldMove<E(!new)>(kept: multiset<Pay<E>>, tmp: multiset<Pay<E>>, limbo: multiset<Pay<E>>, landed: multiset<Pay<E>>)
    ensures Held(kept, limbo + tmp, landed) == Held(kept + tmp, limbo, landed)
  {
  }

  // The entries of a pending map that are filed under k, and the others.
  method Separate<E(==,!new)>(pending: multiset<Pay<E>>, k: Key) returns (rest: multiset<Pay<E>>, tmp: multiset<Pay<E>>)
    ensures rest + tmp == pending
    ensures (forall p :: p in rest ==> RecvKey(p.chan) != k) && (forall p :: p in tmp ==> RecvKey(p.chan) == k)
  {
    rest, tmp := pending, multiset{};
    while exists p :: p in rest && RecvKey(p.chan) == k
      invariant rest + tmp == pending
      invariant forall p :: p in tmp ==> RecvKey(p.chan) == k
      decreases |rest|
    {
      var p :| p in rest && RecvKey(p.chan) == k;
      rest, tmp := rest - multiset{p}, tmp + multiset{p};
    }
  }

  lemma HeldMinus<E(!new)>(kept: multiset<Pay<E>>, limbo: multiset<Pay<E>>, landed: multiset<Pay<E>>, p: Pay<E>)
    requires p in limbo
    ensures Held(kept, limbo - multiset{p}, landed) == Held(kept, limbo, landed) - multiset{p} && p in Held(kept, limbo, landed)
  {
  }

  lemma HeldArrives<E(!new)>(kept: multiset<Pay<E>>, limbo: multiset<Pay<E>>, landed: multiset<Pay<E>>, p: Pay<E>)
    ensures Held(kept, limbo, landed + multiset{p}) == Held(kept, limbo, landed) + multiset{p}
  {
  }

  lemma KeptArrives<E(!new)>(cfg: Config<E>, me: nat, active: set<Key>, hdrs: multiset<Chan>,
                             kept: multiset<Pay<E>>, limbo: multiset<Pay<E>>, landed: multiset<Pay<E>>, p: Pay<E>)
    requires KeptOk(cfg, me, active, hdrs, kept, limbo, landed) && !p.eager
    ensures KeptOk(cfg, me, active, hdrs, kept, limbo, landed + multiset{p})
  {
  }

  lemma HeldLanded<E(!new)>(kept: multiset<Pay<E>>, limbo: multiset<Pay<E>>, landed: multiset<Pay<E>>, p: Pay<E>)
    requires p in landed
    ensures Held(kept, limbo, landed - multiset{p}) == Held(kept, limbo, landed) - multiset{p}
  {
  }

  lemma KeptSend<E(!new)>(cfg: Config<E>, me: nat, active: set<Key>, k: Key, hdrs: multiset<Chan>, hdrs': multiset<Chan>,
                          kept: multiset<Pay<E>>, limbo: multiset<Pay<E>>, landed: multiset<Pay<E>>)
    requires KeptOk(cfg, me, active, hdrs, kept, limbo, landed) && k.kind == Send && forall d :: d in hdrs' ==> d in hdrs
    requires cfg.useGet || Chan(me, k.partner, k.round) !in hdrs'
    ensures KeptOk(cfg, me, active + {k}, hdrs', kept, limbo, landed)
  {
    forall d | d in hdrs' ensures HdrKey(cfg, d) != k {
      assert d in hdrs;
    }
  }

  lemma KeptRecv<E(!new)>(cfg: Config<E>, me: nat, active: set<Key>, k: Key, hdrs: multiset<Chan>, hdrs': multiset<Chan>,
                          kept: multiset<Pay<E>>, kept': multiset<Pay<E>>, limbo: multiset<Pay<E>>, limbo': multiset<Pay<E>>,
                          tmp: multiset<Pay<E>>, landed: multiset<Pay<E>>)
    requires KeptOk(cfg, me, active, hdrs, kept, limbo, landed) && k.kind == Recv && forall d :: d in hdrs' ==> d in hdrs
    requires !cfg.useGet || Chan(k.partner, me, k.round) !in hdrs'
    requires forall p :: p in kept' ==> p in kept && RecvKey(p.chan) != k
    requires forall p :: p in tmp ==> p in kept
    requires limbo' == limbo + tmp
    ensures KeptOk(cfg, me, active + {k}, hdrs', kept', limbo', landed)
  {
    forall d | d in hdrs' ensures HdrKey(cfg, d) != k {
      assert d in hdrs;
    }
  }

  lemma KeptLimbo<E(!new)>(cfg: Config<E>, me: nat, active: set<Key>, hdrs: multiset<Chan>,
                           kept: multiset<Pay<E>>, limbo: multiset<Pay<E>>, landed: multiset<Pay<E>>, p: Pay<E>)
    requires KeptOk(cfg, me, active, hdrs, kept, limbo, landed) && p in limbo
    ensures KeptOk(cfg, me, active, hdrs, kept, limbo - multiset{p}, landed) && p.eager && p.chan.dst == me
  {
  }

  lemma KeptLanded<E(!new)>(cfg: Config<E>, me: nat, active: set<Key>, hdrs: multiset<Chan>,
                            kept: multiset<Pay<E>>, limbo: multiset<Pay<E>>, landed: multiset<Pay<E>>, p: Pay<E>)
    requires KeptOk(cfg, me, active, hdrs, kept, limbo, landed)
    ensures KeptOk(cfg, me, active, hdrs, kept, limbo, landed - multiset{p})
  {
  }

  lemma KeptMore<E(!new)>(cfg: Config<E>, me: nat, active: set<Key>, hdrs: multiset<Chan>,
                          kept: multiset<Pay<E>>, limbo: multiset<Pay<E>>, landed: multiset<Pay<E>>, p: Pay<E>)
    requires KeptOk(cfg, me, active, hdrs, kept, limbo, landed) && p.eager && p.chan.dst == me && RecvKey(p.chan) !in active
    ensures KeptOk(cfg, me, active, hdrs, kept + multiset{p}, limbo, landed)
  {
  }

  lemma KeptHdr<E(!new)>(cfg: Config<E>, me: nat, active: set<Key>, hdrs: multiset<Chan>,
                         kept: multiset<Pay<E>>, limbo: multiset<Pay<E>>, landed: multiset<Pay<E>>, c: Chan)
    requires KeptOk(cfg, me, active, hdrs, kept, limbo, landed) && HdrHome(cfg, c) == me
    ensures HdrKey(cfg, c) !in active ==> KeptOk(cfg, me, active, hdrs + multiset{c}, kept, limbo, landed)
  {
  }

  lemma FewerActive<E(!new)>(cfg: Config<E>, me: nat, active: set<Key>, active': set<Key>, hdrs: multiset<Chan>,
                             kept: multiset<Pay<E>>, limbo: multiset<Pay<E>>, landed: multiset<Pay<E>>)
    requires active' <= active && KeptOk(cfg, me, active, hdrs, kept, limbo, landed)
    ensures KeptOk(cfg, me, active', hdrs, kept, limbo, landed)
  {
  }

  lemma LagGrows(completed: seq<Key>, fin: set<Key>, lag: set<Key>, k: Key)
    requires k !in fin && Logged(completed, fin, lag)
    ensures Logged(completed, fin + {k}, lag + {k})
  {
    assert fin + {k} - (lag + {k}) == fin - lag;
  }

  lemma LagShrinks(completed: seq<Key>, fin: set<Key>, lag: set<Key>, k: Key)
    requires k in fin && k !in lag && Logged(completed, fin, lag + {k})
    ensures Logged(completed + [k], fin, lag) && lag + {k} - {k} == lag
  {
    assert fin - lag == (fin - (lag + {k})) + {k};
  }

  lemma LagFinished(dag: Dag, begun: bool, started: set<Key>, fin: set<Key>, bk: Book, lag: set<Key>, k: Key)
    requires BookOk(dag, begun, started, fin, bk, lag, None) && k in lag
    ensures k in fin
  {
  }

  lemma FinishedKnown(dag: Dag, begun: bool, started: set<Key>, fin: set<Key>, bk: Book, lag: set<Key>, k: Key)
    requires BookOk(dag, begun, started, fin, bk, lag, None) && k in fin
    ensures k in dag.acts
  {
  }

  // Receiving a kept message again is a step of the rank if its receive is still
  // active, and puts it back otherwise.
  lemma RedeliveredIs<E(!new)>(cfg: Config<E>, r: nat, a: Local<E>, a': Local<E>, p: Pay<E>)
    requires Shaped(cfg) && r < cfg.n && p in a.st.payQ && p.eager && p.chan.dst == r
    requires a' == a.(st := a.st.(payQ := a.st.payQ - multiset{p}))
    ensures Active(a.st, RecvKey(p.chan)) ==> Reaches(cfg, r, a, Delivered(cfg, r, a', EagerMsg(p)))
    ensures !Active(a.st, RecvKey(p.chan)) ==> Delivered(cfg, r, a', EagerMsg(p)) == a
  {
    if Active(a.st, RecvKey(p.chan)) {
      OneStep(cfg, r, a, Eager(p));
    } else {
      assert a.st.payQ - multiset{p} + multiset{p} == a.st.payQ;
    }
  }
}
