// The collective as a state machine.  Every rank runs its own DAG of actions;
// messages travel in any order.  The rank-local transition functions are the
// ones the imperative engine (module Engine) is proved to follow.
module Protocol {
  import opened Actions

  type Mem<!E> = Cell -> E

  // One rank's schedule: its actions, and for each the actions it waits for.
  datatype Dag = Dag(acts: map<Key, Action>, pre: map<Key, set<Key>>)

  // Annotations of a schedule for the proofs about its data: a time stamp for
  // every action, the cells payloads are staged in, and the last time stamp.
  datatype Notes = Notes(time: (nat, Key) -> nat, scratch: (nat, Cell) -> bool, horizon: nat)

  lemma NotEmpty(acts: map<Key, Action>, k: Key)
    requires k in acts
    ensures acts != map[]
  {
  }

  // A collective instance.  The notes are ghost: nothing that runs reads them.
  datatype Config<!E(==,!new)> = Config(
    n: nat,
    dag: seq<Dag>,
    ptrs: seq<Ptrs>,
    useEager: nat -> bool,
    useGet: bool,
    op: (E, E) -> E,
    init: (nat, Cell) -> E,
    move: (nat, Key, Cell) -> Option<Cell>,
    finish: (nat, Mem<E>) -> Mem<E>,
    ghost notes: Notes)

  // A payload message: the bytes read from the sender's buffer.
  datatype Pay<!E(==,!new)> = Pay(chan: Chan, eager: bool, data: seq<E>)

  // Messages in flight.  hdrs: rendezvous headers.  reqs: transfers posted at
  // (or a get request travelling to) the sender's NIC, data not yet read.
  // pays: payloads on the wire.  acks: injection acks on their way back.
  datatype Net<!E(==,!new)> = Net(hdrs: multiset<Chan>, reqs: multiset<Chan>, pays: multiset<Pay<E>>, acks: multiset<Chan>)

  // One rank.  hdrQ and the eager part of payQ are the pending-header maps; the
  // rendezvous part of payQ holds payloads that have landed in memory and whose
  // completion is waiting to be polled.
  datatype Rank<!E(==,!new)> = Rank(begun: bool, started: set<Key>, fin: set<Key>, complete: bool, fault: bool,
                           mem: Mem<E>, hdrQ: multiset<Chan>, payQ: multiset<Pay<E>>)

  datatype Global<!E(==,!new)> = Global(ranks: seq<Rank<E>>, net: Net<E>)

  function NoMsgs<E(==,!new)>(): Net<E> { Net(multiset{}, multiset{}, multiset{}, multiset{}) }

  function Plus<E(==,!new)>(a: Net<E>, b: Net<E>): Net<E> {
    Net(a.hdrs + b.hdrs, a.reqs + b.reqs, a.pays + b.pays, a.acks + b.acks)
  }

  ghost predicate Shaped<E(!new)>(cfg: Config<E>) {
    && |cfg.dag| == cfg.n == |cfg.ptrs|
    && (forall r, k :: 0 <= r < cfg.n && k in cfg.dag[r].acts ==> cfg.dag[r].acts[k].Id() == k)
    && (forall r, k :: 0 <= r < cfg.n && k in cfg.dag[r].acts ==> k in cfg.dag[r].pre)
  }

  // ---------- rank-local transitions ----------

  predicate Active<E(==,!new)>(st: Rank<E>, k: Key) { k in st.started && k !in st.fin }

  ghost predicate Ready<E(!new)>(cfg: Config<E>, r: nat, st: Rank<E>, k: Key)
    requires Shaped(cfg) && r < cfg.n
  {
    && st.begun && k in cfg.dag[r].acts && k !in st.started
    && (forall d :: d in cfg.dag[r].pre[k] ==> d in st.fin)
  }

  function ShuffleMem<E(==,!new)>(cfg: Config<E>, r: nat, k: Key, mem: Mem<E>): Mem<E> {
    (c: Cell) => match cfg.move(r, k, c) case Some(from) => mem(from) case None => mem(c)
  }

  // startAction: sends and receives become active, shuffles and joins complete.
  ghost function Launch<E(!new)>(cfg: Config<E>, r: nat, st: Rank<E>, k: Key): Rank<E>
    requires Shaped(cfg) && r < cfg.n && k in cfg.dag[r].acts
  {
    match cfg.dag[r].acts[k]
    case ShuffleAction(_, _, _, _) =>
      st.(started := st.started + {k}, fin := st.fin + {k}, mem := ShuffleMem(cfg, r, k, st.mem))
    case JoinAction(_, _) => st.(started := st.started + {k}, fin := st.fin + {k})
    case _ => st.(started := st.started + {k})
  }

  // What doSend and doRecv post, by protocol (protocolForAction).
  ghost function LaunchMsgs<E(!new)>(cfg: Config<E>, r: nat, k: Key): Net<E>
    requires Shaped(cfg) && r < cfg.n && k in cfg.dag[r].acts
  {
    match cfg.dag[r].acts[k]
    case SendAction(round, partner, _, nelems, _) =>
      if cfg.useEager(nelems) then NoMsgs<E>().(reqs := multiset{Chan(r, partner, round)})
      else if cfg.useGet then NoMsgs<E>().(hdrs := multiset{Chan(r, partner, round)})
      else NoMsgs()
    case RecvAction(round, partner, _, nelems, _) =>
      if cfg.useEager(nelems) || cfg.useGet then NoMsgs()
      else NoMsgs<E>().(hdrs := multiset{Chan(partner, r, round)})
    case _ => NoMsgs()
  }

  // The rank a rendezvous header is addressed to: the receiver under get, the
  // sender under put (whose header is then reversed).
  function HdrHome<E(==,!new)>(cfg: Config<E>, c: Chan): nat { if cfg.useGet then c.dst else c.src }

  function HdrKey<E(==,!new)>(cfg: Config<E>, c: Chan): Key { if cfg.useGet then RecvKey(c) else SendKey(c) }

  // incomingHeader for get and put: act on the header, or keep it.
  function HandleHdr<E(==,!new)>(cfg: Config<E>, st: Rank<E>, c: Chan): Rank<E> {
    if Active(st, HdrKey(cfg, c)) then st else st.(hdrQ := st.hdrQ + multiset{c})
  }

  function HdrMsgs<E(==,!new)>(cfg: Config<E>, st: Rank<E>, c: Chan): Net<E> {
    if Active(st, HdrKey(cfg, c)) then NoMsgs<E>().(reqs := multiset{c}) else NoMsgs()
  }

  // The slicer calls of dataRecved.
  function RecvMem<E(==,!new)>(cfg: Config<E>, r: nat, a: Action, eager: bool, data: seq<E>, mem: Mem<E>): Mem<E>
    requires a.RecvAction? && r < |cfg.ptrs|
  {
    var dst := DstSpan(cfg.ptrs[r], a, eager);
    (c: Cell) =>
      if dst.Has(c) && c.idx - dst.off < |data| then
        if a.rbuf == Reduce then cfg.op(mem(c), data[c.idx - dst.off]) else data[c.idx - dst.off]
      else mem(c)
  }

  function ReadSpan<E(==,!new)>(mem: Mem<E>, s: Span): seq<E> { seq(s.len, i => mem(s.At(i))) }

  function WriteSpan<E(==,!new)>(mem: Mem<E>, s: Span, data: seq<E>): Mem<E> {
    (c: Cell) => if s.Has(c) && c.idx - s.off < |data| then data[c.idx - s.off] else mem(c)
  }

  // An eager payload: processed if its receive is active, kept otherwise.
  ghost function HandleEager<E(!new)>(cfg: Config<E>, r: nat, st: Rank<E>, p: Pay<E>): Rank<E>
    requires Shaped(cfg) && r < cfg.n
  {
    var k := RecvKey(p.chan);
    if !Active(st, k) then st.(payQ := st.payQ + multiset{p})
    else if k !in cfg.dag[r].acts || |p.data| != cfg.dag[r].acts[k].nelems then st.(fault := true)
    else st.(fin := st.fin + {k}, mem := RecvMem(cfg, r, cfg.dag[r].acts[k], true, p.data, st.mem))
  }

  // A landed RDMA payload: the data is taken from where it landed.
  ghost function HandleLanded<E(!new)>(cfg: Config<E>, r: nat, st: Rank<E>, c: Chan): Rank<E>
    requires Shaped(cfg) && r < cfg.n
  {
    var k := RecvKey(c);
    if !Active(st, k) || k !in cfg.dag[r].acts then st.(fault := true)
    else
      var a := cfg.dag[r].acts[k];
      var data := ReadSpan(st.mem, LandSpan(cfg.ptrs[r], a));
      st.(fin := st.fin + {k}, mem := RecvMem(cfg, r, a, false, data, st.mem))
  }

  // dataSent.
  function HandleAck<E(==,!new)>(st: Rank<E>, c: Chan): Rank<E> {
    if Active(st, SendKey(c)) then st.(fin := st.fin + {SendKey(c)}) else st.(fault := true)
  }

  // checkCollectiveDone succeeding: finalize, then the done notification.  It is
  // asked when an action finishes, so a rank without actions never completes.
  ghost predicate CanFinish<E(!new)>(cfg: Config<E>, r: nat, st: Rank<E>)
    requires Shaped(cfg) && r < cfg.n
  {
    st.begun && !st.complete && cfg.dag[r].acts != map[] && forall k :: k in cfg.dag[r].acts ==> k in st.fin
  }

  function Finish<E(==,!new)>(cfg: Config<E>, r: nat, st: Rank<E>): Rank<E> {
    st.(complete := true, mem := cfg.finish(r, st.mem))
  }

  // ---------- the whole system ----------

  datatype Step<!E(==,!new)> =
    | Begin(r: nat)
    | Start(r: nat, k: Key)
    | NetHdr(c: Chan)      // a header is delivered
    | HeldHdr(c: Chan)     // a kept header meets its action (reputPending)
    | Release(c: Chan)     // the sender's NIC reads the data and injects it
    | EagerIn(p: Pay<E>)   // an eager payload is delivered
    | HeldEager(p: Pay<E>) // a kept eager payload meets its receive (reputPending)
    | Land(p: Pay<E>)      // an RDMA payload is written into the receiver's memory
    | Landed(p: Pay<E>)    // its completion is polled
    | AckIn(c: Chan)
    | Done(r: nat)

  function InitRank<E(==,!new)>(cfg: Config<E>, r: nat): Rank<E> {
    Rank(false, {}, {}, false, false, (c: Cell) => cfg.init(r, c), multiset{}, multiset{})
  }

  function Init<E(==,!new)>(cfg: Config<E>): Global<E> {
    Global(seq(cfg.n, r requires r >= 0 => InitRank(cfg, r)), NoMsgs())
  }

  ghost predicate Enabled<E(!new)>(cfg: Config<E>, g: Global<E>, s: Step<E>)
    requires Shaped(cfg) && |g.ranks| == cfg.n
  {
    match s
    case Begin(r) => r < cfg.n && !g.ranks[r].begun
    case Start(r, k) => r < cfg.n && Ready(cfg, r, g.ranks[r], k)
    case NetHdr(c) => c in g.net.hdrs && HdrHome(cfg, c) < cfg.n && g.ranks[HdrHome(cfg, c)].begun
    case HeldHdr(c) =>
      HdrHome(cfg, c) < cfg.n && c in g.ranks[HdrHome(cfg, c)].hdrQ && Active(g.ranks[HdrHome(cfg, c)], HdrKey(cfg, c))
    case Release(c) => c in g.net.reqs && c.src < cfg.n
                       && SendKey(c) in cfg.dag[c.src].acts && cfg.dag[c.src].acts[SendKey(c)].SendAction?
    case EagerIn(p) => p in g.net.pays && p.eager && p.chan.dst < cfg.n && g.ranks[p.chan.dst].begun
    case HeldEager(p) =>
      p.chan.dst < cfg.n && p in g.ranks[p.chan.dst].payQ && p.eager && Active(g.ranks[p.chan.dst], RecvKey(p.chan))
    case Land(p) => p in g.net.pays && !p.eager && p.chan.dst < cfg.n
                    && RecvKey(p.chan) in cfg.dag[p.chan.dst].acts
    case Landed(p) => p.chan.dst < cfg.n && p in g.ranks[p.chan.dst].payQ && !p.eager
    case AckIn(c) => c in g.net.acks && c.src < cfg.n
    case Done(r) => r < cfg.n && CanFinish(cfg, r, g.ranks[r])
  }

  function Put<E(==,!new)>(g: Global<E>, r: nat, st: Rank<E>, net: Net<E>): Global<E>
    requires r < |g.ranks|
  {
    Global(g.ranks[r := st], net)
  }

  ghost function DoStart<E(!new)>(cfg: Config<E>, g: Global<E>, r: nat, k: Key): Global<E>
    requires Shaped(cfg) && |g.ranks| == cfg.n && r < cfg.n && k in cfg.dag[r].acts
  {
    Put(g, r, Launch(cfg, r, g.ranks[r], k), Plus(g.net, LaunchMsgs(cfg, r, k)))
  }

  function DoNetHdr<E(==,!new)>(cfg: Config<E>, g: Global<E>, c: Chan): Global<E>
    requires HdrHome(cfg, c) < |g.ranks|
  {
    var r := HdrHome(cfg, c);
    Put(g, r, HandleHdr(cfg, g.ranks[r], c),
        Plus(g.net.(hdrs := g.net.hdrs - multiset{c}), HdrMsgs(cfg, g.ranks[r], c)))
  }

  function DoHeldHdr<E(==,!new)>(cfg: Config<E>, g: Global<E>, c: Chan): Global<E>
    requires HdrHome(cfg, c) < |g.ranks|
  {
    var r := HdrHome(cfg, c);
    var st := g.ranks[r].(hdrQ := g.ranks[r].hdrQ - multiset{c});
    Put(g, r, HandleHdr(cfg, st, c), Plus(g.net, HdrMsgs(cfg, st, c)))
  }

  // The payload the sender's NIC injects on channel c when it reads the buffer.
  ghost function Injected<E(!new)>(cfg: Config<E>, g: Global<E>, c: Chan): Pay<E>
    requires Shaped(cfg) && |g.ranks| == cfg.n && c.src < cfg.n
    requires SendKey(c) in cfg.dag[c.src].acts && cfg.dag[c.src].acts[SendKey(c)].SendAction?
  {
    var a := cfg.dag[c.src].acts[SendKey(c)];
    Pay(c, cfg.useEager(a.nelems), ReadSpan(g.ranks[c.src].mem, SendSpan(cfg.ptrs[c.src], a)))
  }

  function DoRelease<E(==,!new)>(g: Global<E>, c: Chan, p: Pay<E>): Global<E> {
    Global(g.ranks, Net(g.net.hdrs, g.net.reqs - multiset{c}, g.net.pays + multiset{p}, g.net.acks + multiset{c}))
  }

  ghost function DoEagerIn<E(!new)>(cfg: Config<E>, g: Global<E>, p: Pay<E>): Global<E>
    requires Shaped(cfg) && |g.ranks| == cfg.n && p.chan.dst < cfg.n
  {
    Put(g, p.chan.dst, HandleEager(cfg, p.chan.dst, g.ranks[p.chan.dst], p), g.net.(pays := g.net.pays - multiset{p}))
  }

  ghost function DoHeldEager<E(!new)>(cfg: Config<E>, g: Global<E>, p: Pay<E>): Global<E>
    requires Shaped(cfg) && |g.ranks| == cfg.n && p.chan.dst < cfg.n
  {
    var st0 := g.ranks[p.chan.dst];
    Put(g, p.chan.dst, HandleEager(cfg, p.chan.dst, st0.(payQ := st0.payQ - multiset{p}), p), g.net)
  }

  ghost function DoLand<E(!new)>(cfg: Config<E>, g: Global<E>, p: Pay<E>): Global<E>
    requires Shaped(cfg) && |g.ranks| == cfg.n && p.chan.dst < cfg.n
    requires RecvKey(p.chan) in cfg.dag[p.chan.dst].acts
  {
    var r := p.chan.dst;
    var st0 := g.ranks[r];
    var a := cfg.dag[r].acts[RecvKey(p.chan)];
    assert a.Id() == RecvKey(p.chan);
    Put(g, r, st0.(payQ := st0.payQ + multiset{p}, mem := WriteSpan(st0.mem, LandSpan(cfg.ptrs[r], a), p.data)),
        g.net.(pays := g.net.pays - multiset{p}))
  }

  ghost function DoLanded<E(!new)>(cfg: Config<E>, g: Global<E>, p: Pay<E>): Global<E>
    requires Shaped(cfg) && |g.ranks| == cfg.n && p.chan.dst < cfg.n
  {
    var st0 := g.ranks[p.chan.dst];
    Put(g, p.chan.dst, HandleLanded(cfg, p.chan.dst, st0.(payQ := st0.payQ - multiset{p}), p.chan), g.net)
  }

  function DoAckIn<E(==,!new)>(g: Global<E>, c: Chan): Global<E>
    requires c.src < |g.ranks|
  {
    Put(g, c.src, HandleAck(g.ranks[c.src], c), g.net.(acks := g.net.acks - multiset{c}))
  }

  ghost function Do<E(!new)>(cfg: Config<E>, g: Global<E>, s: Step<E>): (g': Global<E>)
    requires Shaped(cfg) && |g.ranks| == cfg.n && Enabled(cfg, g, s)
    ensures |g'.ranks| == cfg.n
  {
    match s
    case Begin(r) => Put(g, r, g.ranks[r].(begun := true), g.net)
    case Start(r, k) => DoStart(cfg, g, r, k)
    case NetHdr(c) => DoNetHdr(cfg, g, c)
    case HeldHdr(c) => DoHeldHdr(cfg, g, c)
    case Release(c) => DoRelease(g, c, Injected(cfg, g, c))
    case EagerIn(p) => DoEagerIn(cfg, g, p)
    case HeldEager(p) => DoHeldEager(cfg, g, p)
    case Land(p) => DoLand(cfg, g, p)
    case Landed(p) => DoLanded(cfg, g, p)
    case AckIn(c) => DoAckIn(g, c)
    case Done(r) => Put(g, r, Finish(cfg, r, g.ranks[r]), g.net)
  }

  // A run is a sequence of steps, each enabled where it is taken.
  ghost predicate IsRun<E(!new)>(cfg: Config<E>, steps: seq<Step<E>>)
    requires Shaped(cfg)
    decreases |steps|, 0
  {
    steps == [] ||
    (IsRun(cfg, steps[..|steps| - 1]) && Enabled(cfg, After(cfg, steps[..|steps| - 1]), steps[|steps| - 1]))
  }

  ghost function After<E(!new)>(cfg: Config<E>, steps: seq<Step<E>>): (g: Global<E>)
    requires Shaped(cfg) && IsRun(cfg, steps)
    ensures |g.ranks| == cfg.n
    decreases |steps|, 1
  {
    if steps == [] then Init(cfg)
    else Do(cfg, After(cfg, steps[..|steps| - 1]), steps[|steps| - 1])
  }
}
