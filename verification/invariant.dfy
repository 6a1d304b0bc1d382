// What every reachable state of a collective satisfies: each rank respects its
// dependencies, every message is accounted for exactly once, and every cell
// that is not under transfer holds its round-synchronous value.
module Invariant {
  import opened Actions
  import opened Protocol
  import opened Schedule

  function B(b: bool): nat { if b then 1 else 0 }

  // ---------- channels ----------

  ghost function SendAct<E(!new)>(cfg: Config<E>, c: Chan): (a: Action)
    requires Basic(cfg) && IsChan(cfg, c)
    ensures a.SendAction? && ChanOk(cfg, c)
  {
    assert ChanOf(c.src, SendKey(c)) == c;
    assert cfg.dag[c.src].acts[SendKey(c)].Id() == SendKey(c);
    cfg.dag[c.src].acts[SendKey(c)]
  }

  ghost function RecvAct<E(!new)>(cfg: Config<E>, c: Chan): (a: Action)
    requires Basic(cfg) && IsChan(cfg, c)
    ensures a.RecvAction? && ChanOk(cfg, c) && a == cfg.dag[c.dst].acts[RecvKey(c)]
    ensures a.nelems == SendAct(cfg, c).nelems
  {
    assert ChanOf(c.src, SendKey(c)) == c;
    assert cfg.dag[c.dst].acts[RecvKey(c)].Id() == RecvKey(c);
    cfg.dag[c.dst].acts[RecvKey(c)]
  }

  ghost predicate EagerChan<E(!new)>(cfg: Config<E>, c: Chan)
    requires Basic(cfg) && IsChan(cfg, c)
  {
    cfg.useEager(SendAct(cfg, c).nelems)
  }

  ghost function SrcSpan<E(!new)>(cfg: Config<E>, c: Chan): (s: Span)
    requires Basic(cfg) && IsChan(cfg, c)
    ensures s.len == SendAct(cfg, c).nelems
  {
    SendSpan(cfg.ptrs[c.src], SendAct(cfg, c))
  }

  // A ledger says which payload each channel is to carry.
  type Ledger<!E(==,!new)> = Chan -> Pay<E>

  ghost predicate EntryOk<E(!new)>(cfg: Config<E>, lg: Ledger<E>, c: Chan)
    requires Basic(cfg) && IsChan(cfg, c)
  {
    lg(c).chan == c && lg(c).eager == EagerChan(cfg, c) && |lg(c).data| == SendAct(cfg, c).nelems
  }

  ghost predicate LedgerOk<E(!new)>(cfg: Config<E>, lg: Ledger<E>)
    requires Basic(cfg)
  {
    forall c {:trigger EntryOk(cfg, lg, c)} :: IsChan(cfg, c) ==> EntryOk(cfg, lg, c)
  }

  // What can be seen of one channel: its messages by kind (pending ones
  // included), and whether its two actions are started and finished.
  datatype Look = Look(hdr: nat, req: nat, pay: nat, ack: nat,
                       sendOn: bool, sent: bool, recvOn: bool, recvd: bool)

  ghost function LookAt<E(!new)>(cfg: Config<E>, lg: Ledger<E>, g: Global<E>, c: Chan): Look
    requires c.src < |g.ranks| && c.dst < |g.ranks|
  {
    var s, d := g.ranks[c.src], g.ranks[c.dst];
    Look(g.net.hdrs[c] + (if cfg.useGet then d else s).hdrQ[c],
         g.net.reqs[c],
         g.net.pays[lg(c)] + d.payQ[lg(c)],
         g.net.acks[c],
         SendKey(c) in s.started, SendKey(c) in s.fin, RecvKey(c) in d.started, RecvKey(c) in d.fin)
  }

  // Conservation: from the moment a channel is opened (by its sender under
  // eager and get, by its receiver under put) there is exactly one token for
  // its data (a header, a posted transfer or the payload, until the receive is
  // finished) and exactly one for its acknowledgement.
  predicate Balanced(eager: bool, get: bool, l: Look) {
    var open := B(if eager || get then l.sendOn else l.recvOn);
    && l.hdr + l.req + l.pay + B(l.recvd) == open
    && l.hdr + l.req + l.ack + B(l.sent) == open
    && (eager ==> l.hdr == 0)
    && (!eager && open == 1 && l.hdr == 0 ==> l.sendOn && l.recvOn)
  }

  ghost predicate Conserved<E(!new)>(cfg: Config<E>, lg: Ledger<E>, g: Global<E>, c: Chan)
    requires Basic(cfg) && |g.ranks| == cfg.n && IsChan(cfg, c)
  {
    Balanced(EagerChan(cfg, c), cfg.useGet, LookAt(cfg, lg, g, c))
  }

  // No message in flight is outside its channel or carries anything but its payload.
  ghost predicate NetOk<E(!new)>(cfg: Config<E>, lg: Ledger<E>, net: Net<E>)
    requires Basic(cfg)
  {
    && (forall c :: c in net.hdrs ==> IsChan(cfg, c))
    && (forall c :: c in net.reqs ==> IsChan(cfg, c))
    && (forall c :: c in net.acks ==> IsChan(cfg, c))
    && (forall p :: p in net.pays ==> IsChan(cfg, p.chan) && p == lg(p.chan))
  }

  // The one payload the round-synchronous reading allows on channel c.
  ghost function Exp<E(!new)>(cfg: Config<E>, c: Chan): Pay<E>
    requires Basic(cfg) && IsChan(cfg, c)
  {
    var s := SrcSpan(cfg, c);
    var t := cfg.notes.time(c.src, SendKey(c));
    Pay(c, EagerChan(cfg, c), seq(s.len, i => At(cfg, t, c.src, s.At(i))))
  }

  ghost function Expected<E(!new)>(cfg: Config<E>): (lg: Ledger<E>)
    requires Basic(cfg)
    ensures LedgerOk(cfg, lg)
    ensures forall c :: IsChan(cfg, c) ==> lg(c) == Exp(cfg, c)
  {
    var lg := (c: Chan) => if IsChan(cfg, c) then Exp(cfg, c) else Pay(c, false, []);
    assert forall c :: IsChan(cfg, c) ==> lg(c) == Exp(cfg, c);
    lg
  }

  // ---------- ranks ----------

  ghost predicate RankOk<E(!new)>(cfg: Config<E>, r: nat, st: Rank<E>)
    requires Basic(cfg) && r < cfg.n
  {
    && !st.fault
    && (forall k :: k in st.fin ==> k in st.started)
    && (forall k :: k in st.started ==> k in cfg.dag[r].acts && st.begun)
    && (forall k, d :: k in st.started && d in cfg.dag[r].pre[k] ==> d in st.fin)
    && (forall k :: k in st.started && !IsComm(k) ==> k in st.fin)
    && (st.complete ==> st.begun && cfg.dag[r].acts != map[] && forall k :: k in cfg.dag[r].acts ==> k in st.fin)
  }

  // The messages a rank keeps are its own.
  ghost predicate QueuesOk<E(!new)>(cfg: Config<E>, lg: Ledger<E>, r: nat, st: Rank<E>)
    requires Basic(cfg) && r < cfg.n
  {
    && (forall c :: c in st.hdrQ ==> IsChan(cfg, c) && HdrHome(cfg, c) == r)
    && (forall p :: p in st.payQ ==> IsChan(cfg, p.chan) && p == lg(p.chan) && p.chan.dst == r)
  }

  ghost predicate Local<E(!new)>(cfg: Config<E>, lg: Ledger<E>, r: nat, st: Rank<E>)
    requires Basic(cfg) && r < cfg.n
  {
    RankOk(cfg, r, st) && QueuesOk(cfg, lg, r, st)
  }

  lemma {:induction false} PrecFin<E(!new)>(cfg: Config<E>, r: nat, st: Rank<E>, a: Key, b: Key)
    requires Basic(cfg) && Timed(cfg) && r < cfg.n && RankOk(cfg, r, st)
    requires Prec(cfg, r, a, b) && forall d :: d in cfg.dag[r].pre[b] ==> d in st.fin
    ensures a in st.fin
    decreases cfg.notes.time(r, b)
  {
    if a !in cfg.dag[r].pre[b] {
      var d :| d in cfg.dag[r].pre[b] && cfg.notes.time(r, d) < cfg.notes.time(r, b) && Prec(cfg, r, a, d);
      PrecFin(cfg, r, st, a, d);
    }
  }

  // ---------- memory ----------

  // k's result is in memory: it is finished, or its payload landed in place.
  ghost predicate Applied<E(!new)>(cfg: Config<E>, r: nat, st: Rank<E>, k: Key)
    requires WellFormed(cfg) && r < cfg.n && k in cfg.dag[r].acts
  {
    k in st.fin || LandedDirect(cfg, r, st, k)
  }

  ghost predicate LandedDirect<E(!new)>(cfg: Config<E>, r: nat, st: Rank<E>, k: Key)
    requires WellFormed(cfg) && r < cfg.n && k in cfg.dag[r].acts
  {
    && cfg.dag[r].acts[k].RecvAction? && Direct(cfg.ptrs[r], cfg.dag[r].acts[k])
    && exists p :: p in st.payQ && !p.eager && p.chan == ChanOf(r, k)
  }

  // Exactly the writers of c with a time stamp below t have been applied.
  ghost predicate Threshold<E(!new)>(cfg: Config<E>, r: nat, st: Rank<E>, c: Cell, t: nat)
    requires WellFormed(cfg) && r < cfg.n
  {
    forall k :: Writes(cfg, r, k, c) ==> (Applied(cfg, r, st, k) <==> cfg.notes.time(r, k) < t)
  }

  ghost predicate CellOk<E(!new)>(cfg: Config<E>, r: nat, st: Rank<E>, c: Cell)
    requires WellFormed(cfg) && r < cfg.n
  {
    forall t: nat :: Threshold(cfg, r, st, c, t) ==> st.mem(c) == At(cfg, t, r, c)
  }

  // A landed payload is still where it landed.
  ghost predicate ZoneOk<E(!new)>(cfg: Config<E>, r: nat, st: Rank<E>, p: Pay<E>)
    requires WellFormed(cfg) && r < cfg.n && IsChan(cfg, p.chan) && p.chan.dst == r
  {
    var z := LandSpan(cfg.ptrs[r], RecvAct(cfg, p.chan));
    |p.data| == z.len && forall i :: 0 <= i < z.len ==> st.mem(z.At(i)) == p.data[i]
  }

  // After finalization memory is the image of a round-synchronous final memory.
  ghost predicate Sealed<E(!new)>(cfg: Config<E>, r: nat, mem: Mem<E>)
    requires WellFormed(cfg) && r < cfg.n
  {
    exists m: Mem<E> :: mem == cfg.finish(r, m) && FinalMem(cfg, r, m)
  }

  ghost predicate FinalMem<E(!new)>(cfg: Config<E>, r: nat, m: Mem<E>)
    requires WellFormed(cfg) && r < cfg.n
  {
    forall c :: !cfg.notes.scratch(r, c) ==> m(c) == At(cfg, cfg.notes.horizon, r, c)
  }

  ghost predicate MemOk<E(!new)>(cfg: Config<E>, r: nat, st: Rank<E>)
    requires WellFormed(cfg) && r < cfg.n
  {
    if st.complete then Sealed(cfg, r, st.mem)
    else
      && (forall c :: !cfg.notes.scratch(r, c) ==> CellOk(cfg, r, st, c))
      && (forall p :: p in st.payQ && !p.eager && IsChan(cfg, p.chan) && p.chan.dst == r ==> ZoneOk(cfg, r, st, p))
  }

  // ---------- the invariant ----------

  ghost predicate Control<E(!new)>(cfg: Config<E>, lg: Ledger<E>, g: Global<E>)
    requires Basic(cfg)
  {
    && |g.ranks| == cfg.n
    && (forall r: nat {:trigger Local(cfg, lg, r, g.ranks[r])} :: r < cfg.n ==> Local(cfg, lg, r, g.ranks[r]))
    && NetOk(cfg, lg, g.net)
    && (forall c {:trigger Conserved(cfg, lg, g, c)} :: IsChan(cfg, c) ==> Conserved(cfg, lg, g, c))
  }

  ghost predicate Inv<E(!new)>(cfg: Config<E>, g: Global<E>)
    requires WellFormed(cfg)
  {
    Control(cfg, Expected(cfg), g) && forall r: nat :: r < cfg.n ==> MemOk(cfg, r, g.ranks[r])
  }

  lemma InitControl<E(!new)>(cfg: Config<E>, lg: Ledger<E>)
    requires Basic(cfg)
    ensures Control(cfg, lg, Init(cfg))
  {
    var g := Init(cfg);
    forall c | IsChan(cfg, c) ensures Conserved(cfg, lg, g, c) {
      assert ChanOk(cfg, c) by { var _ := SendAct(cfg, c); }
    }
  }

  lemma InitInv<E(!new)>(cfg: Config<E>)
    requires WellFormed(cfg)
    ensures Inv(cfg, Init(cfg))
  {
    var g := Init(cfg);
    InitControl(cfg, Expected(cfg));
    forall r: nat, c | r < cfg.n && !cfg.notes.scratch(r, c)
      ensures CellOk(cfg, r, g.ranks[r], c)
    {
      forall t: nat | Threshold(cfg, r, g.ranks[r], c, t)
        ensures g.ranks[r].mem(c) == At(cfg, t, r, c)
      {
        AtStable(cfg, 0, t, r, c);
      }
    }
  }
}
