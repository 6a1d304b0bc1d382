// What a family of per-rank DAGs must satisfy, and the round-synchronous
// reading of it: At(cfg, t, r, c) is the content of cell c of rank r once every
// action with time stamp below t has been carried out, round by round.
module Schedule {
  import opened Actions
  import opened Protocol

  // ---------- static conditions ----------

  ghost predicate IsChan<E(!new)>(cfg: Config<E>, c: Chan)
    requires Shaped(cfg)
  {
    c.src < cfg.n && c.dst < cfg.n && SendKey(c) in cfg.dag[c.src].acts
  }

  ghost predicate ChanOk<E(!new)>(cfg: Config<E>, c: Chan)
    requires Shaped(cfg)
  {
    && c.src < cfg.n && c.dst < cfg.n && c.src != c.dst
    && SendKey(c) in cfg.dag[c.src].acts && RecvKey(c) in cfg.dag[c.dst].acts
    && cfg.dag[c.src].acts[SendKey(c)].nelems == cfg.dag[c.dst].acts[RecvKey(c)].nelems
  }

  // The channel a send or receive of rank r belongs to.
  function ChanOf(r: nat, k: Key): Chan {
    if k.kind == Send then Chan(r, k.partner, k.round) else Chan(k.partner, r, k.round)
  }

  predicate IsComm(k: Key) { k.kind == Send || k.kind == Recv }

  // Sends and receives match one to one, with equal sizes.
  ghost predicate Matched<E(!new)>(cfg: Config<E>)
    requires Shaped(cfg)
  {
    forall r: nat, k {:trigger ChanOf(r, k)} :: r < cfg.n && k in cfg.dag[r].acts && IsComm(k) ==> ChanOk(cfg, ChanOf(r, k))
  }

  ghost predicate Basic<E(!new)>(cfg: Config<E>) { Shaped(cfg) && Matched(cfg) }

  // The messages of the plan: one for each send.
  ghost function Messages<E(!new)>(cfg: Config<E>): set<Chan>
    requires Shaped(cfg)
  {
    set r: nat, k | r < cfg.n && k in cfg.dag[r].acts && k.kind == Send :: ChanOf(r, k)
  }

  ghost predicate Simultaneous<E(!new)>(cfg: Config<E>, c: Chan) {
    cfg.notes.time(c.src, SendKey(c)) == cfg.notes.time(c.dst, RecvKey(c))
  }

  // Dependencies stay inside the DAG and go strictly up in time, and the two
  // ends of a message have the same time.
  ghost predicate Timed<E(!new)>(cfg: Config<E>)
    requires Shaped(cfg)
  {
    && (forall r: nat, k {:trigger ChanOf(r, k)} :: r < cfg.n && k in cfg.dag[r].acts && IsComm(k) ==>
          Simultaneous(cfg, ChanOf(r, k)))
    && (forall r: nat, k, d :: r < cfg.n && k in cfg.dag[r].acts && d in cfg.dag[r].pre[k] ==>
          d in cfg.dag[r].acts && cfg.notes.time(r, d) < cfg.notes.time(r, k))
    && (forall r: nat, k :: r < cfg.n && k in cfg.dag[r].acts ==> cfg.notes.time(r, k) < cfg.notes.horizon)
  }

  // a must be finished before b can start.
  ghost predicate Prec<E(!new)>(cfg: Config<E>, r: nat, a: Key, b: Key)
    requires Shaped(cfg) && r < cfg.n
    decreases cfg.notes.time(r, b)
  {
    b in cfg.dag[r].acts &&
    (a in cfg.dag[r].pre[b] ||
     exists d :: d in cfg.dag[r].pre[b] && cfg.notes.time(r, d) < cfg.notes.time(r, b) && Prec(cfg, r, a, d))
  }

  // k leaves a result in c.
  ghost predicate Writes<E(!new)>(cfg: Config<E>, r: nat, k: Key, c: Cell)
    requires Shaped(cfg) && r < cfg.n
  {
    k in cfg.dag[r].acts &&
    match cfg.dag[r].acts[k]
    case SendAction(_, _, _, _, _) => false
    case RecvAction(_, _, _, nelems, _) => DstSpan(cfg.ptrs[r], cfg.dag[r].acts[k], cfg.useEager(nelems)).Has(c)
    case ShuffleAction(_, _, _, _) => cfg.move(r, k, c).Some?
    case JoinAction(_, _) => false
  }

  // c is changed while k runs: its results, or the landing zone of its payload.
  ghost predicate Mutates<E(!new)>(cfg: Config<E>, r: nat, k: Key, c: Cell)
    requires Shaped(cfg) && r < cfg.n
  {
    k in cfg.dag[r].acts &&
    (Writes(cfg, r, k, c) ||
     (cfg.dag[r].acts[k].RecvAction? && LandSpan(cfg.ptrs[r], cfg.dag[r].acts[k]).Has(c)))
  }

  ghost predicate Reads<E(!new)>(cfg: Config<E>, r: nat, k: Key, c: Cell)
    requires Shaped(cfg) && r < cfg.n
  {
    k in cfg.dag[r].acts &&
    match cfg.dag[r].acts[k]
    case SendAction(_, _, _, _, _) => SendSpan(cfg.ptrs[r], cfg.dag[r].acts[k]).Has(c)
    case RecvAction(_, _, _, _, _) => false
    case ShuffleAction(_, _, _, _) => exists c' :: cfg.move(r, k, c') == Some(c)
    case JoinAction(_, _) => false
  }

  // Race freedom: actions of one rank that touch a common cell, one of them
  // changing it, are ordered by the dependencies.
  ghost predicate RaceFree<E(!new)>(cfg: Config<E>)
    requires Shaped(cfg)
  {
    forall r: nat, a, b, c :: r < cfg.n && a != b && Mutates(cfg, r, a, c)
                              && (Mutates(cfg, r, b, c) || Reads(cfg, r, b, c)) ==>
      Prec(cfg, r, a, b) || Prec(cfg, r, b, a)
  }

  // The payload lands where it is wanted.
  predicate Direct(p: Ptrs, a: Action)
    requires a.RecvAction?
  {
    LandSpan(p, a) == DstSpan(p, a, false) && a.rbuf != Reduce
  }

  // c holds k's payload between its landing and its processing.
  ghost predicate Stages<E(!new)>(cfg: Config<E>, r: nat, k: Key, c: Cell)
    requires Shaped(cfg) && r < cfg.n
  {
    && k in cfg.dag[r].acts && cfg.dag[r].acts[k].RecvAction?
    && LandSpan(cfg.ptrs[r], cfg.dag[r].acts[k]).Has(c)
    && !Direct(cfg.ptrs[r], cfg.dag[r].acts[k])
  }

  // Staging cells are used for landing only.
  ghost predicate ScratchOk<E(!new)>(cfg: Config<E>)
    requires Shaped(cfg)
  {
    && (forall r: nat, k, c :: r < cfg.n && (Writes(cfg, r, k, c) || Reads(cfg, r, k, c)) ==> !cfg.notes.scratch(r, c))
    && (forall r: nat, k, c :: r < cfg.n && Stages(cfg, r, k, c) ==> cfg.notes.scratch(r, c))
  }

  ghost predicate WellFormed<E(!new)>(cfg: Config<E>) {
    Basic(cfg) && Timed(cfg) && RaceFree(cfg) && ScratchOk(cfg)
  }

  // ---------- round-synchronous semantics ----------

  ghost predicate Writer<E(!new)>(cfg: Config<E>, r: nat, t: nat, c: Cell, k: Key)
    requires Shaped(cfg) && r < cfg.n
  {
    Writes(cfg, r, k, c) && cfg.notes.time(r, k) == t
  }

  ghost predicate HasWriter<E(!new)>(cfg: Config<E>, r: nat, t: nat, c: Cell)
    requires Shaped(cfg) && r < cfg.n
  {
    exists k :: Writer(cfg, r, t, c, k)
  }

  ghost function TheWriter<E(!new)>(cfg: Config<E>, r: nat, t: nat, c: Cell): (k: Key)
    requires Shaped(cfg) && r < cfg.n && HasWriter(cfg, r, t, c)
    ensures Writer(cfg, r, t, c, k)
  {
    var k :| Writer(cfg, r, t, c, k);
    k
  }

  // The cell from which the payload of receive k brings the new content of c.
  ghost function Origin<E(!new)>(cfg: Config<E>, r: nat, k: Key, c: Cell): (o: (nat, Cell))
    requires Basic(cfg) && r < cfg.n && Writes(cfg, r, k, c)
    ensures o.0 < cfg.n
  {
    var a := cfg.dag[r].acts[k];
    if a.RecvAction? then
      var ch := ChanOf(r, k);
      assert ChanOk(cfg, ch);
      assert cfg.dag[ch.src].acts[SendKey(ch)].Id() == SendKey(ch);
      var dst := DstSpan(cfg.ptrs[r], a, cfg.useEager(a.nelems));
      (ch.src, SendSpan(cfg.ptrs[ch.src], cfg.dag[ch.src].acts[SendKey(ch)]).At(c.idx - dst.off))
    else (r, cfg.move(r, k, c).value)
  }

  ghost predicate Reduces<E(!new)>(cfg: Config<E>, r: nat, k: Key)
    requires Shaped(cfg) && r < cfg.n && k in cfg.dag[r].acts
  {
    cfg.dag[r].acts[k].RecvAction? && cfg.dag[r].acts[k].rbuf == Reduce
  }

  ghost function At<E(!new)>(cfg: Config<E>, t: nat, r: nat, c: Cell): E
    requires Basic(cfg) && r < cfg.n
    decreases t
  {
    if t == 0 then cfg.init(r, c)
    else if HasWriter(cfg, r, t - 1, c) then
      var k := TheWriter(cfg, r, t - 1, c);
      var o := Origin(cfg, r, k, c);
      var d := At(cfg, t - 1, o.0, o.1);
      if Reduces(cfg, r, k) then cfg.op(At(cfg, t - 1, r, c), d) else d
    else At(cfg, t - 1, r, c)
  }

  // The value k gives to c when it sees every rank as it is at time t.
  ghost function NewVal<E(!new)>(cfg: Config<E>, t: nat, r: nat, c: Cell, k: Key): E
    requires Basic(cfg) && r < cfg.n && Writes(cfg, r, k, c)
  {
    var o := Origin(cfg, r, k, c);
    var d := At(cfg, t, o.0, o.1);
    if Reduces(cfg, r, k) then cfg.op(At(cfg, t, r, c), d) else d
  }

  lemma {:induction false} PrecTime<E(!new)>(cfg: Config<E>, r: nat, a: Key, b: Key)
    requires Shaped(cfg) && Timed(cfg) && r < cfg.n && Prec(cfg, r, a, b)
    ensures a in cfg.dag[r].acts && cfg.notes.time(r, a) < cfg.notes.time(r, b)
    decreases cfg.notes.time(r, b)
  {
    if a !in cfg.dag[r].pre[b] {
      var d :| d in cfg.dag[r].pre[b] && cfg.notes.time(r, d) < cfg.notes.time(r, b) && Prec(cfg, r, a, d);
      PrecTime(cfg, r, a, d);
    }
  }

  lemma {:induction false} PrecTrans<E(!new)>(cfg: Config<E>, r: nat, a: Key, b: Key, c: Key)
    requires Shaped(cfg) && Timed(cfg) && r < cfg.n && Prec(cfg, r, a, b) && Prec(cfg, r, b, c)
    ensures Prec(cfg, r, a, c)
    decreases cfg.notes.time(r, c)
  {
    if b !in cfg.dag[r].pre[c] {
      var d :| d in cfg.dag[r].pre[c] && cfg.notes.time(r, d) < cfg.notes.time(r, c) && Prec(cfg, r, b, d);
      PrecTrans(cfg, r, a, b, d);
    }
  }

  lemma AtWrite<E(!new)>(cfg: Config<E>, t: nat, r: nat, c: Cell, k: Key)
    requires WellFormed(cfg) && r < cfg.n && Writer(cfg, r, t, c, k)
    ensures At(cfg, t + 1, r, c) == NewVal(cfg, t, r, c, k)
  {
    forall k' | Writer(cfg, r, t, c, k')
      ensures k' == k
    {
      if k' != k {
        assert Mutates(cfg, r, k, c) && Mutates(cfg, r, k', c);
        if Prec(cfg, r, k, k') { PrecTime(cfg, r, k, k'); } else { PrecTime(cfg, r, k', k); }
      }
    }
  }

  lemma AtFrame<E(!new)>(cfg: Config<E>, t: nat, r: nat, c: Cell)
    requires Basic(cfg) && r < cfg.n
    requires forall k :: !Writer(cfg, r, t, c, k)
    ensures At(cfg, t + 1, r, c) == At(cfg, t, r, c)
  {
  }

  lemma {:induction false} AtStable<E(!new)>(cfg: Config<E>, t: nat, t': nat, r: nat, c: Cell)
    requires Basic(cfg) && r < cfg.n && t <= t'
    requires forall k :: Writes(cfg, r, k, c) ==> cfg.notes.time(r, k) < t || t' <= cfg.notes.time(r, k)
    ensures At(cfg, t', r, c) == At(cfg, t, r, c)
    decreases t' - t
  {
    if t < t' {
      AtStable(cfg, t, t' - 1, r, c);
      AtFrame(cfg, t' - 1, r, c);
    }
  }

  // ---------- chains of dependencies ----------

  ghost predicate Linked<E(!new)>(cfg: Config<E>, r: nat, a: Key, b: Key)
    requires Shaped(cfg) && r < cfg.n
  {
    b in cfg.dag[r].acts && a in cfg.dag[r].pre[b] && cfg.notes.time(r, a) < cfg.notes.time(r, b)
  }

  lemma LinkPrec<E(!new)>(cfg: Config<E>, r: nat, a: Key, d: Key, b: Key)
    requires Shaped(cfg) && r < cfg.n && Linked(cfg, r, d, b) && (a == d || Prec(cfg, r, a, d))
    ensures Prec(cfg, r, a, b)
  {
  }

  // A chain f(s), f(s+1), .., f(t-1), b of dependencies orders its ends.
  lemma {:induction false} ChainPrec<E(!new)>(cfg: Config<E>, r: nat, f: nat -> Key, s: nat, t: nat, b: Key)
    requires Shaped(cfg) && r < cfg.n && s < t
    requires forall i: nat :: s <= i < t - 1 ==> Linked(cfg, r, f(i), f(i + 1))
    requires Linked(cfg, r, f(t - 1), b)
    ensures Prec(cfg, r, f(s), b)
    decreases t
  {
    if s < t - 1 { ChainPrec(cfg, r, f, s, t - 1, f(t - 1)); }
    LinkPrec(cfg, r, f(s), f(t - 1), b);
  }

  // ---------- schedules in layers ----------

  // d and k are actions of rank r with no action of the rank timed between them.
  ghost predicate Adjacent<E(!new)>(cfg: Config<E>, r: nat, d: Key, k: Key)
    requires Shaped(cfg) && r < cfg.n
  {
    && d in cfg.dag[r].acts && k in cfg.dag[r].acts && cfg.notes.time(r, d) < cfg.notes.time(r, k)
    && forall e :: e in cfg.dag[r].acts ==> cfg.notes.time(r, e) <= cfg.notes.time(r, d) || cfg.notes.time(r, k) <= cfg.notes.time(r, e)
  }

  // Every action waits for the whole layer before it.
  ghost predicate Layered<E(!new)>(cfg: Config<E>)
    requires Shaped(cfg)
  {
    forall r: nat, d, k {:trigger Adjacent(cfg, r, d, k)} :: r < cfg.n && Adjacent(cfg, r, d, k) ==> d in cfg.dag[r].pre[k]
  }

  lemma {:induction false} LayeredPrec<E(!new)>(cfg: Config<E>, r: nat, a: Key, b: Key)
    requires Shaped(cfg) && Timed(cfg) && Layered(cfg) && r < cfg.n
    requires a in cfg.dag[r].acts && b in cfg.dag[r].acts && cfg.notes.time(r, a) < cfg.notes.time(r, b)
    ensures Prec(cfg, r, a, b)
    decreases cfg.notes.time(r, b) - cfg.notes.time(r, a)
  {
    if !Adjacent(cfg, r, a, b) {
      var e :| e in cfg.dag[r].acts && cfg.notes.time(r, a) < cfg.notes.time(r, e) < cfg.notes.time(r, b);
      LayeredPrec(cfg, r, a, e);
      LayeredPrec(cfg, r, e, b);
      PrecTrans(cfg, r, a, e, b);
    }
  }

  // Actions of one layer do not touch each other's cells.
  ghost predicate LayersApart<E(!new)>(cfg: Config<E>)
    requires Shaped(cfg)
  {
    forall r: nat, a, b, c {:trigger Mutates(cfg, r, a, c), Mutates(cfg, r, b, c)}
                           {:trigger Mutates(cfg, r, a, c), Reads(cfg, r, b, c)} ::
      r < cfg.n && a != b && b in cfg.dag[r].acts && cfg.notes.time(r, a) == cfg.notes.time(r, b) && Mutates(cfg, r, a, c) ==>
        !Mutates(cfg, r, b, c) && !Reads(cfg, r, b, c)
  }

  lemma LayersRaceFree<E(!new)>(cfg: Config<E>)
    requires Shaped(cfg) && Timed(cfg) && Layered(cfg) && LayersApart(cfg)
    ensures RaceFree(cfg)
  {
    forall r: nat, a, b, c | r < cfg.n && a != b && Mutates(cfg, r, a, c) && (Mutates(cfg, r, b, c) || Reads(cfg, r, b, c))
      ensures Prec(cfg, r, a, b) || Prec(cfg, r, b, a)
    {
      if cfg.notes.time(r, a) < cfg.notes.time(r, b) {
        LayeredPrec(cfg, r, a, b);
      } else if cfg.notes.time(r, b) < cfg.notes.time(r, a) {
        LayeredPrec(cfg, r, b, a);
      }
    }
  }
}
