// Binary-tree broadcast (sumi/bcast.cc).  Ranks are numbered by their offset
// from the root; the parent of an offset is that offset with its lowest binary
// digit 1 cleared.
module Bcast {
  import opened Actions
  import opened Protocol
  import opened Schedule
  import opened Invariant
  import opened Safety
  import opened Powers
  import opened Ring
  import opened Trees

  datatype Plan = Plan(n: nat, nelems: nat, root: nat)

  predicate Ok(p: Plan) { p.n >= 2 && p.root < p.n }

  function Rounds(p: Plan): nat { Log2Up(p.n) }

  // ---------- the tree ----------

  // Below which digit o has children; the root has them below all.
  function Reach(p: Plan, o: nat): nat { if o == 0 then Rounds(p) else LowBit(o) }

  // The children of o are exactly the offsets o + 2^b with b below o's reach.
  lemma Children(p: Plan, o: nat, c: nat)
    requires Ok(p) && o < p.n && 0 < c < p.n
    ensures Parent(c) == o <==> exists b {:trigger Pow2(b)} :: 0 <= b < Reach(p, o) && c == o + Pow2(b)
    ensures LowBit(c) < Rounds(p)
  {
    LowBitIs(c);
    if LowBit(c) >= Rounds(p) { Pow2Grows(Rounds(p), LowBit(c)); }
    if Parent(c) == o {
      ParentReach(c);
      assert c == o + Pow2(LowBit(c));
    }
    forall b: nat | b < Reach(p, o) && c == o + Pow2(b) ensures Parent(c) == o { ChildOf(o, b); }
  }

  // ---------- actions ----------

  function Offset(p: Plan, r: nat): nat
    requires Ok(p) && r < p.n
  {
    Below(p.n, r, p.root)
  }

  function RankAt(p: Plan, o: nat): nat
    requires Ok(p) && o < p.n
  {
    Above(p.n, p.root, o)
  }

  lemma OffsetRank(p: Plan, r: nat, o: nat)
    requires Ok(p) && r < p.n && o < p.n
    ensures Offset(p, r) == o <==> r == RankAt(p, o)
  {
  }

  predicate IsKey(p: Plan, r: nat, k: Key)
    requires Ok(p) && r < p.n
  {
    && k.round == 0 && k.partner < p.n
    && match k.kind
       case Recv => Offset(p, r) > 0 && Offset(p, k.partner) == Parent(Offset(p, r))
       case Send => Offset(p, k.partner) > 0 && Parent(Offset(p, k.partner)) == Offset(p, r)
       case _ => false
  }

  function ActionOf(p: Plan, k: Key): Action {
    if k.kind == Send then SendAction(0, k.partner, 0, p.nelems, SendInPlace) else RecvAction(0, k.partner, 0, p.nelems, InPlace)
  }

  function RecvFrom(p: Plan, r: nat): Key
    requires Ok(p) && r < p.n && Offset(p, r) > 0
  {
    LowBitIs(Offset(p, r));
    Key(Recv, 0, RankAt(p, Parent(Offset(p, r))))
  }

  function PreOf(p: Plan, r: nat, k: Key): set<Key>
    requires Ok(p) && r < p.n
  {
    if k.kind == Send && Offset(p, r) > 0 then {RecvFrom(p, r)} else {}
  }

  function Keys(p: Plan, r: nat): set<Key>
    requires Ok(p) && r < p.n
  {
    set kd: Kind, partner: nat | partner < p.n && IsKey(p, r, Key(kd, 0, partner)) :: Key(kd, 0, partner)
  }

  function RankDag(p: Plan, r: nat): Dag
    requires Ok(p) && r < p.n
  {
    Dag(map k | k in Keys(p, r) :: ActionOf(p, k), map k | k in Keys(p, r) :: PreOf(p, r, k))
  }

  // The child's end of an edge says when it is used: long edges first.
  function TimeOf(p: Plan, r: nat, k: Key): nat
    requires Ok(p)
  {
    if r < p.n && k.partner < p.n then
      var o := if k.kind == Send then Offset(p, k.partner) else Offset(p, r);
      if o > 0 && LowBit(o) < Rounds(p) then Rounds(p) - 1 - LowBit(o) else 0
    else 0
  }

  // All buffer pointers are the caller's buffer (buffer 0).
  function Cfg<E(==,!new)>(p: Plan, op: (E, E) -> E, init: (nat, Cell) -> E, useEager: nat -> bool, useGet: bool): (cfg: Config<E>)
    requires Ok(p)
    ensures cfg.useEager == useEager && cfg.useGet == useGet
  {
    Config(p.n, seq(p.n, r requires 0 <= r < p.n => RankDag(p, r)), seq(p.n, _ => Ptrs(0, 0, 0)),
           useEager, useGet, op, init, (_, _, _) => None, (_, m) => m,
           Notes((r: nat, k: Key) => TimeOf(p, r, k), (_, _) => false, Rounds(p)))
  }

  // ---------- well-formedness ----------

  ghost predicate Follows<E(!new)>(p: Plan, cfg: Config<E>) {
    && Ok(p) && cfg.n == |cfg.dag| == |cfg.ptrs| == p.n && cfg.notes.horizon == Rounds(p)
    && (forall r: nat, k {:trigger FollowsAt(p, cfg, r, k)} :: r < p.n ==> FollowsAt(p, cfg, r, k))
    && (forall r, c {:trigger cfg.notes.scratch(r, c)} :: !cfg.notes.scratch(r, c))
  }

  ghost predicate FollowsAt<E(!new)>(p: Plan, cfg: Config<E>, r: nat, k: Key)
    requires Ok(p) && r < |cfg.dag| && r < |cfg.ptrs| && r < p.n
  {
    && cfg.ptrs[r] == Ptrs(0, 0, 0)
    && (k in cfg.dag[r].acts <==> IsKey(p, r, k)) && (k in cfg.dag[r].pre <==> IsKey(p, r, k))
    && (IsKey(p, r, k) ==> cfg.dag[r].acts[k] == ActionOf(p, k) && cfg.dag[r].pre[k] == PreOf(p, r, k))
    && cfg.notes.time(r, k) == TimeOf(p, r, k)
  }

  lemma CfgFollows<E(!new)>(p: Plan, op: (E, E) -> E, init: (nat, Cell) -> E, ue: nat -> bool, ug: bool)
    requires Ok(p)
    ensures Follows(p, Cfg(p, op, init, ue, ug))
  {
    var cfg := Cfg(p, op, init, ue, ug);
    forall r: nat, k | r < p.n ensures FollowsAt(p, cfg, r, k) {
      assert k in Keys(p, r) <==> IsKey(p, r, k);
    }
  }

  // An edge seen from its two ends.
  lemma EdgeIs(p: Plan, r: nat, k: Key)
    requires Ok(p) && r < p.n && IsKey(p, r, k)
    ensures var k' := Key(if k.kind == Send then Recv else Send, 0, r);
            && IsKey(p, k.partner, k') && k.partner != r && TimeOf(p, k.partner, k') == TimeOf(p, r, k) < Rounds(p)
    ensures k.kind == Recv ==> k == RecvFrom(p, r)
    ensures ActionOf(p, k).Id() == k
  {
    var o := if k.kind == Send then Offset(p, k.partner) else Offset(p, r);
    LowBitIs(o);
    Children(p, Parent(o), o);
    if k.kind == Recv { OffsetRank(p, k.partner, Parent(o)); }
  }

  lemma BcastBasic<E(!new)>(p: Plan, cfg: Config<E>)
    requires Follows(p, cfg)
    ensures Basic(cfg)
  {
    hide IsKey, TimeOf, PreOf, RecvFrom;
    forall r, k | 0 <= r < cfg.n && k in cfg.dag[r].acts ensures cfg.dag[r].acts[k].Id() == k && k in cfg.dag[r].pre {
      assert FollowsAt(p, cfg, r, k);
      EdgeIs(p, r, k);
    }
    forall r: nat, k | r < cfg.n && k in cfg.dag[r].acts && IsComm(k) ensures ChanOk(cfg, ChanOf(r, k)) {
      EdgeMatched(p, cfg, r, k);
    }
  }

  lemma EdgeMatched<E(!new)>(p: Plan, cfg: Config<E>, r: nat, k: Key)
    requires Follows(p, cfg) && Shaped(cfg) && r < cfg.n && k in cfg.dag[r].acts && IsComm(k)
    ensures ChanOk(cfg, ChanOf(r, k)) && Simultaneous(cfg, ChanOf(r, k))
  {
    hide TimeOf, PreOf, RecvFrom, LowBit, Parent;
    assert FollowsAt(p, cfg, r, k);
    EdgeIs(p, r, k);
    var k' := Key(if k.kind == Send then Recv else Send, 0, r);
    assert FollowsAt(p, cfg, k.partner, k');
  }

  lemma PreIs(p: Plan, r: nat, k: Key, d: Key)
    requires Ok(p) && r < p.n && IsKey(p, r, k) && d in PreOf(p, r, k)
    ensures IsKey(p, r, d) && TimeOf(p, r, d) < TimeOf(p, r, k)
  {
    var c := Offset(p, k.partner);
    Children(p, Parent(c), c);
    Children(p, Parent(Offset(p, r)), Offset(p, r));
    ParentReach(c);
    OffsetRank(p, d.partner, Parent(Offset(p, r)));
  }

  lemma BcastTimed<E(!new)>(p: Plan, cfg: Config<E>)
    requires Follows(p, cfg) && Shaped(cfg)
    ensures Timed(cfg)
  {
    hide IsKey, TimeOf, PreOf, RecvFrom;
    forall r: nat, k | r < cfg.n && k in cfg.dag[r].acts && IsComm(k) ensures Simultaneous(cfg, ChanOf(r, k)) {
      EdgeMatched(p, cfg, r, k);
    }
    forall r: nat, k, d | r < cfg.n && k in cfg.dag[r].acts && d in cfg.dag[r].pre[k]
      ensures d in cfg.dag[r].acts && cfg.notes.time(r, d) < cfg.notes.time(r, k)
    {
      assert FollowsAt(p, cfg, r, k);
      PreIs(p, r, k, d);
      assert FollowsAt(p, cfg, r, d);
    }
    forall r: nat, k | r < cfg.n && k in cfg.dag[r].acts ensures cfg.notes.time(r, k) < cfg.notes.horizon {
      assert FollowsAt(p, cfg, r, k);
      EdgeIs(p, r, k);
    }
  }

  // Only the one receive of a rank changes memory, and everything else waits for it.
  lemma RecvFirst<E(!new)>(p: Plan, cfg: Config<E>, r: nat, a: Key, b: Key, c: Cell)
    requires Follows(p, cfg) && Shaped(cfg) && Timed(cfg) && r < cfg.n && a != b && Mutates(cfg, r, a, c)
    requires Mutates(cfg, r, b, c) || Reads(cfg, r, b, c)
    ensures Prec(cfg, r, a, b)
  {
    assert FollowsAt(p, cfg, r, a) && FollowsAt(p, cfg, r, b);
    EdgeIs(p, r, a);
    EdgeIs(p, r, b);
  }

  lemma BcastWellFormed<E(!new)>(p: Plan, cfg: Config<E>)
    requires Follows(p, cfg)
    ensures WellFormed(cfg)
  {
    hide IsKey, TimeOf, PreOf, Timed, Matched, Mutates, Reads, Prec;
    BcastBasic(p, cfg);
    BcastTimed(p, cfg);
    forall r: nat, a, b, c | r < cfg.n && a != b && Mutates(cfg, r, a, c) && (Mutates(cfg, r, b, c) || Reads(cfg, r, b, c))
      ensures Prec(cfg, r, a, b) || Prec(cfg, r, b, a)
    {
      RecvFirst(p, cfg, r, a, b, c);
    }
    NoStaging(p, cfg);
  }

  lemma NoStaging<E(!new)>(p: Plan, cfg: Config<E>)
    requires Follows(p, cfg) && Shaped(cfg)
    ensures ScratchOk(cfg)
  {
    forall r: nat, k, c | r < cfg.n ensures !Stages(cfg, r, k, c) {
      assert FollowsAt(p, cfg, r, k);
    }
  }

  // ---------- the number of messages ----------

  // The message that brings offset o its data.
  function EdgeTo(p: Plan, o: nat): Chan
    requires Ok(p) && 0 < o < p.n
  {
    LowBitIs(o);
    Chan(RankAt(p, Parent(o)), RankAt(p, o), 0)
  }

  ghost function Edges(p: Plan, m: nat): set<Chan>
    requires Ok(p) && 0 < m <= p.n
  {
    set o: nat | 0 < o < m :: EdgeTo(p, o)
  }

  lemma {:induction false} EdgeCount(p: Plan, m: nat)
    requires Ok(p) && 0 < m <= p.n
    ensures |Edges(p, m)| == m - 1
    decreases m
  {
    if m == 1 {
      assert Edges(p, 1) == {};
    } else {
      EdgeCount(p, m - 1);
      var e := EdgeTo(p, m - 1);
      assert Edges(p, m) == Edges(p, m - 1) + {e};
      forall o: nat | 0 < o < m - 1 ensures EdgeTo(p, o) != e {
        OffsetRank(p, e.dst, o);
        OffsetRank(p, e.dst, m - 1);
      }
    }
  }

  lemma SendIsEdge(p: Plan, r: nat, k: Key)
    requires Ok(p) && r < p.n && IsKey(p, r, k) && k.kind == Send
    ensures var o := Offset(p, k.partner);
            0 < o < p.n && ChanOf(r, k) == EdgeTo(p, o)
  {
    var o := Offset(p, k.partner);
    OffsetRank(p, k.partner, o);
    OffsetRank(p, r, Parent(o));
  }

  lemma EdgeIsSend(p: Plan, o: nat)
    requires Ok(p) && 0 < o < p.n
    ensures var c := EdgeTo(p, o);
            c.src < p.n && IsKey(p, c.src, SendKey(c)) && ChanOf(c.src, SendKey(c)) == c
  {
    LowBitIs(o);
    var c := EdgeTo(p, o);
    OffsetRank(p, c.dst, o);
    OffsetRank(p, c.src, Parent(o));
  }

  // The tree has n - 1 edges: no message is sent that is not needed.
  lemma MessageCount<E(!new)>(p: Plan, cfg: Config<E>)
    requires Follows(p, cfg) && Shaped(cfg)
    ensures |Messages(cfg)| == p.n - 1
  {
    hide IsKey, TimeOf, EdgeTo;
    forall r: nat, k | r < cfg.n && k in cfg.dag[r].acts && k.kind == Send ensures ChanOf(r, k) in Edges(p, p.n) {
      assert FollowsAt(p, cfg, r, k);
      SendIsEdge(p, r, k);
    }
    forall o: nat | 0 < o < p.n ensures EdgeTo(p, o) in Messages(cfg) {
      var c := EdgeTo(p, o);
      EdgeIsSend(p, o);
      assert FollowsAt(p, cfg, c.src, SendKey(c));
    }
    assert Messages(cfg) == Edges(p, p.n);
    EdgeCount(p, p.n);
  }

  // ---------- the result ----------

  lemma OneWriter<E(!new)>(p: Plan, cfg: Config<E>, r: nat, k: Key, c: Cell)
    requires Follows(p, cfg) && Shaped(cfg) && r < cfg.n && Writes(cfg, r, k, c)
    ensures Offset(p, r) > 0 && k == RecvFrom(p, r) && cfg.notes.time(r, k) == TimeOf(p, r, k)
  {
    assert FollowsAt(p, cfg, r, k);
    EdgeIs(p, r, k);
  }

  // When rank r has its data, in the round-synchronous reading.
  function Ready(p: Plan, r: nat): nat
    requires Ok(p) && r < p.n
  {
    if Offset(p, r) == 0 then 0 else TimeOf(p, r, RecvFrom(p, r)) + 1
  }

  lemma Settled<E(!new)>(p: Plan, cfg: Config<E>, r: nat, t: nat, c: Cell)
    requires Follows(p, cfg) && WellFormed(cfg) && r < p.n && Ready(p, r) <= t
    ensures At(cfg, t, r, c) == At(cfg, Ready(p, r), r, c)
  {
    hide At, FollowsAt, RaceFree, ScratchOk, Timed, Matched, Writes, TimeOf;
    forall k | Writes(cfg, r, k, c) ensures cfg.notes.time(r, k) < Ready(p, r) || t <= cfg.notes.time(r, k) {
      OneWriter(p, cfg, r, k, c);
    }
    AtStable(cfg, Ready(p, r), t, r, c);
  }

  lemma RecvWrites<E(!new)>(p: Plan, cfg: Config<E>, r: nat, e: nat)
    requires Follows(p, cfg) && Basic(cfg) && r < p.n && Offset(p, r) > 0 && e < p.nelems
    ensures var k, c := RecvFrom(p, r), Cell(0, e);
            && IsKey(p, r, k) && Writer(cfg, r, TimeOf(p, r, k), c, k) && !Reduces(cfg, r, k)
            && Origin(cfg, r, k, c) == (k.partner, c)
            && Ready(p, k.partner) <= TimeOf(p, r, k) && Offset(p, k.partner) == Parent(Offset(p, r))
  {
    var k, o := RecvFrom(p, r), Offset(p, r);
    LowBitIs(o);
    OffsetRank(p, k.partner, Parent(o));
    EdgeIs(p, r, k);
    assert FollowsAt(p, cfg, r, k) && FollowsAt(p, cfg, k.partner, Key(Send, 0, r));
    Children(p, Parent(o), o);
    ParentReach(o);
    if Parent(o) > 0 { Children(p, Parent(Parent(o)), Parent(o)); }
  }

  // Every rank gets the root's data.
  lemma {:induction false} Delivered<E(!new)>(p: Plan, cfg: Config<E>, r: nat, e: nat)
    requires Follows(p, cfg) && WellFormed(cfg) && r < p.n && e < p.nelems
    ensures At(cfg, Ready(p, r), r, Cell(0, e)) == cfg.init(p.root, Cell(0, e))
    decreases Offset(p, r)
  {
    if Offset(p, r) > 0 {
      hide At, FollowsAt, RaceFree, ScratchOk, Timed, Matched, Writer, Origin, TimeOf, LowBit, Reduces;
      var k, c := RecvFrom(p, r), Cell(0, e);
      RecvWrites(p, cfg, r, e);
      AtWrite(cfg, TimeOf(p, r, k), r, c, k);
      Settled(p, cfg, k.partner, TimeOf(p, r, k), c);
      Delivered(p, cfg, k.partner, e);
    }
  }

  lemma ReadyInTime(p: Plan, r: nat)
    requires Ok(p) && r < p.n
    ensures Ready(p, r) <= Rounds(p)
  {
    if Offset(p, r) > 0 {
      LowBitIs(Offset(p, r));
      OffsetRank(p, RecvFrom(p, r).partner, Parent(Offset(p, r)));
      EdgeIs(p, r, RecvFrom(p, r));
    }
  }

  // Broadcast: a completed rank holds the root's data, for any root.
  lemma BcastCorrect<E(!new)>(p: Plan, op: (E, E) -> E, init: (nat, Cell) -> E, ue: nat -> bool, ug: bool,
                              cfg: Config<E>, steps: seq<Step<E>>, r: nat, e: nat)
    requires Ok(p) && cfg == Cfg(p, op, init, ue, ug) && Shaped(cfg) && IsRun(cfg, steps)
    requires r < p.n && After(cfg, steps).ranks[r].complete && e < p.nelems
    ensures After(cfg, steps).ranks[r].mem(Cell(0, e)) == init(p.root, Cell(0, e))
  {
    hide FollowsAt, RaceFree, ScratchOk, Timed, Matched, IsRun, After, RankDag, At, Ready;
    CfgFollows(p, op, init, ue, ug);
    BcastWellFormed(p, cfg);
    RunsAreCorrect(cfg, steps, r);
    Delivered(p, cfg, r, e);
    ReadyInTime(p, r);
    Settled(p, cfg, r, Rounds(p), Cell(0, e));
    assert !cfg.notes.scratch(r, Cell(0, e));
  }
}
