// Who waits for whom: the graph whose nodes are the actions of all ranks, with
// the two ends of a message merged as far as the protocol couples them.
module WaitGraphs {
  import opened Actions
  import opened Protocol
  import opened Schedule

  datatype Node = Node(r: nat, k: Key)

  ghost predicate IsNode<E(!new)>(cfg: Config<E>, b: Node)
    requires Shaped(cfg)
  {
    b.r < cfg.n && b.k in cfg.dag[b.r].acts
  }

  // Precursors are actions of the DAG.
  ghost predicate Closed<E(!new)>(cfg: Config<E>)
    requires Shaped(cfg)
  {
    forall r: nat, k, d :: r < cfg.n && k in cfg.dag[r].acts && d in cfg.dag[r].pre[k] ==> d in cfg.dag[r].acts
  }

  ghost predicate NoEmptyDag<E(!new)>(cfg: Config<E>)
    requires Shaped(cfg)
  {
    forall r: nat :: r < cfg.n ==> cfg.dag[r].acts != map[]
  }

  // The other end of a message.
  function Other(b: Node): Node {
    var c := ChanOf(b.r, b.k);
    if b.k.kind == Send then Node(c.dst, RecvKey(c)) else Node(c.src, SendKey(c))
  }

  lemma OtherIs<E(!new)>(cfg: Config<E>, b: Node)
    requires Basic(cfg) && IsNode(cfg, b) && IsComm(b.k)
    ensures IsNode(cfg, Other(b)) && IsComm(Other(b).k)
  {
    assert ChanOk(cfg, ChanOf(b.r, b.k));
  }

  ghost predicate Depends<E(!new)>(cfg: Config<E>, b: Node, a: Node)
    requires Shaped(cfg)
  {
    IsNode(cfg, b) && a.r == b.r && a.k in cfg.dag[b.r].pre[b.k]
  }

  // b cannot finish before the other end has started: a receive always, a send
  // unless its message is eager.  With `merged`, ends are coupled regardless.
  ghost predicate Coupled<E(!new)>(cfg: Config<E>, merged: bool, b: Node)
    requires Shaped(cfg) && IsNode(cfg, b)
  {
    IsComm(b.k) && (merged || b.k.kind == Recv || !cfg.useEager(cfg.dag[b.r].acts[b.k].nelems))
  }

  // b waits for a.
  ghost predicate Waits<E(!new)>(cfg: Config<E>, merged: bool, b: Node, a: Node)
    requires Shaped(cfg)
  {
    IsNode(cfg, b) && (Depends(cfg, b, a) || (Coupled(cfg, merged, b) && Depends(cfg, Other(b), a)))
  }

  // Each node of p waits for the next.
  ghost predicate Walk<E(!new)>(cfg: Config<E>, merged: bool, p: seq<Node>)
    requires Shaped(cfg)
  {
    forall i :: 0 < i < |p| ==> Waits(cfg, merged, p[i - 1], p[i])
  }

  ghost predicate Cycle<E(!new)>(cfg: Config<E>, merged: bool, p: seq<Node>)
    requires Shaped(cfg)
  {
    |p| > 1 && Walk(cfg, merged, p) && p[0] == p[|p| - 1]
  }

  // No waiting in a circle: under the protocols in use or, with `merged`, in the
  // graph with both ends of every message merged.
  ghost predicate Acyclic<E(!new)>(cfg: Config<E>, merged: bool)
    requires Shaped(cfg)
  {
    forall p :: !Cycle(cfg, merged, p)
  }

  // ---------- merged and exact graphs ----------

  lemma SameCycle<E(!new)>(cfg: Config<E>, x: bool, y: bool, p: seq<Node>)
    requires Shaped(cfg) && Cycle(cfg, x, p) && (y || !x || forall m :: !cfg.useEager(m))
    ensures Cycle(cfg, y, p)
  {
    forall i | 0 < i < |p| ensures Waits(cfg, y, p[i - 1], p[i]) { assert Waits(cfg, x, p[i - 1], p[i]); }
  }

  lemma MergedIsStricter<E(!new)>(cfg: Config<E>)
    requires Shaped(cfg) && Acyclic(cfg, true)
    ensures Acyclic(cfg, false)
  {
    hide Cycle;
    forall p ensures !Cycle(cfg, false, p) {
      if Cycle(cfg, false, p) { SameCycle(cfg, false, true, p); }
    }
  }

  // Without eager messages the two graphs are the same.
  lemma MergedIsExact<E(!new)>(cfg: Config<E>)
    requires Shaped(cfg) && forall m :: !cfg.useEager(m)
    ensures Acyclic(cfg, true) <==> Acyclic(cfg, false)
  {
    hide Cycle;
    if Acyclic(cfg, false) {
      forall p ensures !Cycle(cfg, true, p) {
        if Cycle(cfg, true, p) { SameCycle(cfg, true, false, p); }
      }
    }
    if Acyclic(cfg, true) { MergedIsStricter(cfg); }
  }

  // ---------- time stamps ----------

  lemma WaitsDown<E(!new)>(cfg: Config<E>, b: Node, a: Node)
    requires Basic(cfg) && Timed(cfg) && Waits(cfg, true, b, a)
    ensures cfg.notes.time(a.r, a.k) < cfg.notes.time(b.r, b.k)
  {
    if !Depends(cfg, b, a) {
      OtherIs(cfg, b);
      assert Simultaneous(cfg, ChanOf(b.r, b.k));
    }
  }

  lemma {:induction false} WalkDown<E(!new)>(cfg: Config<E>, p: seq<Node>)
    requires Basic(cfg) && Timed(cfg) && Walk(cfg, true, p) && |p| > 1
    ensures var z := p[|p| - 1]; cfg.notes.time(z.r, z.k) < cfg.notes.time(p[0].r, p[0].k)
    decreases |p|
  {
    hide Timed, Matched, Waits;
    assert Waits(cfg, true, p[1 - 1], p[1]);
    WaitsDown(cfg, p[0], p[1]);
    if |p| > 2 {
      var q := p[1..];
      forall i | 0 < i < |q| ensures Waits(cfg, true, q[i - 1], q[i]) { assert Waits(cfg, true, p[i + 1 - 1], p[i + 1]); }
      WalkDown(cfg, q);
    }
  }

  // A schedule with time stamps has no cycle, even with all ends merged.
  lemma TimedAcyclic<E(!new)>(cfg: Config<E>)
    requires Basic(cfg) && Timed(cfg)
    ensures Closed(cfg) && Acyclic(cfg, true) && Acyclic(cfg, false)
  {
    forall p ensures !Cycle(cfg, true, p) {
      if Cycle(cfg, true, p) { WalkDown(cfg, p); }
    }
    MergedIsStricter(cfg);
  }

  // ---------- walks are short ----------

  ghost function Nodes<E(!new)>(cfg: Config<E>): set<Node>
    requires Shaped(cfg)
  {
    set r: nat, k | r < cfg.n && k in cfg.dag[r].acts :: Node(r, k)
  }

  ghost predicate Inside<E(!new)>(cfg: Config<E>, p: seq<Node>)
    requires Shaped(cfg)
  {
    forall b :: b in p ==> IsNode(cfg, b)
  }

  lemma Simple<E(!new)>(cfg: Config<E>, merged: bool, p: seq<Node>, i: nat, j: nat)
    requires Shaped(cfg) && Acyclic(cfg, merged) && Walk(cfg, merged, p) && i < j < |p|
    ensures p[i] != p[j]
  {
    hide Waits;
    var q := p[i..j + 1];
    forall x | 0 < x < |q| ensures Waits(cfg, merged, q[x - 1], q[x]) { assert Waits(cfg, merged, p[i + x - 1], p[i + x]); }
    assert !Cycle(cfg, merged, q);
  }

  lemma {:induction false} DistinctCount(p: seq<Node>, all: set<Node>)
    requires forall i, j :: 0 <= i < j < |p| ==> p[i] != p[j]
    requires forall b :: b in p ==> b in all
    ensures |p| <= |all|
    decreases |p|
  {
    if p != [] {
      var z := p[|p| - 1];
      DistinctCount(p[..|p| - 1], all - {z});
    }
  }

  lemma ShortWalk<E(!new)>(cfg: Config<E>, merged: bool, p: seq<Node>)
    requires Shaped(cfg) && Acyclic(cfg, merged) && Walk(cfg, merged, p) && Inside(cfg, p)
    ensures |p| <= |Nodes(cfg)|
  {
    hide Waits, Acyclic;
    forall i, j | 0 <= i < j < |p| ensures p[i] != p[j] { Simple(cfg, merged, p, i, j); }
    DistinctCount(p, Nodes(cfg));
  }

  lemma Longer<E(!new)>(cfg: Config<E>, merged: bool, p: seq<Node>, a: Node)
    requires Shaped(cfg) && Closed(cfg) && Basic(cfg) && Walk(cfg, merged, p) && Inside(cfg, p) && p != []
    requires Waits(cfg, merged, p[|p| - 1], a)
    ensures Walk(cfg, merged, p + [a]) && Inside(cfg, p + [a])
  {
    var q := p + [a];
    if Coupled(cfg, merged, p[|p| - 1]) { OtherIs(cfg, p[|p| - 1]); }
    forall i | 0 < i < |q| ensures Waits(cfg, merged, q[i - 1], q[i]) {
      if i < |p| { assert Waits(cfg, merged, p[i - 1], p[i]); }
    }
  }

  // ---------- time stamps from the graph ----------

  ghost predicate HasWalk<E(!new)>(cfg: Config<E>, b: Node, m: nat)
    requires Shaped(cfg)
  {
    exists p :: Walk(cfg, true, p) && Inside(cfg, p) && |p| == m && m > 0 && p[0] == b
  }

  // The length of the longest walk from b, up to m.
  ghost function Longest<E(!new)>(cfg: Config<E>, b: Node, m: nat): (l: nat)
    requires Shaped(cfg)
    ensures l <= m && (l > 0 ==> HasWalk(cfg, b, l)) && forall x :: l < x <= m ==> !HasWalk(cfg, b, x)
  {
    if m == 0 then 0 else if HasWalk(cfg, b, m) then m else Longest(cfg, b, m - 1)
  }

  ghost function Height<E(!new)>(cfg: Config<E>, b: Node): (h: nat)
    requires Shaped(cfg)
    ensures h <= |Nodes(cfg)|
  {
    Longest(cfg, b, |Nodes(cfg)|)
  }

  lemma WalkBefore<E(!new)>(cfg: Config<E>, b: Node, p: seq<Node>)
    requires Shaped(cfg) && Walk(cfg, true, p) && Inside(cfg, p) && IsNode(cfg, b) && (p != [] ==> Waits(cfg, true, b, p[0]))
    ensures Walk(cfg, true, [b] + p) && Inside(cfg, [b] + p)
  {
    hide Waits;
    var q := [b] + p;
    forall i | 0 < i < |q| ensures Waits(cfg, true, q[i - 1], q[i]) {
      if i > 1 { assert Waits(cfg, true, p[i - 1 - 1], p[i - 1]); }
    }
  }

  lemma HigherWaits<E(!new)>(cfg: Config<E>, b: Node, a: Node)
    requires Shaped(cfg) && Acyclic(cfg, true) && IsNode(cfg, b) && IsNode(cfg, a) && Waits(cfg, true, b, a)
    ensures Height(cfg, a) < Height(cfg, b)
  {
    hide Waits, Acyclic, IsNode;
    var l := Height(cfg, a);
    var p := [b];
    WalkBefore(cfg, b, []);
    if l > 0 {
      var q :| Walk(cfg, true, q) && Inside(cfg, q) && |q| == l && q[0] == a;
      WalkBefore(cfg, b, q);
      p := [b] + q;
    }
    ShortWalk(cfg, true, p);
    assert HasWalk(cfg, b, l + 1);
  }

  // A walk may as well start at the other end.
  lemma SameWalks<E(!new)>(cfg: Config<E>, b: Node, m: nat)
    requires Basic(cfg) && IsNode(cfg, b) && IsComm(b.k) && HasWalk(cfg, b, m)
    ensures IsNode(cfg, Other(b)) && HasWalk(cfg, Other(b), m)
  {
    var p :| Walk(cfg, true, p) && Inside(cfg, p) && |p| == m && p[0] == b;
    OtherIs(cfg, b);
    var q := p[1..];
    forall i | 0 < i < |q| ensures Waits(cfg, true, q[i - 1], q[i]) { assert Waits(cfg, true, p[i + 1 - 1], p[i + 1]); }
    if q != [] { assert Waits(cfg, true, p[1 - 1], p[1]); }
    WalkBefore(cfg, Other(b), q);
    assert |[Other(b)] + q| == m;
  }

  lemma SameHeight<E(!new)>(cfg: Config<E>, b: Node)
    requires Basic(cfg) && IsNode(cfg, b) && IsComm(b.k)
    ensures Height(cfg, b) <= Height(cfg, Other(b))
  {
    hide HasWalk, Other;
    if Height(cfg, b) > 0 { SameWalks(cfg, b, Height(cfg, b)); }
  }

  ghost function Stamps<E(!new)>(cfg: Config<E>): Notes
    requires Shaped(cfg)
  {
    Notes((r: nat, k: Key) => Height(cfg, Node(r, k)), (_, _) => false, |Nodes(cfg)| + 1)
  }

  lemma StampsTimed<E(!new)>(cfg: Config<E>)
    requires Basic(cfg) && Closed(cfg) && Acyclic(cfg, true)
    ensures Timed(cfg.(notes := Stamps(cfg)))
  {
    hide Height, Acyclic, Matched;
    var noted := cfg.(notes := Stamps(cfg));
    forall r: nat, k | r < cfg.n && k in cfg.dag[r].acts && IsComm(k) ensures Simultaneous(noted, ChanOf(r, k)) {
      var b := Node(r, k);
      OtherIs(cfg, b);
      SameHeight(cfg, b);
      SameHeight(cfg, Other(b));
      assert Other(Other(b)) == b;
    }
    forall r: nat, k, d | r < cfg.n && k in cfg.dag[r].acts && d in cfg.dag[r].pre[k]
      ensures noted.notes.time(r, d) < noted.notes.time(r, k)
    {
      HigherWaits(cfg, Node(r, k), Node(r, d));
    }
  }

  // Time stamps are no more than a way to say that the merged graph has no cycle.
  lemma StampsExactly<E(!new)>(cfg: Config<E>)
    requires Basic(cfg)
    ensures Closed(cfg) && Acyclic(cfg, true) <==> exists notes :: Timed(cfg.(notes := notes))
  {
    hide Closed, Acyclic, Timed, Matched, Stamps;
    if Closed(cfg) && Acyclic(cfg, true) { StampsTimed(cfg); }
    forall notes | Timed(cfg.(notes := notes)) ensures Closed(cfg) && Acyclic(cfg, true) {
      NotesApart(cfg, notes);
      TimedAcyclic(cfg.(notes := notes));
    }
  }

  // The graph does not depend on the notes.
  lemma NotesApart<E(!new)>(cfg: Config<E>, notes: Notes)
    requires Basic(cfg)
    ensures var noted := cfg.(notes := notes);
            && Basic(noted) && (Closed(noted) ==> Closed(cfg)) && (Acyclic(noted, true) ==> Acyclic(cfg, true))
  {
    var noted := cfg.(notes := notes);
    forall r: nat, k | r < noted.n && k in noted.dag[r].acts && IsComm(k) ensures ChanOk(noted, ChanOf(r, k)) {
      assert ChanOk(cfg, ChanOf(r, k));
    }
    if Acyclic(noted, true) {
      forall p ensures !Cycle(cfg, true, p) {
        assert !Cycle(noted, true, p);
        if Cycle(cfg, true, p) { MovedCycle(cfg, noted, p); }
      }
    }
  }

  lemma MovedCycle<E(!new)>(cfg: Config<E>, noted: Config<E>, p: seq<Node>)
    requires Shaped(cfg) && Shaped(noted) && noted == cfg.(notes := noted.notes) && Cycle(cfg, true, p)
    ensures Cycle(noted, true, p)
  {
    forall i | 0 < i < |p| ensures Waits(noted, true, p[i - 1], p[i]) { assert Waits(cfg, true, p[i - 1], p[i]); }
  }
}
