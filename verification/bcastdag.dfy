// The loops that build the broadcast tree: init_root, init_child, init_internal.
module BcastDag {
  import opened Actions
  import opened Protocol
  import opened Bookkeeping
  import opened DagBuilding
  import opened Engine
  import opened Powers
  import opened Ring
  import opened Trees
  import opened Bcast

  // Entered are the receive of rank r, and its sends over the edges of length
  // 2^b and more.
  ghost predicate Stage(p: Plan, r: nat, acts: map<Key, Action>, pre: map<Key, set<Key>>, b: nat)
    requires Ok(p) && r < p.n
  {
    && acts.Keys == pre.Keys
    && (forall k :: k in acts <==> IsKey(p, r, k) && (k.kind == Send ==> LowBit(Offset(p, k.partner)) >= b))
    && (forall k :: k in acts ==> acts[k] == ActionOf(p, k) && pre[k] == PreOf(p, r, k))
  }

  lemma SendIs(p: Plan, r: nat, b: nat, k: Key)
    requires Ok(p) && r < p.n && IsKey(p, r, k) && k.kind == Send && LowBit(Offset(p, k.partner)) == b
    ensures b < Reach(p, Offset(p, r)) && Offset(p, r) + Pow2(b) < p.n && k == Key(Send, 0, RankAt(p, Offset(p, r) + Pow2(b)))
  {
    var c := Offset(p, k.partner);
    LowBitIs(c);
    Children(p, Offset(p, r), c);
    ParentReach(c);
    OffsetRank(p, k.partner, c);
  }

  lemma ReachIs(p: Plan, r: nat)
    requires Ok(p) && r < p.n
    ensures Reach(p, Offset(p, r)) == if Offset(p, r) == 0 then Rounds(p) else LowBit(Offset(p, r))
  {
  }

  lemma RankBelow(p: Plan, o: nat)
    requires Ok(p) && o < p.n
    ensures RankAt(p, o) < p.n
  {
  }

  lemma SendKeyIs(p: Plan, r: nat, b: nat)
    requires Ok(p) && r < p.n && b < Reach(p, Offset(p, r)) && Offset(p, r) + Pow2(b) < p.n
    ensures var k := Key(Send, 0, RankAt(p, Offset(p, r) + Pow2(b)));
            && IsKey(p, r, k) && LowBit(Offset(p, k.partner)) == b && ActionOf(p, k).Id() == k
  {
    hide LowBit, RankAt, Offset, Pow2, Below, Above;
    var c := Offset(p, r) + Pow2(b);
    ReachIs(p, r);
    ChildOf(Offset(p, r), b);
    RankBelow(p, c);
    OffsetRank(p, RankAt(p, c), c);
  }

  // No edge of length 2^b leads down from r.
  lemma NoChild(p: Plan, r: nat, acts: map<Key, Action>, pre: map<Key, set<Key>>, b: nat)
    requires Ok(p) && r < p.n && Stage(p, r, acts, pre, b + 1) && (b >= Reach(p, Offset(p, r)) || Offset(p, r) + Pow2(b) >= p.n)
    ensures Stage(p, r, acts, pre, b)
  {
    hide ActionOf, PreOf;
    forall k | IsKey(p, r, k) && k.kind == Send ensures LowBit(Offset(p, k.partner)) != b {
      if LowBit(Offset(p, k.partner)) == b { SendIs(p, r, b, k); }
    }
  }

  lemma ChildEntered(p: Plan, r: nat, acts: map<Key, Action>, pre: map<Key, set<Key>>, b: nat, k: Key,
                     acts': map<Key, Action>, pre': map<Key, set<Key>>)
    requires Ok(p) && r < p.n && Stage(p, r, acts, pre, b + 1)
    requires b < Reach(p, Offset(p, r)) && Offset(p, r) + Pow2(b) < p.n && k == Key(Send, 0, RankAt(p, Offset(p, r) + Pow2(b)))
    requires acts' == acts[k := ActionOf(p, k)] && pre' == pre[k := PreOf(p, r, k)]
    ensures Stage(p, r, acts', pre', b)
  {
    hide ActionOf, PreOf, IsKey, RankAt, LowBit;
    SendKeyIs(p, r, b);
    SendsHaveOffsets(p, r);
    forall k' | IsKey(p, r, k') && k'.kind == Send && LowBit(Offset(p, k'.partner)) == b ensures k' == k {
      SendIs(p, r, b, k');
    }
  }

  lemma SendsHaveOffsets(p: Plan, r: nat)
    requires Ok(p) && r < p.n
    ensures forall k :: IsKey(p, r, k) && k.kind == Send ==> k.partner < p.n && Offset(p, k.partner) > 0
  {
  }

  // A send to the child at distance 2^b, if there is one.
  method AddSend<E(==,!new)>(actor: DagCollectiveActor<E>, p: Plan, ghost b: nat, partner: nat, recv: Option<Key>)
    requires actor.Building() && Ok(p) && actor.me < p.n && Stage(p, actor.me, actor.acts, actor.pre, b + 1)
    requires b < Reach(p, Offset(p, actor.me)) && Offset(p, actor.me) + Pow2(b) < p.n
    requires partner == RankAt(p, Offset(p, actor.me) + Pow2(b))
    requires recv == if Offset(p, actor.me) > 0 then Some(RecvFrom(p, actor.me)) else None
    modifies actor`acts, actor`book, actor`pre
    ensures actor.Building() && Stage(p, actor.me, actor.acts, actor.pre, b)
  {
    hide Stage, IsKey, LowBit, RankAt, Offset, RecvFrom, Built;
    NotYet(p, actor.me, actor.acts, actor.pre, b);
    var send := SendAction(0, partner, 0, p.nelems, SendInPlace);
    AddAfter(actor, recv, send);
    ChildEntered(p, actor.me, old(actor.acts), old(actor.pre), b, send.Id(), actor.acts, actor.pre);
  }

  lemma NotYet(p: Plan, r: nat, acts: map<Key, Action>, pre: map<Key, set<Key>>, b: nat)
    requires Ok(p) && r < p.n && Stage(p, r, acts, pre, b + 1) && b < Reach(p, Offset(p, r)) && Offset(p, r) + Pow2(b) < p.n
    ensures var k := Key(Send, 0, RankAt(p, Offset(p, r) + Pow2(b)));
            && k !in pre && PreOf(p, r, k) == Prevs(if Offset(p, r) > 0 then Some(RecvFrom(p, r)) else None, None)
            && ActionOf(p, k) == SendAction(0, k.partner, 0, p.nelems, SendInPlace)
  {
    hide IsKey, RankAt, Offset, LowBit, RecvFrom;
    SendKeyIs(p, r, b);
    SendsHaveOffsets(p, r);
    if Offset(p, r) > 0 { PrevsAre(Some(RecvFrom(p, r)), RecvFrom(p, r), RecvFrom(p, r)); }
  }

  // The length of the edges a loop turn is about: 2^(b-1), or 0 at the end.
  function Stride(b: nat): nat { if b == 0 then 0 else Pow2(b - 1) }

  lemma StrideHalves(b: nat)
    requires b > 0
    ensures Stride(b) / 2 == Stride(b - 1) && Stride(b) > 0
  {
  }

  // init_root
  method InitRoot<E(==,!new)>(actor: DagCollectiveActor<E>, p: Plan, roundNproc: nat)
    requires actor.Building() && Ok(p) && actor.me == p.root && roundNproc == Pow2(Rounds(p))
    requires Stage(p, actor.me, actor.acts, actor.pre, Rounds(p))
    modifies actor`acts, actor`book, actor`pre
    ensures actor.Building() && Stage(p, actor.me, actor.acts, actor.pre, 0)
  {
    hide Stage, IsKey, LowBit, Built, Wrap, RecvFrom;
    var partnerGap := roundNproc / 2;
    ghost var b: nat := Rounds(p);
    while partnerGap > 0
      modifies actor`acts, actor`book, actor`pre
      invariant actor.Building() && b <= Rounds(p) && partnerGap == Stride(b) && Stage(p, actor.me, actor.acts, actor.pre, b)
      decreases b
    {
      StrideHalves(b);
      if partnerGap < p.n {
        RingIs(p.n, p.root, partnerGap);
        var partner := Wrap(p.root + partnerGap, p.n);
        AddSend(actor, p, b - 1, partner, None);
      } else {
        NoChild(p, actor.me, actor.acts, actor.pre, b - 1);
      }
      partnerGap := partnerGap / 2;
      b := b - 1;
    }
  }

  // init_internal
  method InitInternal<E(==,!new)>(actor: DagCollectiveActor<E>, p: Plan, offsetMe: nat, windowSize: nat, windowStop: nat, recv: Key)
    requires actor.Building() && Ok(p) && actor.me < p.n && offsetMe == Offset(p, actor.me) > 0 && recv == RecvFrom(p, actor.me)
    requires windowSize == Pow2(LowBit(offsetMe))
    requires windowStop == if p.n <= offsetMe + windowSize then p.n else offsetMe + windowSize
    requires Stage(p, actor.me, actor.acts, actor.pre, LowBit(offsetMe) + 1)
    modifies actor`acts, actor`book, actor`pre
    ensures actor.Building() && Stage(p, actor.me, actor.acts, actor.pre, 0)
  {
    hide Stage, IsKey, LowBit, Built, Wrap, RecvFrom;
    var stride := windowSize;
    ghost var b: nat := LowBit(offsetMe) + 1;
    while stride > 0
      modifies actor`acts, actor`book, actor`pre
      invariant actor.Building() && b <= LowBit(offsetMe) + 1 && stride == Stride(b) && Stage(p, actor.me, actor.acts, actor.pre, b)
      decreases b
    {
      StrideHalves(b);
      Pow2Grows(b - 1, LowBit(offsetMe));
      var partner := offsetMe + stride;
      if partner < windowStop {
        RootRing(p, partner);
        partner := Wrap(partner + p.root, p.n);
        AddSend(actor, p, b - 1, partner, Some(recv));
      } else {
        NoChild(p, actor.me, actor.acts, actor.pre, b - 1);
      }
      stride := stride / 2;
      b := b - 1;
    }
  }

  lemma RootRing(p: Plan, o: nat)
    requires Ok(p) && o < p.n
    ensures Wrap(o + p.root, p.n) == RankAt(p, o)
  {
    RingIs(p.n, p.root, o);
  }

  // The search of init_child: the window in which offsetMe is the split.
  method FindWindow(p: Plan, offsetMe: nat, roundNproc: nat) returns (windowStart: nat, windowSplit: nat, windowSize: nat)
    requires Ok(p) && 0 < offsetMe < p.n && roundNproc == Pow2(Rounds(p))
    ensures windowStart == Parent(offsetMe) && windowSplit == offsetMe && windowSize == Pow2(LowBit(offsetMe))
  {
    windowStart, windowSplit := 0, roundNproc / 2;
    windowSize := windowSplit;
    ghost var a: nat := Rounds(p) - 1;
    while windowSize > 0 && offsetMe != windowSplit
      invariant windowSize == Pow2(a) && windowSplit == windowStart + windowSize
      invariant windowStart < offsetMe < windowStart + 2 * windowSize
      invariant windowStart == 0 || LowBit(windowStart) > a
      decreases a
    {
      if offsetMe > windowSplit {
        ChildOf(windowStart, a);
        windowStart := windowSplit;
      }
      windowSize := windowSize / 2;
      windowSplit := windowStart + windowSize;
      a := a - 1;
    }
    ChildOf(windowStart, a);
  }

  // init_child
  method InitChild<E(==,!new)>(actor: DagCollectiveActor<E>, p: Plan, offsetMe: nat, roundNproc: nat)
    requires actor.Building() && actor.acts == map[] && Ok(p) && actor.me < p.n && offsetMe == Offset(p, actor.me) > 0
    requires roundNproc == Pow2(Rounds(p))
    modifies actor`acts, actor`book, actor`pre
    ensures actor.Building() && Stage(p, actor.me, actor.acts, actor.pre, 0)
  {
    hide Stage, IsKey, Built, Wrap, RecvFrom, LowBit;
    EmptyPre(actor);
    var windowStart, windowSplit, windowSize := FindWindow(p, offsetMe, roundNproc);
    RootRing(p, windowStart);
    var parent := Wrap(windowStart + p.root, p.n);
    var recv := RecvAction(0, parent, 0, p.nelems, InPlace);
    RecvFirstEntered(p, actor.me);
    AddAfter(actor, None, recv);
    var windowStop := if p.n <= windowSplit + windowSize then p.n else windowSplit + windowSize;
    OddLeaf(offsetMe);
    if offsetMe % 2 == 0 {
      InitInternal(actor, p, offsetMe, windowSize, windowStop, recv.Id());
    } else {
      NoChild(p, actor.me, actor.acts, actor.pre, 0);
    }
  }

  lemma OddLeaf(o: nat)
    requires o > 0
    ensures o % 2 == 1 ==> LowBit(o) == 0
  {
  }

  lemma RecvFirstEntered(p: Plan, r: nat)
    requires Ok(p) && r < p.n && Offset(p, r) > 0
    ensures var k := RecvFrom(p, r);
            && k == Key(Recv, 0, RankAt(p, Parent(Offset(p, r))))
            && Stage(p, r, map[k := RecvAction(0, k.partner, 0, p.nelems, InPlace)], map[k := Prevs(None, None)],
                     LowBit(Offset(p, r)) + 1)
  {
    var k, b := RecvFrom(p, r), LowBit(Offset(p, r)) + 1;
    LowBitIs(Offset(p, r));
    OffsetRank(p, k.partner, Parent(Offset(p, r)));
    forall k' | IsKey(p, r, k') && (k'.kind == Send ==> LowBit(Offset(p, k'.partner)) >= b) ensures k' == k {
      if k'.kind == Send { SendIs(p, r, LowBit(Offset(p, k'.partner)), k'); } else { EdgeIs(p, r, k'); }
    }
  }

  lemma NothingAtRoot(p: Plan, b: nat)
    requires Ok(p) && b >= Rounds(p)
    ensures Stage(p, p.root, map[], map[], b) && Offset(p, p.root) == 0
  {
    forall k | IsKey(p, p.root, k) ensures k.kind == Send && LowBit(Offset(p, k.partner)) < b {
      SendIs(p, p.root, LowBit(Offset(p, k.partner)), k);
    }
  }

  lemma IsRankDag(p: Plan, r: nat, acts: map<Key, Action>, pre: map<Key, set<Key>>)
    requires Ok(p) && r < p.n && Stage(p, r, acts, pre, 0)
    ensures Dag(acts, pre) == RankDag(p, r)
  {
    hide ActionOf, PreOf, LowBit;
    forall k ensures k in Keys(p, r) <==> IsKey(p, r, k) {
      assert k == Key(k.kind, k.round, k.partner);
    }
    SendsHaveOffsets(p, r);
  }

  // BinaryTreeBcastActor::initDag
  method BcastInitDag<E(==,!new)>(actor: DagCollectiveActor<E>, p: Plan)
    requires actor.Building() && actor.acts == map[] && Ok(p) && actor.me < p.n
    modifies actor`acts, actor`book, actor`pre
    ensures actor.Building() && Dag(actor.acts, actor.pre) == RankDag(p, actor.me)
  {
    hide Stage, IsKey, Built, Wrap, RankDag, LowBit;
    EmptyPre(actor);
    var roundNproc := RoundUp(p.n);
    if actor.me == p.root {
      NothingAtRoot(p, Rounds(p));
      InitRoot(actor, p, roundNproc);
    } else {
      RingIs(p.n, actor.me, p.root);
      var offsetMe := Wrap(actor.me + p.n - p.root, p.n);
      InitChild(actor, p, offsetMe, roundNproc);
    }
    IsRankDag(p, actor.me, actor.acts, actor.pre);
  }

  method RoundUp(nproc: nat) returns (roundNproc: nat)
    requires nproc >= 2
    ensures roundNproc == Pow2(Log2Up(nproc))
  {
    roundNproc := 1;
    ghost var l: nat := 0;
    while roundNproc < nproc
      invariant roundNproc == Pow2(l) && (l == 0 || Pow2(l - 1) < nproc)
      decreases 2 * nproc - roundNproc
    {
      roundNproc := roundNproc * 2;
      l := l + 1;
    }
    Log2UpUnique(nproc, l);
  }
}
