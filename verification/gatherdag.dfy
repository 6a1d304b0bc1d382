// The code around the gather schedule: initTree, initDag, startShuffle.
module GatherDag {
  import opened Actions
  import opened Protocol
  import opened Bookkeeping
  import opened DagBuilding
  import opened Engine
  import opened Powers
  import opened Trees
  import opened Gather
  import opened GatherProof

  // initTree
  method InitTree(p: Plan) returns (log2nproc: nat, midpoint: nat)
    requires Ok(p)
    ensures log2nproc == L(p) && midpoint == Mid(p)
  {
    log2nproc, midpoint := 0, 1;
    while midpoint < p.n
      invariant midpoint == Pow2(log2nproc) && (log2nproc == 0 || Pow2(log2nproc - 1) < p.n)
      decreases 2 * p.n - midpoint
    {
      midpoint := midpoint * 2;
      log2nproc := log2nproc + 1;
    }
    Log2UpUnique(p.n, log2nproc);
    midpoint := midpoint / 2;
  }

  lemma {:induction false} WholeIs(r: nat, t: nat)
    ensures Whole(r, t) <==> r % Pow2(t) == 0
    decreases t
  {
    if t == 0 {
      assert r % 1 == 0;
    } else if r > 0 {
      var g := Pow2(t - 1);
      if r % 2 == 0 {
        WholeIs(r / 2, t - 1);
        HalfMod(r / 2, g);
      } else {
        OddMod(r, g);
      }
    } else {
      assert 0 % Pow2(t) == 0;
    }
  }

  lemma HalfMod(h: nat, g: nat)
    requires g > 0
    ensures h % g == 0 <==> (2 * h) % (2 * g) == 0
  {
    if h % g == 0 {
      var q := h / g;
      assert h == q * g;
      assert 2 * h == q * (2 * g);
      QuotientIs(2 * h, 2 * g, q);
    }
    if (2 * h) % (2 * g) == 0 {
      var q := (2 * h) / (2 * g);
      assert 2 * h == q * (2 * g) == 2 * (q * g);
      QuotientIs(h, g, q);
    }
  }

  lemma OddMod(r: nat, g: nat)
    requires g > 0 && r % 2 == 1
    ensures r % (2 * g) != 0
  {
    var q := r / (2 * g);
    assert r == q * (2 * g) + r % (2 * g);
    assert q * (2 * g) == 2 * (q * g);
  }

  // ---------- how far the DAG of rank r is built ----------

  // The tree rounds before t are entered; prev is the last action.
  ghost predicate Upto(p: Plan, r: nat, acts: map<Key, Action>, pre: map<Key, set<Key>>, t: nat, prev: Option<Key>)
    requires Ok(p)
  {
    && acts.Keys == pre.Keys && PrevSet(p, r, t) == Prevs(prev, None)
    && (forall k :: k in acts <==> IsTree(p, r, k) && k.round < t)
    && (forall k :: k in acts ==> acts[k] == ActionOf(p, r, k) && pre[k] == PreOf(p, r, k))
  }

  lemma NothingYet(p: Plan, r: nat)
    requires Ok(p)
    ensures Upto(p, r, map[], map[], 0, None)
  {
  }

  lemma {:induction false} Idle(p: Plan, r: nat, acts: map<Key, Action>, pre: map<Key, set<Key>>, t: nat, t': nat, prev: Option<Key>)
    requires Ok(p) && Upto(p, r, acts, pre, t, prev) && t <= t' && forall i: nat :: t <= i < t' ==> !Busy(p, r, i)
    ensures Upto(p, r, acts, pre, t', prev)
    decreases t'
  {
    hide ActionOf, PreOf, TreeKey;
    if t < t' { Idle(p, r, acts, pre, t, t' - 1, prev); }
  }

  lemma TreeEntered(p: Plan, r: nat, acts: map<Key, Action>, pre: map<Key, set<Key>>, t: nat, prev: Option<Key>, k: Key,
                    acts': map<Key, Action>, pre': map<Key, set<Key>>)
    requires Ok(p) && r < p.n && Upto(p, r, acts, pre, t, prev) && Busy(p, r, t) && k == TreeKey(p, r, t)
    requires acts' == acts[k := ActionOf(p, r, k)] && pre' == pre[k := Prevs(prev, None)]
    ensures Upto(p, r, acts', pre', t + 1, Some(k))
  {
    hide ActionOf, Busy, TreeKey;
    TreeKeyIs(p, r, t);
    KeyIs(p, r, k);
    PrevsAre(Some(k), k, k);
  }

  lemma TreeKeyNew(p: Plan, r: nat, acts: map<Key, Action>, pre: map<Key, set<Key>>, t: nat, prev: Option<Key>)
    requires Ok(p) && r < p.n && Upto(p, r, acts, pre, t, prev) && Busy(p, r, t)
    ensures TreeKey(p, r, t) !in pre && ActionOf(p, r, TreeKey(p, r, t)).Id() == TreeKey(p, r, t)
  {
    TreeKeyIs(p, r, t);
    KeyIs(p, r, TreeKey(p, r, t));
  }

  method AddTree<E(==,!new)>(actor: DagCollectiveActor<E>, p: Plan, ghost t: nat, ac: Action, prev: Option<Key>)
    requires actor.Building() && Ok(p) && actor.me < p.n && Busy(p, actor.me, t)
    requires Upto(p, actor.me, actor.acts, actor.pre, t, prev) && ac == ActionOf(p, actor.me, TreeKey(p, actor.me, t))
    modifies actor`acts, actor`book, actor`pre
    ensures actor.Building() && Upto(p, actor.me, actor.acts, actor.pre, t + 1, Some(ac.Id()))
  {
    hide *;
    TreeKeyNew(p, actor.me, actor.acts, actor.pre, t, prev);
    AddAfter(actor, prev, ac);
    TreeEntered(p, actor.me, old(actor.acts), old(actor.pre), t, prev, ac.Id(), actor.acts, actor.pre);
  }

  // What the two kinds of tree action look like.
  lemma RecvIs(p: Plan, r: nat, i: nat)
    requires Ok(p) && r < p.n && Receives(p, r, i)
    ensures Busy(p, r, i)
    ensures ActionOf(p, r, TreeKey(p, r, i))
            == RecvAction(i, r + Pow2(i), Times(Pow2(i), p.nelems), Times(Chunk(p, r + Pow2(i), i), p.nelems), InPlace)
  {
  }

  lemma SendIs(p: Plan, r: nat, i: nat)
    requires Ok(p) && r < p.n && i < Depth(p) && Whole(r, i) && !Whole(r, i + 1)
    ensures Busy(p, r, i) && r >= Pow2(i) && 0 * p.nelems == 0
    ensures ActionOf(p, r, TreeKey(p, r, i)) == SendAction(i, r - Pow2(i), 0, Times(Chunk(p, r, i), p.nelems), SendInPlace)
    ensures forall t: nat :: i < t ==> !Busy(p, r, t)
  {
    LowBitIs(r);
  }

  // min(x + gap, nproc) - x
  method ChunkSize(p: Plan, x: nat, gap: nat, ghost i: nat) returns (size: nat)
    requires gap == Pow2(i) && x < p.n
    ensures size == Chunk(p, x, i)
  {
    var chunkStop := if x + gap <= p.n then x + gap else p.n;
    size := chunkStop - x;
  }

  lemma GapIs(p: Plan, i: nat, maxGap: nat)
    requires Ok(p) && maxGap == if p.root != 0 then Mid(p) / 2 else Mid(p)
    ensures Pow2(i) > maxGap <==> i >= Depth(p)
  {
    if i >= Depth(p) { Pow2Grows(Depth(p), i); } else { Pow2Grows(i, Depth(p) - 1); }
  }

  // The tree rounds.
  method TreeRounds<E(==,!new)>(actor: DagCollectiveActor<E>, p: Plan, midpoint: nat) returns (prev: Option<Key>)
    requires actor.Building() && actor.acts == map[] && Ok(p) && actor.me < p.n && midpoint == Mid(p)
    modifies actor`acts, actor`book, actor`pre
    ensures actor.Building() && Upto(p, actor.me, actor.acts, actor.pre, Depth(p), prev)
  {
    hide Upto, Chunk, ActionOf, Busy, TreeKey, Depth, LowBit, Built;
    EmptyPre(actor);
    var me := actor.me;
    var maxGap := if p.root != 0 then midpoint / 2 else midpoint;
    var round, partnerGap, stride := 0, 1, 2;
    prev := None;
    NothingYet(p, me);
    while true
      modifies actor`acts, actor`book, actor`pre
      invariant actor.Building() && Upto(p, me, actor.acts, actor.pre, round, prev)
      invariant partnerGap == Pow2(round) && stride == Pow2(round + 1) && Whole(me, round) && round <= Depth(p)
      decreases Depth(p) - round
    {
      GapIs(p, round, maxGap);
      if partnerGap > maxGap { break; }
      WholeIs(me, round + 1);
      if me % stride == 0 {
        prev := MaybeRecv(actor, p, round, partnerGap, prev);
      } else {
        SendIs(p, me, round);
        var sendChunkSize := ChunkSize(p, me, partnerGap, round);
        var send := SendAction(round, me - partnerGap, 0, Times(sendChunkSize, p.nelems), SendInPlace);
        AddTree(actor, p, round, send, prev);
        prev := Some(send.Id());
        Idle(p, me, actor.acts, actor.pre, round + 1, Depth(p), prev);
        round := Depth(p);
        break;
      }
      round := round + 1;
      partnerGap := partnerGap * 2;
      stride := stride * 2;
    }
  }

  // The receiver's turn.
  method MaybeRecv<E(==,!new)>(actor: DagCollectiveActor<E>, p: Plan, round: nat, partnerGap: nat, prev0: Option<Key>)
    returns (prev: Option<Key>)
    requires actor.Building() && Ok(p) && actor.me < p.n
    requires round < Depth(p) && partnerGap == Pow2(round) && Whole(actor.me, round + 1)
    requires Upto(p, actor.me, actor.acts, actor.pre, round, prev0)
    modifies actor`acts, actor`book, actor`pre
    ensures actor.Building() && Upto(p, actor.me, actor.acts, actor.pre, round + 1, prev)
  {
    hide Upto, Chunk, ActionOf, TreeKey, LowBit, Built, Busy, Depth;
    var me := actor.me;
    prev := prev0;
    var partner := me + partnerGap;
    if partner < p.n {
      RecvIs(p, me, round);
      var recvChunkSize := ChunkSize(p, partner, partnerGap, round);
      var recv := RecvAction(round, partner, Times(partnerGap, p.nelems), Times(recvChunkSize, p.nelems), InPlace);
      AddTree(actor, p, round, recv, prev);
      prev := Some(recv.Id());
    } else {
      NotBusy(p, me, round);
      Idle(p, me, actor.acts, actor.pre, round, round + 1, prev);
    }
  }

  lemma NotBusy(p: Plan, r: nat, i: nat)
    requires Ok(p) && Whole(r, i + 1) && r + Pow2(i) >= p.n
    ensures !Busy(p, r, i)
  {
  }

  // nelems_ * midpoint_ and nelems_ * (nproc - midpoint_)
  function FirstSize(p: Plan): nat
    requires Ok(p)
  {
    Times(Mid(p), p.nelems)
  }

  function SecondSize(p: Plan): nat
    requires Ok(p)
  {
    Times(p.n - Mid(p), p.nelems)
  }

  lemma LastKeys(p: Plan, r: nat)
    requires Ok(p) && r < p.n && p.root != 0
    ensures var a, b, c := Key(Recv, L(p), 0), Key(Recv, L(p), Mid(p)), Key(Send, L(p), p.root);
            && (forall k :: IsLast(p, r, k) <==>
                  || (r == p.root && k == a) || (r == p.root && Mid(p) != p.root && k == b)
                  || ((r == 0 || (r == Mid(p) && Mid(p) != p.root)) && k == c))
            && ActionOf(p, r, a) == RecvAction(L(p), 0, 0, FirstSize(p), InPlace)
            && ActionOf(p, r, b) == RecvAction(L(p), Mid(p), FirstSize(p), SecondSize(p), InPlace)
            && (r == 0 ==> ActionOf(p, r, c) == SendAction(L(p), p.root, 0, FirstSize(p), SendInPlace))
            && (r == Mid(p) ==> ActionOf(p, r, c) == SendAction(L(p), p.root, 0, SecondSize(p), SendInPlace))
            && Mid(p) != 0
  {
    assert 0 * p.nelems == 0;
  }

  // The transfers to a root other than 0.
  method AddLasts<E(==,!new)>(actor: DagCollectiveActor<E>, p: Plan, log2nproc: nat, midpoint: nat, prev: Option<Key>)
    requires actor.Building() && Ok(p) && actor.me < p.n && p.root != 0 && log2nproc == L(p) && midpoint == Mid(p)
    requires forall k :: k in actor.pre ==> !IsLast(p, actor.me, k)
    requires actor.acts.Keys == actor.pre.Keys
    modifies actor`acts, actor`book, actor`pre
    ensures actor.Building()
    ensures forall k :: k in actor.acts <==> k in old(actor.acts) || IsLast(p, actor.me, k)
    ensures forall k :: k in actor.pre <==> k in old(actor.pre) || IsLast(p, actor.me, k)
    ensures forall k :: k in old(actor.acts) ==> actor.acts[k] == old(actor.acts)[k] && actor.pre[k] == old(actor.pre)[k]
    ensures forall k :: IsLast(p, actor.me, k) ==> actor.acts[k] == ActionOf(p, actor.me, k) && actor.pre[k] == Prevs(prev, None)
  {
    hide IsLast, ActionOf, Built, Prevs, Mid, FirstSize, SecondSize;
    LastKeys(p, actor.me);
    var me, root := actor.me, p.root;
    if me == root {
      AddAfter(actor, prev, RecvAction(log2nproc, 0, 0, FirstSize(p), InPlace));
      if midpoint != root {
        AddAfter(actor, prev, RecvAction(log2nproc, midpoint, FirstSize(p), SecondSize(p), InPlace));
      }
    }
    if me == 0 {
      AddAfter(actor, prev, SendAction(log2nproc, root, 0, FirstSize(p), SendInPlace));
    }
    if me == midpoint && midpoint != root {
      AddAfter(actor, prev, SendAction(log2nproc, root, 0, SecondSize(p), SendInPlace));
    }
  }

  // Everything that is not a transfer to the root is entered.
  ghost predicate BeforeLast(p: Plan, r: nat, acts: map<Key, Action>, pre: map<Key, set<Key>>, prev: Option<Key>)
    requires Ok(p)
  {
    && acts.Keys == pre.Keys
    && (forall k :: k in acts <==> IsTree(p, r, k) || (Shuffles(p, r) && k == ShuffleKey(p, r)))
    && (forall k :: k in acts ==> acts[k] == ActionOf(p, r, k) && pre[k] == PreOf(p, r, k))
    && Prevs(prev, None) == if Shuffles(p, r) then {ShuffleKey(p, r)} else PrevSet(p, r, Depth(p))
  }

  lemma TreeThenShuffle(p: Plan, r: nat, acts: map<Key, Action>, pre: map<Key, set<Key>>, prev: Option<Key>)
    requires Ok(p) && r < p.n && Upto(p, r, acts, pre, Depth(p), prev)
    ensures !Shuffles(p, r) ==> BeforeLast(p, r, acts, pre, prev)
    ensures var k := ShuffleKey(p, r);
            && k !in pre
            && (Shuffles(p, r) ==>
                  ActionOf(p, r, k) == ShuffleAction(L(p), r, FirstSize(p), SecondSize(p))
                  && BeforeLast(p, r, acts[k := ActionOf(p, r, k)], pre[k := Prevs(prev, None)], Some(k)))
  {
    hide Busy, TreeKey, PrevSet;
    var k := ShuffleKey(p, r);
    assert !IsTree(p, r, k);
    PrevsAre(Some(k), k, k);
  }

  lemma Complete(p: Plan, r: nat, acts: map<Key, Action>, pre: map<Key, set<Key>>, prev: Option<Key>,
                 acts': map<Key, Action>, pre': map<Key, set<Key>>)
    requires Ok(p) && r < p.n && BeforeLast(p, r, acts, pre, prev)
    requires forall k :: k in acts' <==> k in acts || IsLast(p, r, k)
    requires forall k :: k in pre' <==> k in pre || IsLast(p, r, k)
    requires forall k :: k in acts ==> acts'[k] == acts[k] && pre'[k] == pre[k]
    requires forall k :: IsLast(p, r, k) ==> acts'[k] == ActionOf(p, r, k) && pre'[k] == Prevs(prev, None)
    ensures Dag(acts', pre') == RankDag(p, r)
  {
    hide ActionOf, PreOf, IsTree, IsLast, Prevs;
    forall k ensures k in Keys(p, r) <==> IsKey(p, r, k)
      ensures IsLast(p, r, k) ==> PreOf(p, r, k) == Prevs(prev, None)
    {
      if IsKey(p, r, k) { KeyIs(p, r, k); LastPre(p, r, k); }
    }
  }

  lemma LastPre(p: Plan, r: nat, k: Key)
    requires Ok(p)
    ensures IsLast(p, r, k) ==> PreOf(p, r, k) == if Shuffles(p, r) then {ShuffleKey(p, r)} else PrevSet(p, r, Depth(p))
  {
  }

  lemma LastApart(p: Plan, r: nat, acts: map<Key, Action>, pre: map<Key, set<Key>>, prev: Option<Key>)
    requires Ok(p) && r < p.n && BeforeLast(p, r, acts, pre, prev)
    ensures forall k :: k in pre ==> !IsLast(p, r, k)
    ensures p.root == 0 ==> forall k :: !IsLast(p, r, k)
  {
    hide Busy, TreeKey, ActionOf, PreOf;
  }

  // BtreeGatherActor::initDag
  method GatherInitDag<E(==,!new)>(actor: DagCollectiveActor<E>, p: Plan)
    requires actor.Building() && actor.acts == map[] && Ok(p) && actor.me < p.n
    modifies actor`acts, actor`book, actor`pre
    ensures actor.Building() && Dag(actor.acts, actor.pre) == RankDag(p, actor.me)
  {
    hide Upto, BeforeLast, IsLast, ActionOf, PreOf, RankDag, Built, Prevs, Mid, Depth;
    var log2nproc, midpoint := InitTree(p);
    var prev := TreeRounds(actor, p, midpoint);
    TreeThenShuffle(p, actor.me, actor.acts, actor.pre, prev);
    if p.root != 0 && p.root == midpoint && actor.me == p.root {
      var shuffle := ShuffleAction(log2nproc, actor.me, FirstSize(p), SecondSize(p));
      AddAfter(actor, prev, shuffle);
      prev := Some(shuffle.Id());
    }
    ghost var acts, pre := actor.acts, actor.pre;
    LastApart(p, actor.me, acts, pre, prev);
    KeysSame(p, actor.me, acts, pre, prev);
    if p.root != 0 {
      AddLasts(actor, p, log2nproc, midpoint, prev);
    }
    Complete(p, actor.me, acts, pre, prev, actor.acts, actor.pre);
  }

  lemma KeysSame(p: Plan, r: nat, acts: map<Key, Action>, pre: map<Key, set<Key>>, prev: Option<Key>)
    requires Ok(p) && BeforeLast(p, r, acts, pre, prev)
    ensures acts.Keys == pre.Keys
  {
  }

  // initBuffers: the root works in its result buffer, another rank in a workspace
  // of midpoint blocks; the rank's own block comes first.  The send pointer is
  // element `from` of src, which may be the result buffer.
  method InitBuffers<E>(p: Plan, me: nat, midpoint: nat, dst: array<E>, src: array<E>, from: nat, blank: nat -> E)
    returns (buf: array<E>)
    requires Ok(p) && me < p.n && midpoint == Mid(p) && from + p.nelems <= src.Length
    requires me == p.root ==> dst.Length == p.n * p.nelems
    modifies if me == p.root then {dst} else {}
    ensures if me == p.root then buf == dst else fresh(buf) && buf.Length == Mid(p) * p.nelems
    ensures p.nelems <= buf.Length && buf[..p.nelems] == old(src[from..from + p.nelems])
    ensures me == p.root ==> buf[p.nelems..] == old(dst[p.nelems..])
  {
    Halves(p);
    Multiples(1, Mid(p), p.nelems);
    Multiples(1, p.n, p.nelems);
    buf := dst;
    if me != p.root {
      buf := new E[midpoint * p.nelems](blank);
    }
    forall i | 0 <= i < p.nelems { buf[i] := src[from + i]; }
  }

  lemma OwnBlockFits(p: Plan, r: nat)
    requires r < p.n
    ensures 0 <= r * p.nelems && r * p.nelems + p.nelems <= p.n * p.nelems
  {
    Multiples(r + 1, p.n, p.nelems);
  }

  // In place the root's send pointer is its own block of the result buffer; what is
  // copied and what is overwritten are then apart exactly if the root is not 0.
  lemma InPlaceApart(p: Plan)
    requires Ok(p)
    ensures (forall c :: Span(0, 0, p.nelems).Has(c) ==> !Span(0, p.root * p.nelems, p.nelems).Has(c))
            <==> p.root != 0 || p.nelems == 0
  {
    if p.root > 0 { Multiples(1, p.root, p.nelems); }
    if p.root == 0 && p.nelems > 0 { assert Span(0, 0, p.nelems).Has(Cell(0, 0)); }
  }

  // startShuffle: for the shuffle of a root that is the midpoint, the copy made with
  // the action's own offset and size moves the front of the buffer to the midpoint.
  method StartShuffle<E(!new)>(p: Plan, ghost r: nat, ghost k: Key, ac: Action, buf: array<E>)
    requires Ok(p) && r < p.n && k in RankDag(p, r).acts && k.kind == Shuffle && ac == RankDag(p, r).acts[k]
    requires buf.Length == p.n * p.nelems
    modifies buf
    ensures forall i :: 0 <= i < buf.Length ==>
              buf[i] == match Moved(p, k, Cell(0, i))
                        case Some(c) => if 0 <= c.idx < buf.Length then old(buf[c.idx]) else buf[i]
                        case None => old(buf[i])
  {
    hide RankDag;
    ShuffleIs(p, r, k);
    Halves(p);
    forall i | 0 <= i < ac.nelems { buf[ac.offset + i] := buf[i]; }
    forall i | 0 <= i < buf.Length
      ensures buf[i] == if ac.offset <= i < ac.offset + ac.nelems then old(buf[i - ac.offset]) else old(buf[i])
    {
      if ac.offset <= i < ac.offset + ac.nelems { assert buf[ac.offset + (i - ac.offset)] == old(buf[i - ac.offset]); }
    }
  }

  lemma ShuffleIs(p: Plan, r: nat, k: Key)
    requires Ok(p) && r < p.n && k in RankDag(p, r).acts && k.kind == Shuffle
    ensures r == p.root == Mid(p)
    ensures var ac := RankDag(p, r).acts[k];
            && ac.ShuffleAction? && ac.offset == Mid(p) * p.nelems && ac.nelems == (p.n - Mid(p)) * p.nelems
            && ac.offset + ac.nelems == p.n * p.nelems
  {
    hide PreOf, Busy, Chunk, LastBusy;
    TwoParts(p.n, Mid(p), p.nelems);
  }

  lemma TwoParts(n: nat, m: nat, e: nat)
    requires m <= n
    ensures m * e + (n - m) * e == n * e
  {
  }

  lemma Halves(p: Plan)
    requires Ok(p)
    ensures (p.n - Mid(p)) * p.nelems <= Mid(p) * p.nelems
  {
    Multiples(p.n - Mid(p), Mid(p), p.nelems);
  }
}
