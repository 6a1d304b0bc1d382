// The loops around the Bruck schedule: computeTree, nelems_to_recv, the two
// initDag, initBuffers and finalize.
module BruckDag {
  import opened Actions
  import opened Protocol
  import opened Bookkeeping
  import opened DagBuilding
  import opened Engine
  import opened Powers
  import opened Ring
  import opened VirtualRanks
  import opened Bruck
  import opened BruckProof
  import opened Gathers

  // BruckTree::computeTree
  method BruckTree(nproc: nat) returns (log2nproc: nat, midpoint: nat, numRounds: nat, nprocsExtraRound: nat)
    requires nproc >= 2
    ensures log2nproc == Log2Up(nproc) >= 1 && midpoint == Pow2(log2nproc - 1) < nproc
    ensures if nproc == Pow2(log2nproc) then numRounds == log2nproc && nprocsExtraRound == 0
            else numRounds == log2nproc - 1 && nprocsExtraRound == nproc - midpoint
  {
    var virtualNproc;
    log2nproc, midpoint, virtualNproc := ComputeTree(nproc);
    nprocsExtraRound := 0;
    numRounds := log2nproc;
    if nproc != virtualNproc {
      numRounds := numRounds - 1;
      nprocsExtraRound := nproc - midpoint;
    }
  }

  // BruckAllgathervActor's constructor: where my block belongs, and the total.
  method Displacement(counts: array<nat>, me: nat) returns (myOffset: nat, totalNelems: nat)
    requires me < counts.Length
    ensures myOffset == Disp(counts[..], me) && totalNelems == Disp(counts[..], counts.Length)
  {
    totalNelems, myOffset := 0, 0;
    for i := 0 to counts.Length
      invariant totalNelems == Disp(counts[..], i) && (i > me ==> myOffset == Disp(counts[..], me))
    {
      if i == me { myOffset := totalNelems; }
      totalNelems := totalNelems + counts[i];
    }
  }

  // nelems_to_recv
  method NelemsToRecv(p: Plan, counts: array<nat>, partner: nat, partnerGap: nat) returns (nelems: nat)
    requires Ok(p) && counts[..] == p.counts && partner < p.n && partnerGap <= p.n
    ensures nelems == Off(p, partner, partnerGap)
  {
    nelems := 0;
    for q := 0 to partnerGap
      invariant nelems == Off(p, partner, q)
    {
      RingIs(p.n, partner, q);
      var actualPartner := Wrap(partner + q, p.n);
      assert counts[..][actualPartner] == counts[actualPartner];
      InBlock(p, partner, q);
      nelems := nelems + counts[actualPartner];
    }
  }

  // ---------- how far the DAG of rank r is built ----------

  ghost predicate Stage(p: Plan, r: nat, acts: map<Key, Action>, pre: map<Key, set<Key>>, s: nat)
    requires Ok(p) && r < p.n
  {
    && acts.Keys == pre.Keys
    && (forall k :: k in acts <==> IsKey(p, r, k) && StepOf(p, k.round) < s)
    && (forall k :: k in acts ==> acts[k] == ActionOf(p, r, k) && pre[k] == PreOf(p, r, k))
  }

  // All steps before s are entered; ps and pr are the last two actions.
  ghost predicate Upto(p: Plan, r: nat, acts: map<Key, Action>, pre: map<Key, set<Key>>, s: nat, ps: Option<Key>, pr: Option<Key>)
    requires Ok(p) && r < p.n
  {
    && s <= Steps(p) && Stage(p, r, acts, pre, s)
    && (if s == 0 then ps == pr == None
        else ps == Some(StepKey(p, r, s - 1, true)) && pr == Some(StepKey(p, r, s - 1, false)))
  }

  lemma StepEntered(p: Plan, r: nat, acts: map<Key, Action>, pre: map<Key, set<Key>>, s: nat, ps: Option<Key>, pr: Option<Key>,
                    acts': map<Key, Action>, pre': map<Key, set<Key>>)
    requires Ok(p) && r < p.n && s < Steps(p) && Upto(p, r, acts, pre, s, ps, pr)
    requires var sk, rk := StepKey(p, r, s, true), StepKey(p, r, s, false);
             && acts' == acts[sk := StepAction(p, r, s, true)][rk := StepAction(p, r, s, false)]
             && pre' == pre[sk := Prevs(ps, pr)][rk := Prevs(ps, pr)]
    ensures Upto(p, r, acts', pre', s + 1, Some(StepKey(p, r, s, true)), Some(StepKey(p, r, s, false)))
  {
    hide StepKey, StepAction, IsKey, ActionOf, PreOf, StepOf;
    StepIs(p, r, s, true);
    StepIs(p, r, s, false);
    forall k ensures k in acts' <==> IsKey(p, r, k) && StepOf(p, k.round) < s + 1 {
      if IsKey(p, r, k) { KeyIs(p, r, k); }
    }
  }

  lemma NotYet(p: Plan, r: nat, acts: map<Key, Action>, pre: map<Key, set<Key>>, s: nat, ps: Option<Key>, pr: Option<Key>)
    requires Ok(p) && r < p.n && s < Steps(p) && Upto(p, r, acts, pre, s, ps, pr)
    ensures StepKey(p, r, s, true) !in pre && StepKey(p, r, s, false) !in pre && StepKey(p, r, s, true) != StepKey(p, r, s, false)
    ensures StepAction(p, r, s, true).Id() == StepKey(p, r, s, true) && StepAction(p, r, s, false).Id() == StepKey(p, r, s, false)
  {
    StepIs(p, r, s, true);
    StepIs(p, r, s, false);
  }

  method AddStep<E(==,!new)>(actor: DagCollectiveActor<E>, p: Plan, ghost s: nat, send: Action, recv: Action,
                             prevSend: Option<Key>, prevRecv: Option<Key>)
    requires actor.Building() && Ok(p) && actor.me < p.n && s < Steps(p)
    requires send == StepAction(p, actor.me, s, true) && recv == StepAction(p, actor.me, s, false)
    requires Upto(p, actor.me, actor.acts, actor.pre, s, prevSend, prevRecv)
    modifies actor`acts, actor`book, actor`pre
    ensures actor.Building() && Upto(p, actor.me, actor.acts, actor.pre, s + 1, Some(send.Id()), Some(recv.Id()))
  {
    hide Upto, StepKey, StepAction, Built, Prevs;
    NotYet(p, actor.me, actor.acts, actor.pre, s, prevSend, prevRecv);
    AddAfterBoth(actor, prevSend, prevRecv, send);
    AddAfterBoth(actor, prevSend, prevRecv, recv);
    StepEntered(p, actor.me, old(actor.acts), old(actor.pre), s, prevSend, prevRecv, actor.acts, actor.pre);
  }

  lemma NothingYet(p: Plan, r: nat)
    requires Ok(p) && r < p.n
    ensures Upto(p, r, map[], map[], 0, None, None)
  {
  }

  lemma IsRankDag(p: Plan, r: nat, acts: map<Key, Action>, pre: map<Key, set<Key>>, ps: Option<Key>, pr: Option<Key>)
    requires Ok(p) && r < p.n && Upto(p, r, acts, pre, Steps(p), ps, pr)
    ensures Dag(acts, pre) == RankDag(p, r)
  {
    hide StepKey, StepAction, IsKey, ActionOf, PreOf, StepOf;
    forall k ensures k in Keys(p, r) <==> IsKey(p, r, k)
      ensures IsKey(p, r, k) ==> StepOf(p, k.round) < Steps(p)
    {
      if IsKey(p, r, k) { KeyIs(p, r, k); }
    }
  }

  // The actions of a full round, and of the extra one.
  lemma FullRound(p: Plan, r: nat, s: nat)
    requires Ok(p) && r < p.n && s < Steps(p) && (s + 1 < Steps(p) || !Uneven(p))
    ensures Pow2(s) < p.n && Pow2(s + 1) <= p.n
    ensures Wrap(r + p.n - Pow2(s), p.n) == Target(p, r, s) && Wrap(r + Pow2(s), p.n) == Source(p, r, s)
    ensures 0 <= Off(p, r, Pow2(s)) && 0 <= Off(p, Source(p, r, s), Pow2(s))
    ensures StepAction(p, r, s, true) == SendAction(s, Target(p, r, s), 0, Off(p, r, Pow2(s)), SendInPlace)
    ensures StepAction(p, r, s, false) == RecvAction(s, Source(p, r, s), Off(p, r, Pow2(s)), Off(p, Source(p, r, s), Pow2(s)), InPlace)
    ensures Off(p, r, Pow2(s + 1)) == Off(p, r, Pow2(s)) + Off(p, Source(p, r, s), Pow2(s))
  {
    hide Wrap, Above, Below, Off;
    FullPasses(p, s);
    RingIs(p.n, r, Pow2(s));
    OffSum(p, r, Pow2(s), Pow2(s));
    OffGrows(p, r, 0, Pow2(s));
    OffGrows(p, Source(p, r, s), 0, Pow2(s));
  }

  lemma FullPasses(p: Plan, s: nat)
    requires Ok(p) && s < Steps(p) && (s + 1 < Steps(p) || !Uneven(p))
    ensures Passes(p, s) == Pow2(s) < p.n && Pow2(s) + Pow2(s) == Pow2(s + 1) <= p.n && Rnd(p, s) == s
  {
    var _ := Passes(p, s);
  }

  lemma ExtraRound(p: Plan, r: nat, s: nat)
    requires Ok(p) && r < p.n && s + 1 == Steps(p) && Uneven(p)
    ensures Pow2(s) < p.n
    ensures Wrap(r + p.n - Pow2(s), p.n) == Target(p, r, s) && Wrap(r + Pow2(s), p.n) == Source(p, r, s)
    ensures var total, rnd := Disp(p.counts, p.n), if p.gap then s + 1 else s;
            && 0 <= Off(p, r, Pow2(s)) <= total && 0 <= Off(p, Target(p, r, s), Pow2(s)) <= total
            && StepAction(p, r, s, true) == SendAction(rnd, Target(p, r, s), 0, total - Off(p, Target(p, r, s), Pow2(s)), SendInPlace)
            && StepAction(p, r, s, false) == RecvAction(rnd, Source(p, r, s), Off(p, r, Pow2(s)), total - Off(p, r, Pow2(s)), InPlace)
  {
    hide Wrap, Above, Below, Off, Disp;
    var w := Target(p, r, s);
    var b := Passes(p, s);
    RingIs(p.n, r, Pow2(s));
    OffSum(p, w, Pow2(s), b);
    OffUp(p, w, 0, p.n);
    OffUp(p, r, 0, p.n);
    OffGrows(p, r, 0, Pow2(s));
    OffGrows(p, w, 0, Pow2(s));
  }

  // BruckAllgathervActor::initDag
  method AllgathervInitDag<E(==,!new)>(actor: DagCollectiveActor<E>, p: Plan, counts: array<nat>, totalNelems: nat)
    requires actor.Building() && actor.acts == map[] && Ok(p) && !p.gap && actor.me < p.n
    requires counts[..] == p.counts && totalNelems == Disp(p.counts, p.n)
    modifies actor`acts, actor`book, actor`pre
    ensures actor.Building() && Dag(actor.acts, actor.pre) == RankDag(p, actor.me)
  {
    hide *;
    PlanIs(p);
    EmptyPre(actor);
    var me := actor.me;
    var log2nproc, midpoint, numRounds, nprocsExtraRound := BruckTree(p.n);
    var partnerGap := 1;
    var prevSend: Option<Key>, prevRecv: Option<Key> := None, None;
    OneBlock(p, me);
    var nelemsRecvd := counts[me];
    NothingYet(p, me);
    for i := 0 to numRounds
      modifies actor`acts, actor`book, actor`pre
      invariant actor.Building() && Upto(p, me, actor.acts, actor.pre, i, prevSend, prevRecv)
      invariant partnerGap == Pow2(i) <= p.n && nelemsRecvd == Off(p, me, partnerGap)
    {
      prevSend, prevRecv, nelemsRecvd := RoundV(actor, p, counts, i, partnerGap, nelemsRecvd, prevSend, prevRecv);
      partnerGap := partnerGap * 2;
    }
    if nprocsExtraRound > 0 {
      prevSend, prevRecv := ExtraRoundV(actor, p, counts, totalNelems, numRounds, partnerGap, nelemsRecvd, prevSend, prevRecv);
    }
    IsRankDag(p, me, actor.acts, actor.pre, prevSend, prevRecv);
  }

  // One turn of its loop.
  method RoundV<E(==,!new)>(actor: DagCollectiveActor<E>, p: Plan, counts: array<nat>, i: nat, partnerGap: nat, recvd0: nat,
                            prevSend0: Option<Key>, prevRecv0: Option<Key>)
    returns (prevSend: Option<Key>, prevRecv: Option<Key>, nelemsRecvd: nat)
    requires actor.Building() && Ok(p) && actor.me < p.n && counts[..] == p.counts
    requires i < Steps(p) && (i + 1 < Steps(p) || !Uneven(p)) && Upto(p, actor.me, actor.acts, actor.pre, i, prevSend0, prevRecv0)
    requires partnerGap == Pow2(i) <= p.n && recvd0 == Off(p, actor.me, partnerGap)
    modifies actor`acts, actor`book, actor`pre
    ensures actor.Building() && Upto(p, actor.me, actor.acts, actor.pre, i + 1, prevSend, prevRecv)
    ensures Pow2(i + 1) <= p.n && nelemsRecvd == Off(p, actor.me, Pow2(i + 1))
  {
    hide *;
    FullRound(p, actor.me, i);

    var me, nproc := actor.me, p.n;
    var sendPartner := Wrap(me + nproc - partnerGap, nproc);
    var recvPartner := Wrap(me + partnerGap, nproc);
    var recvNelems := NelemsToRecv(p, counts, recvPartner, partnerGap);
    var send := SendAction(i, sendPartner, 0, recvd0, SendInPlace);
    var recv := RecvAction(i, recvPartner, recvd0, recvNelems, InPlace);
    nelemsRecvd := recvd0 + recvNelems;
    AddStep(actor, p, i, send, recv, prevSend0, prevRecv0);
    prevSend, prevRecv := Some(send.Id()), Some(recv.Id());
  }

  // Its extra round.
  method ExtraRoundV<E(==,!new)>(actor: DagCollectiveActor<E>, p: Plan, counts: array<nat>, totalNelems: nat, numRounds: nat,
                                 partnerGap: nat, nelemsRecvd: nat, prevSend0: Option<Key>, prevRecv0: Option<Key>)
    returns (prevSend: Option<Key>, prevRecv: Option<Key>)
    requires actor.Building() && Ok(p) && !p.gap && actor.me < p.n && counts[..] == p.counts && totalNelems == Disp(p.counts, p.n)
    requires numRounds + 1 == Steps(p) && Uneven(p) && Upto(p, actor.me, actor.acts, actor.pre, numRounds, prevSend0, prevRecv0)
    requires partnerGap == Pow2(numRounds) <= p.n && nelemsRecvd == Off(p, actor.me, partnerGap)
    modifies actor`acts, actor`book, actor`pre
    ensures actor.Building() && Upto(p, actor.me, actor.acts, actor.pre, numRounds + 1, prevSend, prevRecv)
  {
    hide *;
    ExtraRound(p, actor.me, numRounds);
    var me, nproc := actor.me, p.n;
    var sendPartner := Wrap(me + nproc - partnerGap, nproc);
    var recvPartner := Wrap(me + partnerGap, nproc);
    var theirs := NelemsToRecv(p, counts, sendPartner, partnerGap);
    var send := SendAction(numRounds, sendPartner, 0, totalNelems - theirs, SendInPlace);
    var recv := RecvAction(numRounds, recvPartner, nelemsRecvd, totalNelems - nelemsRecvd, InPlace);
    AddStep(actor, p, numRounds, send, recv, prevSend0, prevRecv0);
    prevSend, prevRecv := Some(send.Id()), Some(recv.Id());
  }

  lemma OneBlock(p: Plan, r: nat)
    requires Ok(p) && r < p.n
    ensures Off(p, r, 1) == p.counts[r]
  {
    InBlock(p, r, 0);
  }

  lemma EvenOff(n: nat, nelems: nat, r: nat, j: nat)
    requires n >= 2 && r < n && j <= n
    ensures Ok(EvenPlan(n, nelems)) && EvenPlan(n, nelems).n == n
    ensures Off(EvenPlan(n, nelems), r, j) == Times(j, nelems)
  {
    EvenDisp(n, nelems, r);
    EvenDisp(n, nelems, n);
    if r + j <= n {
      EvenDisp(n, nelems, r + j);
      assert (r + j) * nelems == r * nelems + j * nelems;
    } else {
      EvenDisp(n, nelems, r + j - n);
      assert (r + j - n) * nelems == r * nelems + j * nelems - n * nelems;
    }
  }

  // BruckActor::initDag
  method AllgatherInitDag<E(==,!new)>(actor: DagCollectiveActor<E>, n: nat, nelems: nat)
    requires actor.Building() && actor.acts == map[] && n >= 2 && actor.me < n
    modifies actor`acts, actor`book, actor`pre
    ensures actor.Building() && Dag(actor.acts, actor.pre) == RankDag(EvenPlan(n, nelems), actor.me)
  {
    hide *;
    EvenIs(n, nelems);
    PlanIs(EvenPlan(n, nelems));
    EmptyPre(actor);
    ghost var p := EvenPlan(n, nelems);
    var log2nproc, midpoint, numRounds, nprocsExtraRound := BruckTree(n);
    var partnerGap, roundNelems := 1, nelems;
    var prevSend: Option<Key>, prevRecv: Option<Key> := None, None;
    NothingYet(p, actor.me);
    TwiceTimes(1, nelems);
    for i := 0 to numRounds
      modifies actor`acts, actor`book, actor`pre
      invariant actor.Building() && Upto(p, actor.me, actor.acts, actor.pre, i, prevSend, prevRecv)
      invariant partnerGap == Pow2(i) <= n && roundNelems == Times(partnerGap, nelems)
    {
      prevSend, prevRecv := RoundE(actor, n, nelems, i, partnerGap, roundNelems, prevSend, prevRecv);
      TwiceTimes(partnerGap, nelems);
      partnerGap := partnerGap * 2;
      roundNelems := roundNelems * 2;
    }
    if nprocsExtraRound > 0 {
      prevSend, prevRecv := ExtraRoundE(actor, n, nelems, nprocsExtraRound, numRounds, partnerGap, roundNelems, prevSend, prevRecv);
    }
    IsRankDag(p, actor.me, actor.acts, actor.pre, prevSend, prevRecv);
  }

  // One turn of its loop.
  method RoundE<E(==,!new)>(actor: DagCollectiveActor<E>, n: nat, nelems: nat, i: nat, partnerGap: nat, roundNelems: nat,
                            prevSend0: Option<Key>, prevRecv0: Option<Key>)
    returns (prevSend: Option<Key>, prevRecv: Option<Key>)
    requires actor.Building() && n >= 2 && actor.me < n
    requires i < Log2Up(n) && (i + 1 < Log2Up(n) || n == Pow2(Log2Up(n)))
    requires Upto(EvenPlan(n, nelems), actor.me, actor.acts, actor.pre, i, prevSend0, prevRecv0)
    requires partnerGap == Pow2(i) <= n && roundNelems == Times(partnerGap, nelems)
    modifies actor`acts, actor`book, actor`pre
    ensures actor.Building() && Upto(EvenPlan(n, nelems), actor.me, actor.acts, actor.pre, i + 1, prevSend, prevRecv)
    ensures Pow2(i + 1) <= n
  {
    EvenIs(n, nelems);
    hide *;
    var me := actor.me;
    FullRoundEven(n, nelems, me, i);
    var sendPartner := Wrap(me + n - partnerGap, n);
    var recvPartner := Wrap(me + partnerGap, n);
    var send := SendAction(i, sendPartner, 0, roundNelems, SendInPlace);
    var recv := RecvAction(i, recvPartner, roundNelems, roundNelems, InPlace);
    AddStep(actor, EvenPlan(n, nelems), i, send, recv, prevSend0, prevRecv0);
    prevSend, prevRecv := Some(send.Id()), Some(recv.Id());
  }

  // Its extra round.
  method ExtraRoundE<E(==,!new)>(actor: DagCollectiveActor<E>, n: nat, nelems: nat, nprocsExtraRound: nat, numRounds: nat,
                                 partnerGap: nat, roundNelems: nat, prevSend0: Option<Key>, prevRecv0: Option<Key>)
    returns (prevSend: Option<Key>, prevRecv: Option<Key>)
    requires actor.Building() && n >= 2 && actor.me < n && numRounds + 1 == Log2Up(n) && n != Pow2(Log2Up(n))
    requires Upto(EvenPlan(n, nelems), actor.me, actor.acts, actor.pre, numRounds, prevSend0, prevRecv0)
    requires partnerGap == Pow2(numRounds) <= n && roundNelems == Times(partnerGap, nelems) && nprocsExtraRound == n - partnerGap
    modifies actor`acts, actor`book, actor`pre
    ensures actor.Building() && Upto(EvenPlan(n, nelems), actor.me, actor.acts, actor.pre, numRounds + 1, prevSend, prevRecv)
  {
    EvenIs(n, nelems);
    hide *;
    var me := actor.me;
    ExtraRoundEven(n, nelems, me, numRounds);
    var nelemsExtraRound := Times(nprocsExtraRound, nelems);
    var sendPartner := Wrap(me + n - partnerGap, n);
    var recvPartner := Wrap(me + partnerGap, n);
    var send := SendAction(numRounds + 1, sendPartner, 0, nelemsExtraRound, SendInPlace);
    var recv := RecvAction(numRounds + 1, recvPartner, roundNelems, nelemsExtraRound, InPlace);
    AddStep(actor, EvenPlan(n, nelems), numRounds, send, recv, prevSend0, prevRecv0);
    prevSend, prevRecv := Some(send.Id()), Some(recv.Id());
  }

  lemma EvenIs(n: nat, nelems: nat)
    ensures EvenPlan(n, nelems).n == n && |EvenPlan(n, nelems).counts| == n && EvenPlan(n, nelems).gap
    ensures n >= 2 ==> Ok(EvenPlan(n, nelems))
    ensures Steps(EvenPlan(n, nelems)) == Log2Up(n)
    ensures Uneven(EvenPlan(n, nelems)) <==> n != Pow2(Log2Up(n))
  {
  }

  lemma PlanIs(p: Plan)
    requires Ok(p)
    ensures p.n >= 2 && |p.counts| == p.n && Steps(p) == Log2Up(p.n) && Pow2(0) == 1
    ensures Uneven(p) <==> p.n != Pow2(Log2Up(p.n))
    ensures forall i: nat :: Pow2(i + 1) == 2 * Pow2(i)
  {
  }

  lemma FullRoundEven(n: nat, nelems: nat, r: nat, s: nat)
    requires n >= 2 && r < n && s < Log2Up(n) && (s + 1 < Log2Up(n) || n == Pow2(Log2Up(n)))
    ensures var p := EvenPlan(n, nelems);
            && Ok(p) && p.n == n && s < Steps(p) && Pow2(s) < n && Pow2(s + 1) <= n
            && Wrap(r + n - Pow2(s), n) == Target(p, r, s) && Wrap(r + Pow2(s), n) == Source(p, r, s)
            && StepAction(p, r, s, true) == SendAction(s, Target(p, r, s), 0, Times(Pow2(s), nelems), SendInPlace)
            && StepAction(p, r, s, false) == RecvAction(s, Source(p, r, s), Times(Pow2(s), nelems), Times(Pow2(s), nelems), InPlace)
  {
    hide Wrap, Off, StepAction;
    var p := EvenPlan(n, nelems);
    FullRound(p, r, s);
    EvenOff(n, nelems, r, Pow2(s));
    EvenOff(n, nelems, Source(p, r, s), Pow2(s));
  }

  lemma ExtraRoundEven(n: nat, nelems: nat, r: nat, s: nat)
    requires n >= 2 && r < n && s + 1 == Log2Up(n) && n != Pow2(Log2Up(n))
    ensures var p := EvenPlan(n, nelems);
            && Ok(p) && p.n == n && s < Steps(p) && Pow2(s) < n
            && Wrap(r + n - Pow2(s), n) == Target(p, r, s) && Wrap(r + Pow2(s), n) == Source(p, r, s)
            && StepAction(p, r, s, true) == SendAction(s + 1, Target(p, r, s), 0, Times(n - Pow2(s), nelems), SendInPlace)
            && StepAction(p, r, s, false)
               == RecvAction(s + 1, Source(p, r, s), Times(Pow2(s), nelems), Times(n - Pow2(s), nelems), InPlace)
  {
    hide Wrap, Off, StepAction, Disp, Pow2, Log2Up, EvenPlan;
    EvenIs(n, nelems);
    var p := EvenPlan(n, nelems);
    ExtraRound(p, r, s);
    var total, g, w := Disp(p.counts, n), Pow2(s), Target(p, r, s);
    EvenRest(n, nelems, r, g);
    EvenRest(n, nelems, w, g);
  }

  // What a rank that has the first g blocks lacks.
  lemma EvenRest(n: nat, nelems: nat, r: nat, g: nat)
    requires n >= 2 && r < n && g <= n
    ensures var p := EvenPlan(n, nelems);
            && Ok(p) && p.n == n && Off(p, r, g) == Times(g, nelems) && Disp(p.counts, n) - Off(p, r, g) == Times(n - g, nelems)
  {
    hide Off, Disp;
    EvenOff(n, nelems, r, g);
    EvenTotal(n, nelems);
    PartTimes(n, g, nelems);
  }

  lemma EvenTotal(n: nat, nelems: nat)
    ensures |EvenPlan(n, nelems).counts| == n && Disp(EvenPlan(n, nelems).counts, n) == n * nelems
  {
    EvenDisp(n, nelems, n);
  }

  lemma TwiceTimes(g: nat, m: nat)
    ensures Times(g * 2, m) == Times(g, m) * 2 && Times(1, m) == m
  {
  }

  lemma PartTimes(n: nat, g: nat, m: nat)
    requires g <= n
    ensures Times(n - g, m) == n * m - Times(g, m)
  {
  }

  // ---------- buffers ----------

  // What initBuffers copies inside the result buffer does not overlap what it
  // overwrites, as memcpy demands: rank 0 copies nothing.
  ghost predicate CopyDefined(counts: seq<nat>, me: nat)
    requires me < |counts|
  {
    me == 0 || forall c :: Span(0, 0, counts[me]).Has(c) ==> !Span(0, Disp(counts, me), counts[me]).Has(c)
  }

  // Exactly when that is so.
  lemma CopyDefinedExactly(counts: seq<nat>, me: nat)
    requires me < |counts|
    ensures CopyDefined(counts, me) <==> me == 0 || counts[me] == 0 || counts[me] <= Disp(counts, me)
  {
    if me > 0 && Disp(counts, me) < counts[me] {
      var c := Cell(0, Disp(counts, me));
      assert Span(0, 0, counts[me]).Has(c) && Span(0, Disp(counts, me), counts[me]).Has(c);
    }
  }

  // It is not always: rank 1 of two, with blocks of 1 and 5 elements.
  lemma CopyOverlaps()
    ensures !CopyDefined([1, 5], 1)
  {
    assert Disp([1, 5], 1) == 1;
    CopyDefinedExactly([1, 5], 1);
  }

  // With equal blocks (allgather) it always is.
  lemma EvenCopyDefined(n: nat, nelems: nat, me: nat)
    requires me < n
    ensures CopyDefined(EvenPlan(n, nelems).counts, me)
  {
    EvenDisp(n, nelems, me);
    if me > 0 { assert me * nelems == (me - 1) * nelems + nelems && (me - 1) * nelems >= 0; }
    CopyDefinedExactly(EvenPlan(n, nelems).counts, me);
  }

  // initBuffers: my own block comes to the front of the result buffer.  The send
  // pointer is element `from` of src: another buffer, my block inside the result
  // buffer, or the result pointer itself; my block is then at my displacement.
  method InitBuffers<E(==)>(dst: array<E>, src: array<E>, from: nat, me: nat, myOffset: nat, count: nat)
    requires count <= dst.Length && from + count <= src.Length
    requires src == dst && from == 0 && me != 0 ==> myOffset + count <= dst.Length
    modifies dst
    ensures dst[..count] == old(var at := if src == dst && from == 0 && me != 0 then myOffset else from; src[at..at + count])
    ensures dst[count..] == old(dst[count..])
  {
    var inPlace := dst == src && from == 0;
    if inPlace {
      if me != 0 {
        forall i | 0 <= i < count { dst[i] := src[myOffset + i]; }
      }
    } else {
      forall i | 0 <= i < count { dst[i] := src[from + i]; }
    }
  }

  // finalize: rotation through a temporary copy.
  method Finalize<E(==)>(result: array<E>, me: nat, myOffset: nat, totalNelems: nat)
    requires myOffset <= totalNelems <= result.Length && (me == 0 ==> myOffset == 0)
    modifies result
    ensures forall i :: 0 <= i < result.Length ==> 0 <= From(myOffset, totalNelems, i) < result.Length
    ensures forall i :: 0 <= i < result.Length ==> result[i] == old(result[From(myOffset, totalNelems, i)])
  {
    if me == 0 { return; }
    var tmp := result[..totalNelems];
    forall i | 0 <= i < totalNelems - myOffset { result[myOffset + i] := tmp[i]; }
    forall i | 0 <= i < myOffset { result[i] := tmp[totalNelems - myOffset + i]; }
  }
}
