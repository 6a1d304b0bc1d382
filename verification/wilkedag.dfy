// The loops that build the DAGs of allreduce and reduce (initDag), against the
// schedule of module Wilke.
module WilkeDag {
  import opened Actions
  import opened Protocol
  import opened Bookkeeping
  import opened DagBuilding
  import opened Engine
  import opened Powers
  import opened VirtualRanks
  import opened Halving
  import opened Wilke
  import opened WilkeProof

  // ---------- how far the DAG of rank r is built ----------

  predicate Less(v': nat, s': nat, v: nat, s: nat) { v' < v || (v' == v && s' < s) }

  // Entered are the steps of r's roles before (v, s), and nothing else but a join.
  ghost predicate Stage(p: Plan, r: nat, acts: map<Key, Action>, pre: map<Key, set<Key>>, v: nat, s: nat)
    requires Ok(p)
  {
    && (forall k :: k in acts && k != JOIN ==> Entry(p, r, acts, pre, k) && Less(RoleOf(p, r, k.round), StepOf(p, k.round), v, s))
    && (forall w, t, b {:trigger StepKey(p, w, t, b)} ::
          Performs(p, w, t) && Real(p.n, w) == r && Less(w, t, v, s) ==> StepKey(p, w, t, b) in acts)
    && acts.Keys == pre.Keys
  }

  ghost predicate Entry(p: Plan, r: nat, acts: map<Key, Action>, pre: map<Key, set<Key>>, k: Key)
    requires Ok(p) && k in acts
  {
    IsStep(p, r, k) && acts[k] == ActionOf(p, r, k) && k in pre && pre[k] == PreOf(p, r, k)
  }

  // What has been entered for the join.
  ghost function JoinState(acts: map<Key, Action>, pre: map<Key, set<Key>>): (Option<Action>, Option<set<Key>>) {
    (if JOIN in acts then Some(acts[JOIN]) else None, if JOIN in pre then Some(pre[JOIN]) else None)
  }

  lemma StepEntered(p: Plan, r: nat, acts: map<Key, Action>, pre: map<Key, set<Key>>, v: nat, s: nat,
                    acts': map<Key, Action>, pre': map<Key, set<Key>>)
    requires Ok(p) && Stage(p, r, acts, pre, v, s) && Performs(p, v, s) && Real(p.n, v) == r
    requires var sk, rk, ds := StepKey(p, v, s, true), StepKey(p, v, s, false), if s > 0 then StepPair(p, v, s - 1) else {};
             && acts' == acts[sk := StepAction(p, v, s, true)][rk := StepAction(p, v, s, false)]
             && pre' == pre[sk := ds][rk := ds]
    ensures Stage(p, r, acts', pre', v, s + 1) && JoinState(acts', pre') == JoinState(acts, pre)
  {
    var sk, rk := StepKey(p, v, s, true), StepKey(p, v, s, false);
    StepIsStep(p, v, s, true);
    StepIsStep(p, v, s, false);
    forall k | k in acts' && k != JOIN
      ensures Entry(p, r, acts', pre', k) && Less(RoleOf(p, r, k.round), StepOf(p, k.round), v, s + 1)
    {
      if k != sk && k != rk { assert Entry(p, r, acts, pre, k); }
    }
    forall w, t, b | Performs(p, w, t) && Real(p.n, w) == r && Less(w, t, v, s + 1) ensures StepKey(p, w, t, b) in acts' {
      if !Less(w, t, v, s) { assert w == v && t == s; }
    }
  }

  // The steps of v before s have been performed up to `last` (-1: none).
  ghost predicate Last(p: Plan, v: nat, s: nat, last: int, ps: Option<Key>, pr: Option<Key>)
    requires Ok(p)
  {
    && -1 <= last < s && (forall t: nat :: last < t < s ==> !Performs(p, v, t))
    && (if last < 0 then ps == pr == None
        else Performs(p, v, last) && ps == Some(StepKey(p, v, last, true)) && pr == Some(StepKey(p, v, last, false)))
  }

  lemma LastIsPre(p: Plan, v: nat, s: nat, last: int, ps: Option<Key>, pr: Option<Key>)
    requires Ok(p) && Last(p, v, s, last, ps, pr) && Performs(p, v, s)
    ensures Prevs(ps, pr) == if s > 0 then StepPair(p, v, s - 1) else {}
  {
    if 0 <= last < s - 1 { NoGap(p, v, last, s - 1, s); }
  }

  // Role v is entered up to step s; the join is as it was (js).
  ghost predicate Upto(p: Plan, r: nat, acts: map<Key, Action>, pre: map<Key, set<Key>>, js: (Option<Action>, Option<set<Key>>),
                       v: nat, s: nat, last: int, ps: Option<Key>, pr: Option<Key>)
    requires Ok(p)
  {
    Stage(p, r, acts, pre, v, s) && JoinState(acts, pre) == js && Last(p, v, s, last, ps, pr)
  }

  // Entering one step: a send and a receive, each after the previous two.
  method AddStep<E(==,!new)>(actor: DagCollectiveActor<E>, p: Plan, r: nat, v: nat, s: nat, send: Action, recv: Action,
                             prevSend: Option<Key>, prevRecv: Option<Key>, ghost last: int,
                             ghost js: (Option<Action>, Option<set<Key>>))
    requires actor.Building() && Ok(p) && Performs(p, v, s) && Real(p.n, v) == r
    requires send == StepAction(p, v, s, true) && recv == StepAction(p, v, s, false)
    requires Upto(p, r, actor.acts, actor.pre, js, v, s, last, prevSend, prevRecv)
    modifies actor`acts, actor`book, actor`pre
    ensures actor.Building() && Upto(p, r, actor.acts, actor.pre, js, v, s + 1, s, Some(send.Id()), Some(recv.Id()))
  {
    hide Performs, IsStep, StepPair, JoinState, PreOf, ActionOf, Stage, StepAction, StepKey, Last, Real, Built;
    NotYet(p, r, actor.acts, actor.pre, v, s);
    AddAfterBoth(actor, prevSend, prevRecv, send);
    AddAfterBoth(actor, prevSend, prevRecv, recv);
    LastIsPre(p, v, s, last, prevSend, prevRecv);
    StepEntered(p, r, old(actor.acts), old(actor.pre), v, s, actor.acts, actor.pre);
    LastIsNow(p, v, s);
  }

  lemma LastIsNow(p: Plan, v: nat, s: nat)
    requires Ok(p) && Performs(p, v, s)
    ensures Last(p, v, s + 1, s, Some(StepKey(p, v, s, true)), Some(StepKey(p, v, s, false)))
  {
  }

  lemma NotYet(p: Plan, r: nat, acts: map<Key, Action>, pre: map<Key, set<Key>>, v: nat, s: nat)
    requires Ok(p) && Stage(p, r, acts, pre, v, s) && Performs(p, v, s) && Real(p.n, v) == r
    ensures StepKey(p, v, s, true) != StepKey(p, v, s, false)
    ensures StepKey(p, v, s, true) !in acts && StepKey(p, v, s, true) !in pre && StepKey(p, v, s, false) !in pre
    ensures StepKey(p, v, s, true) !in acts && StepKey(p, v, s, false) !in acts
    ensures StepAction(p, v, s, true).Id() == StepKey(p, v, s, true)
    ensures StepAction(p, v, s, false).Id() == StepKey(p, v, s, false)
  {
    StepIsStep(p, v, s, true);
    StepIsStep(p, v, s, false);
  }

  // Steps that are not performed enter nothing.
  lemma StepsSkipped(p: Plan, r: nat, acts: map<Key, Action>, pre: map<Key, set<Key>>, js: (Option<Action>, Option<set<Key>>),
                     v: nat, s: nat, t: nat, last: int, ps: Option<Key>, pr: Option<Key>)
    requires Ok(p) && Upto(p, r, acts, pre, js, v, s, last, ps, pr)
    requires s <= t && forall u: nat :: s <= u < t ==> !Performs(p, v, u)
    ensures Upto(p, r, acts, pre, js, v, t, last, ps, pr)
  {
    forall w, u, b | Performs(p, w, u) && Real(p.n, w) == r && Less(w, u, v, t) ensures StepKey(p, w, u, b) in acts {
      assert Less(w, u, v, s);
    }
  }

  // ---------- one role ----------

  lemma SplitIs(p: Plan, v: nat, i: nat)
    requires Ok(p) && v < VNproc(p.n) && i < L(p)
    ensures (v / Pow2(i)) % 2 == 0 <==> Low(v, i)
    ensures Partner(p, v, i) == if Low(v, i) then v + Pow2(i) else v - Pow2(i)
    ensures var o, l := Off(v, i, p.nelems), Len(v, i, p.nelems);
            && Sent(p, v, i) == (if Low(v, i) then Span(0, o + l - l / 2, l / 2) else Span(0, o, Up(l)))
            && Received(p, v, i) == (if Low(v, i) then Span(0, o, l - l / 2) else Span(0, o + Up(l), l - Up(l)))
            && Received(p, v, i) == Span(0, Off(v, i + 1, p.nelems), Len(v, i + 1, p.nelems))
  {
    HiIsQuotient(v, i);
    FlipFacts(v, i, L(p));
    KeptSame(v, Flip(v, i), i, p.nelems);
  }

  lemma WholeAtFirst(v: nat, n: nat)
    ensures Off(v, 0, n) == 0 && Len(v, 0, n) == n
  {
  }

  // isSharedRole
  method IsSharedRole(role: nat, numRoles: nat, myRoles: array<nat>) returns (shared: bool)
    requires numRoles <= myRoles.Length
    ensures shared <==> role in myRoles[..numRoles]
  {
    for i := 0 to numRoles
      invariant role !in myRoles[..i]
    {
      if role == myRoles[i] { return true; }
    }
    return false;
  }

  lemma SharedIs(p: Plan, r: nat, v: nat, i: nat)
    requires Ok(p) && r < p.n && v < VNproc(p.n) && Real(p.n, v) == r && i < L(p)
    ensures Partner(p, v, i) in Roles(p.n, r) <==> !Performs(p, v, i)
  {
    RolesPartition(p.n, r, Partner(p, v, i));
    SharedRoles(p.n, v, i);
  }

  // What the round vectors hold after i halving rounds.
  ghost predicate Rounds(p: Plan, v: nat, i: nat, sends: seq<Option<Action>>, recvs: seq<Option<Action>>)
    requires Ok(p) && v < VNproc(p.n)
  {
    && |sends| == |recvs| == L(p)
    && forall j: nat :: j < L(p) ==>
         && sends[j] == (if j < i && Performs(p, v, j) then Some(StepAction(p, v, j, true)) else None)
         && recvs[j] == (if j < i && Performs(p, v, j) then Some(StepAction(p, v, j, false)) else None)
  }

  // The reduce-scatter rounds of role v.
  method HalvingRounds<E(==,!new)>(actor: DagCollectiveActor<E>, p: Plan, numDoublingRounds: nat, r: nat, v: nat,
                                   numRoles: nat, myRoles: array<nat>,
                                   sendRounds: array<Option<Action>>, recvRounds: array<Option<Action>>,
                                   ghost js: (Option<Action>, Option<set<Key>>))
    returns (prevSend: Option<Key>, prevRecv: Option<Key>, ghost last: int)
    requires actor.Building() && Ok(p) && r < p.n && v < VNproc(p.n) && Real(p.n, v) == r && numDoublingRounds == L(p)
    requires Upto(p, r, actor.acts, actor.pre, js, v, 0, -1, None, None) && Rounds(p, v, 0, sendRounds[..], recvRounds[..])
    requires numRoles <= myRoles.Length && myRoles[..numRoles] == Roles(p.n, r) && sendRounds != recvRounds
    modifies actor`acts, actor`book, actor`pre, sendRounds, recvRounds
    ensures actor.Building() && Upto(p, r, actor.acts, actor.pre, js, v, L(p), last, prevSend, prevRecv)
    ensures Rounds(p, v, L(p), sendRounds[..], recvRounds[..])
  {
    hide Performs, Upto, Sent, Received, Off, Len, Real, Hi, Built;
    var n := p.n;
    var myBufferOffset, partnerGap, roundNelems := 0, 1, p.nelems;
    WholeAtFirst(v, p.nelems);
    prevSend, prevRecv, last := None, None, -1;
    for i := 0 to numDoublingRounds
      invariant actor.Building() && Upto(p, r, actor.acts, actor.pre, js, v, i, last, prevSend, prevRecv)
      invariant Rounds(p, v, i, sendRounds[..], recvRounds[..])
      invariant myBufferOffset == Off(v, i, p.nelems) && roundNelems == Len(v, i, p.nelems) && partnerGap == Pow2(i)
    {
      SplitIs(p, v, i);
      SharedIs(p, r, v, i);
      var rnd := if i == 0 || v % 2 == 0 then i else i + 2 * numDoublingRounds;
      var virtualPartner, sendNelems, sendOffset, recvOffset: nat;
      if (v / partnerGap) % 2 == 0 {
        virtualPartner := v + partnerGap;
        sendNelems := roundNelems / 2;
        sendOffset := myBufferOffset + roundNelems - sendNelems;
        recvOffset := myBufferOffset;
      } else {
        virtualPartner := v - partnerGap;
        sendNelems := Up(roundNelems);
        sendOffset := myBufferOffset;
        recvOffset := myBufferOffset + sendNelems;
      }
      var recvNelems := roundNelems - sendNelems;
      var shared := IsSharedRole(virtualPartner, numRoles, myRoles);
      if !shared {
        var partner := Real(n, virtualPartner);
        var send := SendAction(rnd, partner, sendOffset, sendNelems, SendInPlace);
        var recv := RecvAction(rnd, partner, recvOffset, recvNelems, Reduce);
        AddStep(actor, p, r, v, i, send, recv, prevSend, prevRecv, last, js);
        sendRounds[i], recvRounds[i] := Some(send), Some(recv);
        prevSend, prevRecv, last := Some(send.Id()), Some(recv.Id()), i;
      } else {
        StepsSkipped(p, r, actor.acts, actor.pre, js, v, i, i + 1, last, prevSend, prevRecv);
      }
      myBufferOffset := recvOffset;
      partnerGap := partnerGap * 2;
      roundNelems := recvNelems;
    }
  }

  lemma MirrorIs(p: Plan, v: nat, i: nat)
    requires Ok(p) && v < VNproc(p.n) && i < L(p)
    ensures var m, s := L(p) - i - 1, L(p) + i;
            && Digit(p, s) == m && Partner(p, v, s) == Partner(p, v, m)
            && Sent(p, v, s) == Received(p, v, m) && Received(p, v, s) == Sent(p, v, m)
            && (Performs(p, v, s) <==> Performs(p, v, m) && Takes(p, v, s))
  {
  }

  // No step from s on is taken once one is not.
  lemma Leaves(p: Plan, v: nat, s: nat, t: nat)
    requires Ok(p) && L(p) <= s <= t < 2 * L(p) && !Takes(p, v, s)
    ensures !Performs(p, v, t)
  {
    Pow2Grows(2 * L(p) - t, 2 * L(p) - s);
  }

  lemma Halved(p: Plan, i: nat)
    requires Ok(p) && i < L(p)
    ensures Pow2(L(p) - i) / 2 == Pow2(L(p) - (i + 1))
  {
  }

  // One turn of the loop over the mirrored rounds.
  method MirrorTurn<E(==,!new)>(actor: DagCollectiveActor<E>, p: Plan, numDoublingRounds: nat, r: nat, v: nat, i: nat,
                                sendRounds: array<Option<Action>>, recvRounds: array<Option<Action>>,
                                prevSend0: Option<Key>, prevRecv0: Option<Key>, ghost last0: int,
                                ghost js: (Option<Action>, Option<set<Key>>))
    returns (prevSend: Option<Key>, prevRecv: Option<Key>, ghost last: int)
    requires actor.Building() && Ok(p) && v < VNproc(p.n) && Real(p.n, v) == r && numDoublingRounds == L(p) && i < L(p)
    requires Takes(p, v, L(p) + i) && Rounds(p, v, L(p), sendRounds[..], recvRounds[..])
    requires Upto(p, r, actor.acts, actor.pre, js, v, L(p) + i, last0, prevSend0, prevRecv0)
    modifies actor`acts, actor`book, actor`pre
    ensures actor.Building() && Upto(p, r, actor.acts, actor.pre, js, v, L(p) + i + 1, last, prevSend, prevRecv)
  {
    hide Performs, Upto, Sent, Received, Real, Built, Takes, VNproc;
    MirrorIs(p, v, i);
    prevSend, prevRecv, last := prevSend0, prevRecv0, last0;
    var mirrorRound := numDoublingRounds - i - 1;
    var myRound := numDoublingRounds + i;
    if mirrorRound == 0 || v % 2 == 0 {
      // already right
    } else {
      myRound := myRound + 2 * numDoublingRounds;
    }
    if sendRounds[mirrorRound].Some? && recvRounds[mirrorRound].Some? {
      var mirrorSend, mirrorRecv := sendRounds[mirrorRound].value, recvRounds[mirrorRound].value;
      var send := SendAction(myRound, mirrorRecv.partner, mirrorRecv.offset, mirrorRecv.nelems, SendInPlace);
      var recv := RecvAction(myRound, mirrorSend.partner, mirrorSend.offset, mirrorSend.nelems, InPlace);
      AddStep(actor, p, r, v, L(p) + i, send, recv, prevSend, prevRecv, last, js);
      prevSend, prevRecv, last := Some(send.Id()), Some(recv.Id()), L(p) + i;
    } else {
      StepsSkipped(p, r, actor.acts, actor.pre, js, v, L(p) + i, L(p) + i + 1, last, prevSend, prevRecv);
    }
  }

  // The mirrored rounds of role v.
  method MirrorRounds<E(==,!new)>(actor: DagCollectiveActor<E>, p: Plan, numDoublingRounds: nat, virtualNproc: nat, r: nat, v: nat,
                                  sendRounds: array<Option<Action>>, recvRounds: array<Option<Action>>,
                                  prevSend0: Option<Key>, prevRecv0: Option<Key>, ghost last0: int,
                                  ghost js: (Option<Action>, Option<set<Key>>))
    returns (prevSend: Option<Key>, prevRecv: Option<Key>, ghost last: int)
    requires actor.Building() && Ok(p) && r < p.n && v < VNproc(p.n) && Real(p.n, v) == r
    requires numDoublingRounds == L(p) && virtualNproc == VNproc(p.n)
    requires Upto(p, r, actor.acts, actor.pre, js, v, L(p), last0, prevSend0, prevRecv0)
    requires Rounds(p, v, L(p), sendRounds[..], recvRounds[..])
    modifies actor`acts, actor`book, actor`pre
    ensures actor.Building() && Upto(p, r, actor.acts, actor.pre, js, v, 2 * L(p), last, prevSend, prevRecv)
  {
    hide Performs, Upto, Sent, Received, Real, Built;
    prevSend, prevRecv, last := prevSend0, prevRecv0, last0;
    var numHalvingRounds := numDoublingRounds;
    if p.root.Some? && p.root.value != 0 {
      numHalvingRounds := numHalvingRounds - 1;
    }
    var maxActiveRank := virtualNproc;
    var i := 0;
    while i < numHalvingRounds
      invariant i <= numHalvingRounds && maxActiveRank == Pow2(L(p) - i)
      invariant actor.Building() && Upto(p, r, actor.acts, actor.pre, js, v, L(p) + i, last, prevSend, prevRecv)
    {
      if p.root.Some? && v >= maxActiveRank {
        break;
      }
      Halved(p, i);
      prevSend, prevRecv, last :=
        MirrorTurn(actor, p, numDoublingRounds, r, v, i, sendRounds, recvRounds, prevSend, prevRecv, last, js);
      maxActiveRank := maxActiveRank / 2;
      i := i + 1;
    }
    ghost var s := L(p) + i;
    if s < 2 * L(p) {
      forall t: nat | s <= t < 2 * L(p) ensures !Performs(p, v, t) { Leaves(p, v, s, t); }
    }
    StepsSkipped(p, r, actor.acts, actor.pre, js, v, s, 2 * L(p), last, prevSend, prevRecv);
  }

  lemma NoStepAfter(p: Plan, v: nat)
    ensures forall s: nat :: Performs(p, v, s) ==> s < 2 * L(p)
  {
  }

  lemma RoleDone(p: Plan, r: nat, acts: map<Key, Action>, pre: map<Key, set<Key>>, v: nat, last: int, ps: Option<Key>, pr: Option<Key>)
    requires Ok(p) && Stage(p, r, acts, pre, v, 2 * L(p)) && Last(p, v, 2 * L(p), last, ps, pr)
    ensures Stage(p, r, acts, pre, v + 1, 0) && Prevs(ps, pr) == StepPair(p, v, LastStep(p, v))
  {
    hide Performs, Entry, StepKey, IsStep, RoleOf, StepOf;
    var f := (s: nat) => Performs(p, v, s);
    NoStepAfter(p, v);
    if last >= 0 { LastTrueIs(f, last, 2 * L(p) - 1); }
  }

  // One turn of the loop over the roles.
  method AddRole<E(==,!new)>(actor: DagCollectiveActor<E>, p: Plan, numDoublingRounds: nat, virtualNproc: nat, r: nat, v: nat,
                             numRoles: nat, myRoles: array<nat>)
    returns (prevSend: Option<Key>, prevRecv: Option<Key>)
    requires actor.Building() && Ok(p) && r < p.n && v < VNproc(p.n) && Real(p.n, v) == r
    requires numDoublingRounds == L(p) && virtualNproc == VNproc(p.n)
    requires numRoles <= myRoles.Length && myRoles[..numRoles] == Roles(p.n, r)
    requires Stage(p, r, actor.acts, actor.pre, v, 0)
    modifies actor`acts, actor`book, actor`pre
    ensures actor.Building() && Stage(p, r, actor.acts, actor.pre, v + 1, 0)
    ensures JoinState(actor.acts, actor.pre) == old(JoinState(actor.acts, actor.pre))
    ensures Prevs(prevSend, prevRecv) == StepPair(p, v, LastStep(p, v))
  {
    hide Stage, JoinState, StepPair, LastStep, Prevs, Roles, Performs, StepKey, Built;
    var sendRounds := new Option<Action>[numDoublingRounds](_ => None);
    var recvRounds := new Option<Action>[numDoublingRounds](_ => None);
    ghost var last0, last;
    ghost var js := JoinState(actor.acts, actor.pre);
    prevSend, prevRecv, last0 := HalvingRounds(actor, p, numDoublingRounds, r, v, numRoles, myRoles, sendRounds, recvRounds, js);
    prevSend, prevRecv, last :=
      MirrorRounds(actor, p, numDoublingRounds, virtualNproc, r, v, sendRounds, recvRounds, prevSend, prevRecv, last0, js);
    RoleDone(p, r, actor.acts, actor.pre, v, last, prevSend, prevRecv);
  }

  lemma RolesAre(n: nat, r: nat, j: nat)
    requires n >= 2 && r < n && j < |Roles(n, r)|
    ensures var v := Roles(n, r)[j]; v < VNproc(n) && Real(n, v) == r && v == Roles(n, r)[0] + j
  {
    RolesPartition(n, r, Roles(n, r)[j]);
  }

  lemma NothingYet(p: Plan, r: nat)
    requires Ok(p) && r < p.n
    ensures 1 <= |Roles(p.n, r)| <= 2
    ensures Stage(p, r, map[], map[], Roles(p.n, r)[0], 0) && JoinState(map[], map[]) == (None, None)
  {
    forall w, t | Performs(p, w, t) && Real(p.n, w) == r && 0 <= t ensures !Less(w, t, Roles(p.n, r)[0], 0) {
      RolesPartition(p.n, r, w);
    }
  }

  // Once every role is entered, all steps of the rank are.
  lemma AllEntered(p: Plan, r: nat, acts: map<Key, Action>, pre: map<Key, set<Key>>, k: Key)
    requires Ok(p) && r < p.n && Stage(p, r, acts, pre, Roles(p.n, r)[0] + |Roles(p.n, r)|, 0) && k != JOIN
    ensures k in acts <==> IsStep(p, r, k)
    ensures k in acts <==> k in pre
    ensures k in acts ==> acts[k] == ActionOf(p, r, k) && pre[k] == PreOf(p, r, k)
  {
    if IsStep(p, r, k) {
      var v, s := RoleOf(p, r, k.round), StepOf(p, k.round);
      RolesPartition(p.n, r, v);
      assert StepKey(p, v, s, k.kind == Send) == k;
    }
  }

  lemma IsRankDag(p: Plan, r: nat, acts: map<Key, Action>, pre: map<Key, set<Key>>)
    requires Ok(p) && r < p.n
    requires forall k :: k in acts <==> IsKey(p, r, k)
    requires forall k :: k in pre <==> IsKey(p, r, k)
    requires forall k :: IsKey(p, r, k) ==> acts[k] == ActionOf(p, r, k) && pre[k] == PreOf(p, r, k)
    ensures Dag(acts, pre) == RankDag(p, r)
  {
    forall k ensures k in Keys(p, r) <==> IsKey(p, r, k) { KeysAre(p, r, k); }
  }

  // The first j roles are entered, and no join.
  ghost predicate RolesIn(p: Plan, r: nat, acts: map<Key, Action>, pre: map<Key, set<Key>>, j: nat)
    requires Ok(p)
  {
    && j <= |Roles(p.n, r)| && 1 <= |Roles(p.n, r)| <= 2
    && Stage(p, r, acts, pre, Roles(p.n, r)[0] + j, 0) && JoinState(acts, pre) == (None, None)
  }

  lemma NoRoleYet(p: Plan, r: nat)
    requires Ok(p) && r < p.n
    ensures RolesIn(p, r, map[], map[], 0)
  {
    NothingYet(p, r);
  }

  // WilkeAllreduceActor::initDag
  method AllreduceInitDag<E(==,!new)>(actor: DagCollectiveActor<E>, n: nat, nelems: nat)
    requires actor.Building() && actor.acts == map[] && n >= 2 && actor.me < n
    modifies actor`acts, actor`book, actor`pre
    ensures actor.Building() && Dag(actor.acts, actor.pre) == RankDag(Plan(n, nelems, None), actor.me)
  {
    hide RolesIn, Roles, RankDag, Built;
    EmptyPre(actor);
    var p := Plan(n, nelems, None);
    var log2nproc, midpoint, virtualNproc := ComputeTree(n);
    var myRoles := new nat[2];
    var numRoles := RealToVirtual(n, actor.me, myRoles);
    NoRoleYet(p, actor.me);
    for role := 0 to numRoles
      modifies actor`acts, actor`book, actor`pre
      invariant actor.Building() && RolesIn(p, actor.me, actor.acts, actor.pre, role)
    {
      RoleTurn(actor, p, log2nproc, virtualNproc, role, numRoles, myRoles);
    }
    RolesAreAll(p, actor.me, actor.acts, actor.pre);
  }

  // One turn of its loop.
  method RoleTurn<E(==,!new)>(actor: DagCollectiveActor<E>, p: Plan, numDoublingRounds: nat, virtualNproc: nat,
                              role: nat, numRoles: nat, myRoles: array<nat>)
    requires actor.Building() && Ok(p) && actor.me < p.n
    requires numDoublingRounds == L(p) && virtualNproc == VNproc(p.n)
    requires role < numRoles <= myRoles.Length && myRoles[..numRoles] == Roles(p.n, actor.me)
    requires RolesIn(p, actor.me, actor.acts, actor.pre, role)
    modifies actor`acts, actor`book, actor`pre
    ensures actor.Building() && RolesIn(p, actor.me, actor.acts, actor.pre, role + 1)
  {
    hide Stage, Roles, StepPair, LastStep, Prevs, Built, JoinState;
    RolesAre(p.n, actor.me, role);
    assert myRoles[..numRoles][role] == myRoles[role];
    var prevSend, prevRecv := AddRole(actor, p, numDoublingRounds, virtualNproc, actor.me, myRoles[role], numRoles, myRoles);
  }

  lemma RolesAreAll(p: Plan, r: nat, acts: map<Key, Action>, pre: map<Key, set<Key>>)
    requires Ok(p) && r < p.n && p.root.None? && RolesIn(p, r, acts, pre, |Roles(p.n, r)|)
    ensures Dag(acts, pre) == RankDag(p, r)
  {
    hide Stage, IsStep, ActionOf, PreOf, RankDag, Roles;
    forall k | k != JOIN ensures k in acts <==> IsStep(p, r, k)
      ensures k in acts <==> k in pre
      ensures k in acts ==> acts[k] == ActionOf(p, r, k) && pre[k] == PreOf(p, r, k)
    {
      AllEntered(p, r, acts, pre, k);
    }
    JoinIsNoStep(p, r);
    IsRankDag(p, r, acts, pre);
  }

  lemma JoinIsNoStep(p: Plan, r: nat)
    requires Ok(p)
    ensures !IsStep(p, r, JOIN) && !IsHandOff(p, r, JOIN)
  {
  }

  // ---------- reduce ----------

  // The join has been told to wait for the first j roles of r.
  ghost predicate Joined(p: Plan, r: nat, acts: map<Key, Action>, pre: map<Key, set<Key>>, j: nat)
    requires Ok(p) && j <= |Roles(p.n, r)| <= 2
  {
    JoinState(acts, pre) ==
    if j == 0 then (None, None)
    else (Some(JoinAction(0, 0)),
          Some(if j == 1 then StepPair(p, Roles(p.n, r)[0], LastStep(p, Roles(p.n, r)[0]))
               else StepPair(p, Roles(p.n, r)[0], LastStep(p, Roles(p.n, r)[0]))
                    + StepPair(p, Roles(p.n, r)[1], LastStep(p, Roles(p.n, r)[1]))))
  }

  lemma JoinAdded(p: Plan, r: nat, acts: map<Key, Action>, pre: map<Key, set<Key>>, j: nat, v: nat,
                  acts': map<Key, Action>, pre': map<Key, set<Key>>)
    requires Ok(p) && j < |Roles(p.n, r)| <= 2 && Joined(p, r, acts, pre, j) && Stage(p, r, acts, pre, v, 0)
    requires acts' == acts[JOIN := JoinAction(0, 0)]
    requires var last := StepPair(p, Roles(p.n, r)[j], LastStep(p, Roles(p.n, r)[j]));
             pre' == pre[JOIN := if JOIN in pre then pre[JOIN] + last else last]
    ensures Joined(p, r, acts', pre', j + 1) && Stage(p, r, acts', pre', v, 0)
  {
    hide IsStep, StepPair, LastStep, ActionOf, PreOf, Performs;
    forall k | k in acts' && k != JOIN
      ensures Entry(p, r, acts', pre', k) && Less(RoleOf(p, r, k.round), StepOf(p, k.round), v, 0)
    {
      assert Entry(p, r, acts, pre, k);
    }
  }

  ghost predicate Entered(p: Plan, r: nat, acts: map<Key, Action>, pre: map<Key, set<Key>>, j: nat)
    requires Ok(p)
  {
    && j <= |Roles(p.n, r)| && 1 <= |Roles(p.n, r)| <= 2
    && Stage(p, r, acts, pre, Roles(p.n, r)[0] + j, 0) && Joined(p, r, acts, pre, j)
  }

  // The loop over the roles, with the join.
  method JoinRoles<E(==,!new)>(actor: DagCollectiveActor<E>, p: Plan)
    requires actor.Building() && actor.acts == map[] && Ok(p) && actor.me < p.n
    modifies actor`acts, actor`book, actor`pre
    ensures actor.Building() && Entered(p, actor.me, actor.acts, actor.pre, |Roles(p.n, actor.me)|)
  {
    assert actor.pre == map[];
    hide Entered, Roles, Built;
    var log2nproc, midpoint, virtualNproc := ComputeTree(p.n);
    var myRoles := new nat[2];
    var numRoles := RealToVirtual(p.n, actor.me, myRoles);
    NotJoined(p, actor.me);
    for role := 0 to numRoles
      modifies actor`acts, actor`book, actor`pre
      invariant actor.Building() && Entered(p, actor.me, actor.acts, actor.pre, role)
    {
      JoinRole(actor, p, log2nproc, virtualNproc, role, numRoles, myRoles);
    }
  }

  // One turn of that loop.
  method JoinRole<E(==,!new)>(actor: DagCollectiveActor<E>, p: Plan, numDoublingRounds: nat, virtualNproc: nat,
                              role: nat, numRoles: nat, myRoles: array<nat>)
    requires actor.Building() && Ok(p) && actor.me < p.n
    requires numDoublingRounds == L(p) && virtualNproc == VNproc(p.n)
    requires role < numRoles <= myRoles.Length && myRoles[..numRoles] == Roles(p.n, actor.me)
    requires Entered(p, actor.me, actor.acts, actor.pre, role)
    modifies actor`acts, actor`book, actor`pre
    ensures actor.Building() && Entered(p, actor.me, actor.acts, actor.pre, role + 1)
  {
    hide Stage, Roles, StepPair, LastStep, IsStep, ActionOf, PreOf, Prevs, Joined, JoinState, Built;
    var r := actor.me;
    RolesAre(p.n, r, role);
    assert myRoles[..numRoles][role] == myRoles[role];
    ghost var acts0, pre0 := actor.acts, actor.pre;
    var prevSend, prevRecv := AddRole(actor, p, numDoublingRounds, virtualNproc, r, myRoles[role], numRoles, myRoles);
    SameJoined(p, r, acts0, pre0, actor.acts, actor.pre, role);
    ghost var acts1, pre1 := actor.acts, actor.pre;
    AddAfterBoth(actor, prevSend, prevRecv, JoinAction(0, 0));
    JoinAdded(p, r, acts1, pre1, role, myRoles[role] + 1, actor.acts, actor.pre);
  }

  lemma NotJoined(p: Plan, r: nat)
    requires Ok(p) && r < p.n
    ensures Entered(p, r, map[], map[], 0)
  {
    NothingYet(p, r);
  }

  lemma SameJoined(p: Plan, r: nat, acts: map<Key, Action>, pre: map<Key, set<Key>>,
                   acts': map<Key, Action>, pre': map<Key, set<Key>>, j: nat)
    requires Ok(p) && j <= |Roles(p.n, r)| <= 2 && Joined(p, r, acts, pre, j) && JoinState(acts', pre') == JoinState(acts, pre)
    ensures Joined(p, r, acts', pre', j)
  {
  }

  // addDependency(final_join, ac)
  method AddLast<E(==,!new)>(actor: DagCollectiveActor<E>, ac: Action)
    requires actor.Building() && ac.Id() !in actor.pre
    modifies actor`acts, actor`book, actor`pre
    ensures actor.Building() && actor.acts == old(actor.acts)[ac.Id() := ac] && actor.pre == old(actor.pre)[ac.Id() := {JOIN}]
  {
    actor.AddDependency(Some(JOIN), ac);
    assert {} + {JOIN} == {JOIN};
  }

  // The messages that take the result from ranks 0 and 1 to another root.
  method AddHandOff<E(==,!new)>(actor: DagCollectiveActor<E>, p: Plan, numDoublingRounds: nat)
    requires actor.Building() && Ok(p) && p.root.Some? && p.root.value != 0 && numDoublingRounds == L(p)
    requires forall k :: k in actor.pre ==> k.round != LastRound(p)
    modifies actor`acts, actor`book, actor`pre
    ensures actor.Building()
    ensures forall k :: k in actor.acts <==> k in old(actor.acts) || IsHandOff(p, actor.me, k)
    ensures forall k :: k in actor.pre <==> k in old(actor.pre) || IsHandOff(p, actor.me, k)
    ensures forall k :: k in old(actor.acts) && !IsHandOff(p, actor.me, k) ==> actor.acts[k] == old(actor.acts)[k]
    ensures forall k :: k in old(actor.pre) ==> actor.pre[k] == old(actor.pre)[k]
    ensures forall k :: IsHandOff(p, actor.me, k) ==> actor.acts[k] == ActionOf(p, actor.me, k) && actor.pre[k] == {JOIN}
  {
    hide Built;
    var round := 4 * numDoublingRounds - 1;
    var nelemsSplit := Up(p.nelems);
    var root := p.root.value;
    if actor.me == 0 {
      AddLast(actor, SendAction(round, root, 0, nelemsSplit, SendInPlace));
    }
    if actor.me == 1 && root != actor.me {
      AddLast(actor, SendAction(round, root, nelemsSplit, p.nelems - nelemsSplit, SendInPlace));
    }
    if actor.me == root {
      AddLast(actor, RecvAction(round, 0, 0, nelemsSplit, InPlace));
    }
    if actor.me == root && root != 1 {
      AddLast(actor, RecvAction(round, 1, nelemsSplit, p.nelems - nelemsSplit, InPlace));
    }
  }

  // WilkeReduceActor::initDag
  method ReduceInitDag<E(==,!new)>(actor: DagCollectiveActor<E>, n: nat, nelems: nat, root: nat)
    requires actor.Building() && actor.acts == map[] && n >= 2 && actor.me < n && root < n
    modifies actor`acts, actor`book, actor`pre
    ensures actor.Building() && Dag(actor.acts, actor.pre) == RankDag(Plan(n, nelems, Some(root)), actor.me)
  {
    hide Stage, StepPair, LastStep, IsStep, PreOf, ActionOf, RankDag, IsHandOff, Entered, Built;
    var p := Plan(n, nelems, Some(root));
    JoinRoles(actor, p);
    StepsAndJoin(p, actor.me, actor.acts, actor.pre);
    ghost var acts, pre := actor.acts, actor.pre;
    if root != 0 {
      AddHandOff(actor, p, Log2Up(n));
    } else {
      NoHandOffs(p, actor.me);
    }
    ReduceComplete(p, actor.me, acts, pre, actor.acts, actor.pre);
  }

  lemma NoHandOffs(p: Plan, r: nat)
    requires p.root == Some(0)
    ensures forall k :: !IsHandOff(p, r, k)
  {
  }

  lemma StepsAndJoin(p: Plan, r: nat, acts: map<Key, Action>, pre: map<Key, set<Key>>)
    requires Ok(p) && r < p.n && Entered(p, r, acts, pre, |Roles(p.n, r)|)
    ensures forall k :: k in acts <==> IsStep(p, r, k) || k == JOIN
    ensures forall k :: k in pre <==> IsStep(p, r, k) || k == JOIN
    ensures forall k :: k in pre ==> k.round != LastRound(p) && !IsHandOff(p, r, k)
    ensures forall k :: IsStep(p, r, k) ==> acts[k] == ActionOf(p, r, k) && pre[k] == PreOf(p, r, k)
    ensures acts[JOIN] == JoinAction(0, 0) && pre[JOIN] == JoinPre(p, r)
  {
    hide IsStep, StepPair, LastStep, ActionOf, PreOf, Stage, IsHandOff;
    forall k ensures k in acts <==> IsStep(p, r, k) || k == JOIN
      ensures k in pre <==> IsStep(p, r, k) || k == JOIN
      ensures k in pre ==> k.round != LastRound(p) && !IsHandOff(p, r, k)
      ensures IsStep(p, r, k) ==> acts[k] == ActionOf(p, r, k) && pre[k] == PreOf(p, r, k)
    {
      OneEntered(p, r, acts, pre, k);
    }
  }

  lemma OneEntered(p: Plan, r: nat, acts: map<Key, Action>, pre: map<Key, set<Key>>, k: Key)
    requires Ok(p) && r < p.n && Stage(p, r, acts, pre, Roles(p.n, r)[0] + |Roles(p.n, r)|, 0) && JOIN in acts && JOIN in pre
    ensures k in acts <==> IsStep(p, r, k) || k == JOIN
    ensures k in pre <==> IsStep(p, r, k) || k == JOIN
    ensures k in pre ==> k.round != LastRound(p) && !IsHandOff(p, r, k)
    ensures IsStep(p, r, k) ==> acts[k] == ActionOf(p, r, k) && pre[k] == PreOf(p, r, k)
  {
    JoinIsNoStep(p, r);
    if k != JOIN { AllEntered(p, r, acts, pre, k); }
    if k.round == LastRound(p) { NoStepInLastRound(p, r, k); }
  }

  lemma ReduceComplete(p: Plan, r: nat, acts: map<Key, Action>, pre: map<Key, set<Key>>,
                       acts': map<Key, Action>, pre': map<Key, set<Key>>)
    requires Ok(p) && r < p.n && p.root.Some?
    requires forall k :: k in acts <==> IsStep(p, r, k) || k == JOIN
    requires forall k :: k in pre <==> IsStep(p, r, k) || k == JOIN
    requires forall k :: k in pre ==> !IsHandOff(p, r, k)
    requires forall k :: IsStep(p, r, k) ==> acts[k] == ActionOf(p, r, k) && pre[k] == PreOf(p, r, k)
    requires acts[JOIN] == JoinAction(0, 0) && pre[JOIN] == JoinPre(p, r)
    requires forall k :: k in acts' <==> k in acts || IsHandOff(p, r, k)
    requires forall k :: k in pre' <==> k in pre || IsHandOff(p, r, k)
    requires forall k :: k in acts ==> acts'[k] == acts[k]
    requires forall k :: k in pre ==> pre'[k] == pre[k]
    requires forall k :: IsHandOff(p, r, k) ==> acts'[k] == ActionOf(p, r, k) && pre'[k] == {JOIN}
    ensures Dag(acts', pre') == RankDag(p, r)
  {
    hide IsStep, JoinPre;
    forall k | IsHandOff(p, r, k) ensures PreOf(p, r, k) == {JOIN} { HandOffIs(p, r, k); }
    IsRankDag(p, r, acts', pre');
  }

  // ---------- buffers ----------

  // WilkeAllreduceActor::initBuffers: unless in place, the contribution is copied
  // to the result buffer, which sends are made from; data is received into a
  // workspace, whatever that holds at first.
  method AllreduceInitBuffers<E>(dst: array<E>, src: array<E>, nelems: nat, blank: nat -> E) returns (recvBuffer: array<E>)
    requires dst.Length == src.Length == nelems
    modifies dst
    ensures dst[..] == old(src[..]) && fresh(recvBuffer) && recvBuffer.Length == nelems
  {
    if src != dst {
      forall i | 0 <= i < nelems { dst[i] := src[i]; }
    }
    recvBuffer := new E[nelems](blank);
  }

  // WilkeReduceActor::initBuffers: only the root has been given a result buffer.
  method ReduceInitBuffers<E>(me: nat, root: nat, dst: array<E>, src: array<E>, nelems: nat, blank: nat -> E)
    returns (resultBuffer: array<E>, recvBuffer: array<E>)
    requires src.Length == nelems && (me == root ==> dst.Length == nelems)
    modifies if me == root then {dst} else {}
    ensures resultBuffer[..] == old(src[..]) && fresh(recvBuffer) && recvBuffer.Length == nelems
    ensures if me == root then resultBuffer == dst else fresh(resultBuffer)
  {
    resultBuffer := dst;
    if me != root {
      resultBuffer := new E[nelems](blank);
    }
    recvBuffer := new E[nelems](blank);
    forall i | 0 <= i < nelems { resultBuffer[i] := src[i]; }
  }
}
