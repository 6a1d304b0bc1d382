// The code around the all-to-all schedule: initDag, shuffle, initBuffers and
// finalize.
module AlltoallDag {
  import opened Actions
  import opened Protocol
  import opened Bookkeeping
  import opened DagBuilding
  import opened Engine
  import opened Powers
  import opened Ring
  import opened BruckDag
  import opened Alltoall
  import opened AlltoallProof

  // ---------- the blocks of a round, in closed form ----------

  lemma DigitIs(s: nat, h: nat, i: nat)
    requires i < Pow2(s)
    ensures h * Pow2(s) + i >= 0 && Hi(h * Pow2(s) + i, s) == h
  {
    HiIsQuotient(h * Pow2(s) + i, s);
    QuotientIs(h * Pow2(s) + i, Pow2(s), h);
  }

  // Where the q-th interval of round s starts, in the slots and packed.
  function Slot(s: nat, q: nat): nat { q * (2 * Pow2(s)) }

  function Place(s: nat, q: nat): nat { q * Pow2(s) }

  lemma Intervals(s: nat, q: nat)
    ensures Slot(s, q) == (2 * q) * Pow2(s) && Slot(s, q) + Pow2(s) == (2 * q + 1) * Pow2(s)
    ensures Slot(s, q + 1) == Slot(s, q) + 2 * Pow2(s) && Place(s, q + 1) == Place(s, q) + Pow2(s)
    ensures Slot(s, 0) == 0 == Place(s, 0)
  {
    var g := Pow2(s);
    assert q * (2 * g) == (2 * q) * g;
    assert (2 * q) * g + g == (2 * q + 1) * g;
    assert (q + 1) * (2 * g) == q * (2 * g) + 2 * g;
    assert (q + 1) * g == q * g + g;
  }

  lemma MovesIs(s: nat, q: nat, x: nat)
    requires x < 2 * Pow2(s)
    ensures Moves(s, Slot(s, q) + x) <==> x >= Pow2(s)
  {
    hide Slot;
    Intervals(s, q);
    if x < Pow2(s) { DigitIs(s, 2 * q, x); } else { DigitIs(s, 2 * q + 1, x - Pow2(s)); }
  }

  // In each interval of 2^(s+1) slots the upper half moves.
  lemma {:induction false} PackedIs(s: nat, q: nat, x: nat)
    requires x <= 2 * Pow2(s)
    ensures Packed(s, Slot(s, q) + x) == Place(s, q) + (if x <= Pow2(s) then 0 else x - Pow2(s))
    decreases q, x
  {
    hide Slot, Place, Moves;
    Intervals(s, q);
    if x > 0 {
      PackedIs(s, q, x - 1);
      MovesIs(s, q, x - 1);
    } else if q > 0 {
      Intervals(s, q - 1);
      PackedIs(s, q - 1, 2 * Pow2(s));
    }
  }

  // numSendBlocks as initDag computes it.
  lemma ClosedForm(n: nat, s: nat)
    requires Pow2(s) < n
    ensures var g := Pow2(s); var w := n - g;
            Packed(s, n) == w / (2 * g) * g + (if g <= w % (2 * g) then g else w % (2 * g))
  {
    var g := Pow2(s);
    var w := n - g;
    var q, rem := w / (2 * g), w % (2 * g);
    SplitIs(w, 2 * g);
    assert n == Slot(s, q) + (g + rem) && Place(s, q) == q * g;
    Intervals(s, q);
    hide Slot, Place;
    if rem <= g {
      PackedIs(s, q, g + rem);
    } else {
      PackedIs(s, q + 1, rem - g);
    }
  }

  lemma SplitIs(w: nat, d: nat)
    requires d > 0
    ensures w == w / d * d + w % d && 0 <= w % d < d && w / d >= 0
  {
  }

  // Half of all slots move, so the workspaces of `midpoint` blocks suffice.
  lemma FitsWorkspace(p: Plan, s: nat)
    requires Ok(p) && s < Rounds(p)
    ensures NumSendBlocks(p, s) <= Pow2(Rounds(p) - 1)
  {
    var h := Rounds(p) - 1 - s;
    Pow2Sum(h, s);
    Pow2Sum(h, s + 1);
    PackedIs(s, Pow2(h), 0);
    PackedGrows(s, p.n, Pow2(Rounds(p)));
  }

  // ---------- initDag ----------

  ghost predicate Stage(p: Plan, r: nat, acts: map<Key, Action>, pre: map<Key, set<Key>>, s: nat)
    requires Ok(p) && r < p.n
  {
    && s <= Rounds(p) && acts.Keys == pre.Keys
    && (forall k :: k in acts <==> IsKey(p, r, k) && k.round < s)
    && (forall k :: k in acts ==> acts[k] == ActionOf(p, r, k) && pre[k] == PreOf(p, r, k))
  }

  lemma RoundKeys(p: Plan, r: nat, s: nat)
    requires Ok(p) && r < p.n && s < Rounds(p)
    ensures var a, b, c, d := ShuffleKey(s, IN), CommKey(p, r, s, true), CommKey(p, r, s, false), ShuffleKey(s, OUT);
            && IsKey(p, r, a) && IsKey(p, r, b) && IsKey(p, r, c) && IsKey(p, r, d)
            && a.round == b.round == c.round == d.round == s
            && a != b && a != c && a != d && b != c && b != d && c != d
            && (forall k :: IsKey(p, r, k) && k.round == s ==> k == a || k == b || k == c || k == d)
            && ActionOf(p, r, a) == ShuffleAction(s, IN, Pow2(s), Size(p, s))
            && ActionOf(p, r, b) == SendAction(s, b.partner, 0, Size(p, s), TempSend)
            && ActionOf(p, r, c) == RecvAction(s, c.partner, 0, Size(p, s), PackedTemp)
            && ActionOf(p, r, d) == ShuffleAction(s, OUT, Pow2(s), Size(p, s))
            && PreOf(p, r, a) == (if s > 0 then {ShuffleKey(s - 1, OUT)} else {})
            && PreOf(p, r, b) == {a} && PreOf(p, r, c) == {a} && PreOf(p, r, d) == {b, c}
  {
  }

  lemma RoundEntered(p: Plan, r: nat, acts: map<Key, Action>, pre: map<Key, set<Key>>, s: nat,
                     acts': map<Key, Action>, pre': map<Key, set<Key>>)
    requires Ok(p) && r < p.n && s < Rounds(p) && Stage(p, r, acts, pre, s)
    requires var a, b, c, d := ShuffleKey(s, IN), CommKey(p, r, s, true), CommKey(p, r, s, false), ShuffleKey(s, OUT);
             && IsKey(p, r, a) && IsKey(p, r, b) && IsKey(p, r, c) && IsKey(p, r, d)
             && acts' == acts[a := ActionOf(p, r, a)][b := ActionOf(p, r, b)][c := ActionOf(p, r, c)][d := ActionOf(p, r, d)]
             && pre' == pre[a := PreOf(p, r, a)][b := PreOf(p, r, b)][c := PreOf(p, r, c)][d := PreOf(p, r, d)]
    ensures Stage(p, r, acts', pre', s + 1)
  {
    hide IsKey, ActionOf, PreOf, CommKey, ShuffleKey;
    RoundKeys(p, r, s);
  }

  lemma NotYet(p: Plan, r: nat, acts: map<Key, Action>, pre: map<Key, set<Key>>, s: nat)
    requires Ok(p) && r < p.n && s < Rounds(p) && Stage(p, r, acts, pre, s)
    ensures forall k :: IsKey(p, r, k) && k.round == s ==> k !in pre
    ensures ShuffleKey(s, IN) !in pre && ShuffleKey(s, OUT) !in pre
    ensures CommKey(p, r, s, true) !in pre && CommKey(p, r, s, false) !in pre
  {
    RoundKeys(p, r, s);
  }

  lemma RoundIs(p: Plan, r: nat, s: nat)
    requires Ok(p) && r < p.n && s < Rounds(p)
    ensures 0 < Pow2(s) < p.n
    ensures CommKey(p, r, s, true) == Key(Send, s, Wrap(r + Pow2(s), p.n))
    ensures CommKey(p, r, s, false) == Key(Recv, s, Wrap(r - Pow2(s) + p.n, p.n))
  {
    RingIs(p.n, r, Gap(p, s));
  }

  // numSendBlocks
  method CountBlocks(p: Plan, s: nat, partnerGap: nat) returns (numSendBlocks: nat)
    requires Ok(p) && s < Rounds(p) && partnerGap == Pow2(s) < p.n
    ensures numSendBlocks == NumSendBlocks(p, s)
  {
    ClosedForm(p.n, s);
    SplitIs(p.n - partnerGap, 2 * partnerGap);
    var intervalSendSize := partnerGap;
    var bruckIntervalSize := partnerGap * 2;
    var sendWindowSize := p.n - partnerGap;
    var numBruckIntervals := sendWindowSize / bruckIntervalSize;
    numSendBlocks := numBruckIntervals * intervalSendSize;
    var remainder := sendWindowSize % bruckIntervalSize;
    var extraSendBlocks := if intervalSendSize <= remainder then intervalSendSize else remainder;
    numSendBlocks := numSendBlocks + extraSendBlocks;
  }

  // One turn of initDag's loop.
  method AddRound<E(==,!new)>(actor: DagCollectiveActor<E>, p: Plan, round: nat, partnerGap: nat, prevShuffle: Option<Key>)
    requires actor.Building() && Ok(p) && actor.me < p.n && round < Rounds(p) && Stage(p, actor.me, actor.acts, actor.pre, round)
    requires partnerGap == Pow2(round) && prevShuffle == if round > 0 then Some(ShuffleKey(round - 1, OUT)) else None
    modifies actor`acts, actor`book, actor`pre
    ensures actor.Building() && Stage(p, actor.me, actor.acts, actor.pre, round + 1)
  {
    hide Stage, IsKey, ActionOf, PreOf, CommKey, Wrap, Packed, Pow2, Built, Rounds, Prevs, ShuffleKey;
    ShuffleIds(round, partnerGap);
    PrevsAre(prevShuffle, ShuffleKey(round, IN), ShuffleKey(round, IN));
    PrevsAre(prevShuffle, CommKey(p, actor.me, round, true), CommKey(p, actor.me, round, false));
    RoundIs(p, actor.me, round);
    RoundKeys(p, actor.me, round);
    NotYet(p, actor.me, actor.acts, actor.pre, round);
    var upPartner := Wrap(actor.me + partnerGap, p.n);
    var downPartner := Wrap(actor.me - partnerGap + p.n, p.n);
    var numSendBlocks := CountBlocks(p, round, partnerGap);
    var nelemsRound := numSendBlocks * p.nelems;
    var sendShuffle := ShuffleAction(round, IN, partnerGap, nelemsRound);
    var recvShuffle := ShuffleAction(round, OUT, partnerGap, nelemsRound);
    var send := SendAction(round, upPartner, 0, nelemsRound, TempSend);
    var recv := RecvAction(round, downPartner, 0, nelemsRound, PackedTemp);
    AddAfterBoth(actor, prevShuffle, prevShuffle, sendShuffle);
    AddAfter(actor, Some(sendShuffle.Id()), send);
    AddAfter(actor, Some(sendShuffle.Id()), recv);
    AddAfterBoth(actor, Some(send.Id()), Some(recv.Id()), recvShuffle);
    RoundEntered(p, actor.me, old(actor.acts), old(actor.pre), round, actor.acts, actor.pre);
  }

  lemma ShuffleIds(s: nat, g: nat)
    ensures forall m :: ShuffleAction(s, IN, g, m).Id() == ShuffleKey(s, IN) && ShuffleAction(s, OUT, g, m).Id() == ShuffleKey(s, OUT)
  {
  }

  lemma NothingYet(p: Plan, r: nat)
    requires Ok(p) && r < p.n
    ensures Stage(p, r, map[], map[], 0)
  {
  }

  lemma IsRankDag(p: Plan, r: nat, acts: map<Key, Action>, pre: map<Key, set<Key>>)
    requires Ok(p) && r < p.n && Stage(p, r, acts, pre, Rounds(p))
    ensures Dag(acts, pre) == RankDag(p, r)
  {
    hide ActionOf, PreOf, IsKey;
    forall k ensures k in Keys(p, r) <==> IsKey(p, r, k)
      ensures IsKey(p, r, k) ==> k.round < Rounds(p)
    {
      if IsKey(p, r, k) { KeyIs(p, r, k); }
    }
  }

  lemma RoundsIs(p: Plan)
    requires Ok(p)
    ensures p.n >= 2 && Rounds(p) == Log2Up(p.n) && Pow2(0) == 1 && forall i: nat :: Pow2(i + 1) == 2 * Pow2(i)
  {
  }

  // BruckAlltoallActor::initDag
  method AlltoallInitDag<E(==,!new)>(actor: DagCollectiveActor<E>, p: Plan)
    requires actor.Building() && actor.acts == map[] && Ok(p) && actor.me < p.n
    modifies actor`acts, actor`book, actor`pre
    ensures actor.Building() && Dag(actor.acts, actor.pre) == RankDag(p, actor.me)
  {
    hide *;
    RoundsIs(p);
    EmptyPre(actor);
    var log2nproc, midpoint, numRounds, nprocsExtraRound := BruckTree(p.n);
    var partnerGap := 1;
    var prevShuffle: Option<Key> := None;
    if nprocsExtraRound > 0 { numRounds := numRounds + 1; }
    NothingYet(p, actor.me);
    for round := 0 to numRounds
      modifies actor`acts, actor`book, actor`pre
      invariant actor.Building() && Stage(p, actor.me, actor.acts, actor.pre, round)
      invariant partnerGap == Pow2(round) && prevShuffle == if round > 0 then Some(ShuffleKey(round - 1, OUT)) else None
    {
      AddRound(actor, p, round, partnerGap, prevShuffle);
      prevShuffle := Some(ShuffleKey(round, OUT));
      partnerGap := partnerGap * 2;
    }
    IsRankDag(p, actor.me, actor.acts, actor.pre);
  }
}
