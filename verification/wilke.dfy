// The schedule shared by allreduce and reduce (sumi/allreduce.cc,
// sumi/reduce.cc): recursive halving with reduction over virtual ranks, then
// the mirrored exchange, cut short and followed by a hand-off when the result
// goes to one root only.
module Wilke {
  import opened Actions
  import opened Protocol
  import opened Powers
  import opened VirtualRanks
  import opened Halving

  // root == None: allreduce.
  datatype Plan = Plan(n: nat, nelems: nat, root: Option<nat>)

  predicate Ok(p: Plan) { p.n >= 2 && (p.root.Some? ==> p.root.value < p.n) }

  function L(p: Plan): nat { Log2Up(p.n) }

  // Steps 0..L-1 halve, step s >= L mirrors step 2L-1-s.  Digit is the digit in
  // which the two partners of a step differ.
  function Digit(p: Plan, s: nat): nat
    requires s < 2 * L(p)
  {
    if s < L(p) then s else 2 * L(p) - 1 - s
  }

  function Partner(p: Plan, v: nat, s: nat): (w: nat)
    requires Ok(p) && v < VNproc(p.n) && s < 2 * L(p)
    ensures w < VNproc(p.n) && w == Flip(v, Digit(p, s))
  {
    FlipInRange(v, Digit(p, s), L(p));
    Flip(v, Digit(p, s))
  }

  // The partner is not the other role of the same rank (isSharedRole): two
  // roles of one rank meet in the steps for digit 0 only (SharedRoles).
  predicate Remote(p: Plan, v: nat, s: nat)
    requires s < 2 * L(p)
  {
    Digit(p, s) != 0 || v >= 2 * Twos(p.n)
  }

  // The mirrored steps a reduce performs: with a root other than 0 the last one
  // is skipped, and after each the upper half of the ranks leaves.
  function Halvings(p: Plan): nat {
    if p.root.Some? && p.root.value != 0 && L(p) > 0 then L(p) - 1 else L(p)
  }

  predicate Takes(p: Plan, v: nat, s: nat)
    requires s < 2 * L(p)
  {
    s < L(p) || p.root.None? || (s - L(p) < Halvings(p) && v < Pow2(2 * L(p) - s))
  }

  predicate Performs(p: Plan, v: nat, s: nat) {
    v < VNproc(p.n) && s < 2 * L(p) && Remote(p, v, s) && Takes(p, v, s)
  }

  // Odd roles are renumbered, except where both parities meet.
  function Rnd(p: Plan, v: nat, s: nat): nat {
    if s == 0 || s + 1 == 2 * L(p) || v % 2 == 0 then s else s + 2 * L(p)
  }

  function Sent(p: Plan, v: nat, s: nat): Span
    requires Ok(p) && v < VNproc(p.n) && s < 2 * L(p)
  {
    if s < L(p) then Kept(Partner(p, v, s), s + 1, p.nelems) else Kept(v, Digit(p, s) + 1, p.nelems)
  }

  function Received(p: Plan, v: nat, s: nat): Span
    requires Ok(p) && v < VNproc(p.n) && s < 2 * L(p)
  {
    if s < L(p) then Kept(v, s + 1, p.nelems) else Kept(Partner(p, v, s), Digit(p, s) + 1, p.nelems)
  }

  function StepKey(p: Plan, v: nat, s: nat, send: bool): Key
    requires Ok(p) && v < VNproc(p.n) && s < 2 * L(p)
  {
    Key(if send then Send else Recv, Rnd(p, v, s), Real(p.n, Partner(p, v, s)))
  }

  function StepAction(p: Plan, v: nat, s: nat, send: bool): Action
    requires Ok(p) && v < VNproc(p.n) && s < 2 * L(p)
  {
    var other := Real(p.n, Partner(p, v, s));
    if send then SendAction(Rnd(p, v, s), other, Sent(p, v, s).off, Sent(p, v, s).len, SendInPlace)
    else RecvAction(Rnd(p, v, s), other, Received(p, v, s).off, Received(p, v, s).len, if s < L(p) then Reduce else InPlace)
  }

  // The role and step a round number of rank r stands for.
  function RoleOf(p: Plan, r: nat, round: nat): nat {
    if r >= Twos(p.n) then Twos(p.n) + r else if round < 2 * L(p) then 2 * r else 2 * r + 1
  }

  function StepOf(p: Plan, round: nat): nat {
    if round < 2 * L(p) then round else round - 2 * L(p)
  }

  predicate IsStep(p: Plan, r: nat, k: Key)
    requires Ok(p)
  {
    var v, s := RoleOf(p, r, k.round), StepOf(p, k.round);
    && (k.kind == Send || k.kind == Recv)
    && Performs(p, v, s) && Real(p.n, v) == r && k == StepKey(p, v, s, k.kind == Send)
  }

  // ---------- the hand-off to a root ----------

  const JOIN := Key(Join, 0, 0)

  function LastRound(p: Plan): nat { if L(p) > 0 then 4 * L(p) - 1 else 0 }

  // Ranks 0 and 1 send the two halves of the result to the root.
  predicate IsHandOff(p: Plan, r: nat, k: Key) {
    p.root.Some? && p.root.value != 0 && k.round == LastRound(p) &&
    match k.kind
    case Send => (r == 0 || (r == 1 && p.root.value != 1)) && k.partner == p.root.value
    case Recv => r == p.root.value && (k.partner == 0 || (k.partner == 1 && p.root.value != 1))
    case _ => false
  }

  function HalfOff(p: Plan, src: nat): nat { if src == 0 then 0 else Up(p.nelems) }

  function HalfLen(p: Plan, src: nat): nat { if src == 0 then Up(p.nelems) else p.nelems - Up(p.nelems) }

  predicate IsKey(p: Plan, r: nat, k: Key)
    requires Ok(p)
  {
    IsStep(p, r, k) || (p.root.Some? && k == JOIN) || IsHandOff(p, r, k)
  }

  function ActionOf(p: Plan, r: nat, k: Key): Action
    requires Ok(p) && IsKey(p, r, k)
  {
    if k.kind == Join then JoinAction(0, 0)
    else if IsHandOff(p, r, k) then
      if k.kind == Send then SendAction(k.round, k.partner, HalfOff(p, r), HalfLen(p, r), SendInPlace)
      else RecvAction(k.round, k.partner, HalfOff(p, k.partner), HalfLen(p, k.partner), InPlace)
    else StepAction(p, RoleOf(p, r, k.round), StepOf(p, k.round), k.kind == Send)
  }

  // The largest s <= m with f(s), or 0.
  function LastTrue(f: nat -> bool, m: nat): nat { if m == 0 || f(m) then m else LastTrue(f, m - 1) }

  // The last step role v performs.
  function LastStep(p: Plan, v: nat): nat
    requires Ok(p)
  {
    LastTrue((s: nat) => Performs(p, v, s), 2 * L(p) - 1)
  }

  function StepPair(p: Plan, v: nat, s: nat): set<Key>
    requires Ok(p)
  {
    if Performs(p, v, s) then {StepKey(p, v, s, true), StepKey(p, v, s, false)} else {}
  }

  function JoinPre(p: Plan, r: nat): set<Key>
    requires Ok(p)
  {
    if r >= Twos(p.n) then StepPair(p, Twos(p.n) + r, LastStep(p, Twos(p.n) + r))
    else StepPair(p, 2 * r, LastStep(p, 2 * r)) + StepPair(p, 2 * r + 1, LastStep(p, 2 * r + 1))
  }

  // Both actions of a step wait for both actions of the role's previous step;
  // the join waits for every role; the hand-off waits for the join.
  function PreOf(p: Plan, r: nat, k: Key): set<Key>
    requires Ok(p) && IsKey(p, r, k)
  {
    if k.kind == Join then JoinPre(p, r)
    else if IsHandOff(p, r, k) then {JOIN}
    else
      var v, s := RoleOf(p, r, k.round), StepOf(p, k.round);
      if s > 0 then StepPair(p, v, s - 1) else {}
  }

  function Keys(p: Plan, r: nat): set<Key>
    requires Ok(p)
  {
    set kd: Kind, round: nat, partner: nat |
      round < 4 * L(p) && partner < p.n && IsKey(p, r, Key(kd, round, partner)) :: Key(kd, round, partner)
  }

  function RankDag(p: Plan, r: nat): Dag
    requires Ok(p)
  {
    Dag(map k | k in Keys(p, r) :: ActionOf(p, r, k), map k | k in Keys(p, r) :: PreOf(p, r, k))
  }

  // ---------- as a collective ----------

  function TimeOf(p: Plan, k: Key): nat {
    if k.kind == Join then 2 * L(p)
    else if k.round == LastRound(p) && p.root.Some? then 2 * L(p) + 1
    else StepOf(p, k.round)
  }

  // Buffer 0 is the result buffer (sends are made from it), buffer 1 the
  // receive workspace.  init is the memory after initBuffers.
  function Cfg<E(==,!new)>(p: Plan, op: (E, E) -> E, init: (nat, Cell) -> E, useEager: nat -> bool, useGet: bool): (cfg: Config<E>)
    requires Ok(p)
    ensures cfg.useEager == useEager && cfg.useGet == useGet
  {
    Config(p.n, seq(p.n, r requires r >= 0 => RankDag(p, r)), seq(p.n, _ => Ptrs(0, 1, 0)),
           useEager, useGet, op, init, (_, _, _) => None, (_, m) => m,
           Notes((_: nat, k: Key) => TimeOf(p, k), (_: nat, c: Cell) => c.buf == 1, 2 * L(p) + 2))
  }
}
