// Binomial-tree gather (sumi/gather.cc).  Up the tree every rank collects the
// blocks of its subtree; for a root other than 0 the last level is replaced by
// two transfers from rank 0 and from the midpoint rank.
module Gather {
  import opened Actions
  import opened Protocol
  import opened Powers
  import opened Trees

  datatype Plan = Plan(n: nat, nelems: nat, root: nat)

  predicate Ok(p: Plan) { p.n >= 2 && p.root < p.n }

  // initTree: log2nproc_ and midpoint_.
  function L(p: Plan): nat { Log2Up(p.n) }

  function Mid(p: Plan): (m: nat)
    requires Ok(p)
    ensures 0 < m < p.n <= 2 * m && m == Pow2(L(p) - 1)
  {
    Pow2(L(p) - 1)
  }

  // How many tree rounds there are (partnerGap <= maxGap).
  function Depth(p: Plan): nat
    requires Ok(p)
  {
    if p.root == 0 then L(p) else L(p) - 1
  }

  // ---------- the tree ----------

  // r is a multiple of 2^t.
  predicate Whole(r: nat, t: nat) { r == 0 || LowBit(r) >= t }

  predicate Receives(p: Plan, r: nat, i: nat)
    requires Ok(p)
  {
    i < Depth(p) && Whole(r, i + 1) && r + Pow2(i) < p.n
  }

  predicate Sends(p: Plan, r: nat, i: nat)
    requires Ok(p)
  {
    i < Depth(p) && r > 0 && LowBit(r) == i
  }

  predicate Busy(p: Plan, r: nat, i: nat)
    requires Ok(p)
  {
    Receives(p, r, i) || Sends(p, r, i)
  }

  // The blocks a subtree of height i at x has.
  function Chunk(p: Plan, x: nat, i: nat): nat {
    if x + Pow2(i) <= p.n then Pow2(i) else if x < p.n then p.n - x else 0
  }

  function TreeKey(p: Plan, r: nat, i: nat): Key
    requires Ok(p)
  {
    if Sends(p, r, i) then Key(Send, i, Parent(r)) else Key(Recv, i, r + Pow2(i))
  }

  // The last round before t in which r is busy.
  function LastBusy(p: Plan, r: nat, t: nat): Option<nat>
    requires Ok(p)
  {
    if t == 0 then None else if Busy(p, r, t - 1) then Some(t - 1) else LastBusy(p, r, t - 1)
  }

  // ---------- actions ----------

  // The root is the midpoint and moves its half out of the way first.
  predicate Shuffles(p: Plan, r: nat)
    requires Ok(p)
  {
    p.root != 0 && p.root == Mid(p) && r == p.root
  }

  function ShuffleKey(p: Plan, r: nat): Key { Key(Shuffle, L(p), r) }

  predicate IsTree(p: Plan, r: nat, k: Key)
    requires Ok(p)
  {
    k.round < Depth(p) && Busy(p, r, k.round) && k == TreeKey(p, r, k.round)
  }

  // The transfers to a root other than 0; `src` is the sending rank.
  predicate IsLast(p: Plan, r: nat, k: Key)
    requires Ok(p)
  {
    && p.root != 0 && k.round == L(p)
    && match k.kind
       case Send => k.partner == p.root && (r == 0 || (r == Mid(p) && r != p.root))
       case Recv => r == p.root && (k.partner == 0 || (k.partner == Mid(p) && k.partner != p.root))
       case _ => false
  }

  predicate IsKey(p: Plan, r: nat, k: Key)
    requires Ok(p)
  {
    IsTree(p, r, k) || (Shuffles(p, r) && k == ShuffleKey(p, r)) || IsLast(p, r, k)
  }

  // Blocks moved, and the slot at which a receive or shuffle puts them.
  function Blocks(p: Plan, r: nat, k: Key): nat
    requires Ok(p)
  {
    if k.kind == Shuffle then p.n - Mid(p)
    else if k.round == L(p) then
      if (if k.kind == Send then r else k.partner) == 0 then Mid(p) else p.n - Mid(p)
    else if k.kind == Send then Chunk(p, r, k.round)
    else Chunk(p, k.partner, k.round)
  }

  function Slot(p: Plan, k: Key): nat
    requires Ok(p)
  {
    if k.kind == Send then 0
    else if k.kind == Shuffle then Mid(p)
    else if k.round == L(p) then if k.partner == 0 then 0 else Mid(p)
    else Pow2(k.round)
  }

  function ActionOf(p: Plan, r: nat, k: Key): Action
    requires Ok(p)
  {
    var size, off := Blocks(p, r, k) * p.nelems, Slot(p, k) * p.nelems;
    match k.kind
    case Send => SendAction(k.round, k.partner, off, size, SendInPlace)
    case Recv => RecvAction(k.round, k.partner, off, size, InPlace)
    case _ => ShuffleAction(k.round, k.partner, off, size)
  }

  // Every action waits for the rank's previous one.
  function PrevSet(p: Plan, r: nat, t: nat): set<Key>
    requires Ok(p)
  {
    match LastBusy(p, r, t) case None => {} case Some(i) => {TreeKey(p, r, i)}
  }

  function PreOf(p: Plan, r: nat, k: Key): set<Key>
    requires Ok(p)
  {
    if k.kind == Shuffle then PrevSet(p, r, Depth(p))
    else if k.round == L(p) then if Shuffles(p, r) then {ShuffleKey(p, r)} else PrevSet(p, r, Depth(p))
    else PrevSet(p, r, k.round)
  }

  function TimeOf(p: Plan, k: Key): nat {
    if k.kind != Shuffle && k.round >= L(p) then L(p) + 1 else k.round
  }

  function Keys(p: Plan, r: nat): set<Key>
    requires Ok(p)
  {
    set kd: Kind, round: nat, partner: nat |
      round <= L(p) && partner < p.n && IsKey(p, r, Key(kd, round, partner)) :: Key(kd, round, partner)
  }

  function RankDag(p: Plan, r: nat): Dag
    requires Ok(p)
  {
    Dag(map k | k in Keys(p, r) :: ActionOf(p, r, k), map k | k in Keys(p, r) :: PreOf(p, r, k))
  }

  // startShuffle: the blocks from slot 0 are copied to slot Mid.
  function Moved(p: Plan, k: Key, c: Cell): Option<Cell>
    requires Ok(p)
  {
    if k.kind == Shuffle && c.buf == 0 && Mid(p) * p.nelems <= c.idx < Mid(p) * p.nelems + (p.n - Mid(p)) * p.nelems
    then Some(Cell(0, c.idx - Mid(p) * p.nelems)) else None
  }

  // All buffer pointers of a rank are one buffer: the result at the root, a
  // workspace elsewhere (buffer 0).  init is the memory after initBuffers: rank
  // r's own block is at slot 0.
  function Cfg<E(==,!new)>(p: Plan, op: (E, E) -> E, init: (nat, Cell) -> E, useEager: nat -> bool, useGet: bool): (cfg: Config<E>)
    requires Ok(p)
    ensures cfg.useEager == useEager && cfg.useGet == useGet
  {
    Config(p.n, seq(p.n, r requires 0 <= r < p.n => RankDag(p, r)), seq(p.n, _ => Ptrs(0, 0, 0)),
           useEager, useGet, op, init, (_: nat, k: Key, c: Cell) => Moved(p, k, c), (_, m) => m,
           Notes((_: nat, k: Key) => TimeOf(p, k), (_, _) => false, L(p) + 2))
  }
}
