// The Bruck all-to-all schedule (sumi/alltoall.cc): in round s every rank packs
// the blocks whose slot number has binary digit s, sends them 2^s ranks up, and
// unpacks what it receives from 2^s below into the same slots.
module Alltoall {
  import opened Actions
  import opened Protocol
  import opened Powers
  import opened Ring

  datatype Plan = Plan(n: nat, nelems: nat)

  predicate Ok(p: Plan) { p.n >= 2 }

  function Rounds(p: Plan): nat { Log2Up(p.n) }

  // The distance of round s.
  function Gap(p: Plan, s: nat): (g: nat)
    requires Ok(p) && s < Rounds(p)
    ensures g == Pow2(s) && 0 < g < p.n
  {
    Pow2Grows(s, Rounds(p) - 1);
    Pow2(s)
  }

  // ---------- blocks of a round ----------

  predicate Moves(s: nat, j: nat) { !Low(j, s) }

  // How many slots below j move in round s: where slot j is packed.
  function Packed(s: nat, j: nat): (t: nat)
    ensures t <= j
  {
    if j == 0 then 0 else Packed(s, j - 1) + (if Moves(s, j - 1) then 1 else 0)
  }

  // The slot below b that is packed at t.
  function Unpacked(s: nat, t: nat, b: nat): (j: nat)
    ensures j <= b
  {
    if b == 0 then 0
    else if Moves(s, b - 1) && Packed(s, b - 1) == t then b - 1
    else Unpacked(s, t, b - 1)
  }

  function NumSendBlocks(p: Plan, s: nat): nat { Packed(s, p.n) }

  // Element e of block b.
  function Elem(p: Plan, buf: nat, b: nat, e: nat): Cell { Cell(buf, b * p.nelems + e) }

  // ---------- actions ----------

  const IN: nat := 0 // SEND_SHUFFLE
  const OUT: nat := 1 // RECV_SHUFFLE

  function ShuffleKey(s: nat, way: nat): Key { Key(Shuffle, s, way) }

  function CommKey(p: Plan, r: nat, s: nat, send: bool): Key
    requires Ok(p) && r < p.n && s < Rounds(p)
  {
    var g := Gap(p, s);
    if send then Key(Send, s, Above(p.n, r, g)) else Key(Recv, s, Below(p.n, r, g))
  }

  predicate IsKey(p: Plan, r: nat, k: Key)
    requires Ok(p) && r < p.n
  {
    k.round < Rounds(p) &&
    match k.kind
    case Send => k == CommKey(p, r, k.round, true)
    case Recv => k == CommKey(p, r, k.round, false)
    case Shuffle => k.partner == IN || k.partner == OUT
    case Join => false
  }

  function Size(p: Plan, s: nat): nat { NumSendBlocks(p, s) * p.nelems }

  function ActionOf(p: Plan, r: nat, k: Key): Action
    requires Ok(p) && r < p.n && IsKey(p, r, k)
  {
    match k.kind
    case Send => SendAction(k.round, k.partner, 0, Size(p, k.round), TempSend)
    case Recv => RecvAction(k.round, k.partner, 0, Size(p, k.round), PackedTemp)
    case _ => ShuffleAction(k.round, k.partner, Pow2(k.round), Size(p, k.round))
  }

  function TimeOf(k: Key): nat {
    3 * k.round + (if k.kind != Shuffle then 1 else if k.partner == IN then 0 else 2)
  }

  // pack, then send and receive, then unpack; then the next round.
  function PreOf(p: Plan, r: nat, k: Key): set<Key>
    requires Ok(p) && r < p.n && IsKey(p, r, k)
  {
    if k.kind != Shuffle then {ShuffleKey(k.round, IN)}
    else if k.partner == OUT then {CommKey(p, r, k.round, true), CommKey(p, r, k.round, false)}
    else if k.round > 0 then {ShuffleKey(k.round - 1, OUT)} else {}
  }

  function Keys(p: Plan, r: nat): set<Key>
    requires Ok(p) && r < p.n
  {
    set kd: Kind, round: nat, partner: nat |
      round < Rounds(p) && partner < p.n && IsKey(p, r, Key(kd, round, partner)) :: Key(kd, round, partner)
  }

  function RankDag(p: Plan, r: nat): Dag
    requires Ok(p) && r < p.n
  {
    Dag(map k | k in Keys(p, r) :: ActionOf(p, r, k), map k | k in Keys(p, r) :: PreOf(p, r, k))
  }

  // ---------- data movement ----------

  // shuffle: the source of cell c.  Buffer 0 is the result, 1 the send and 2 the
  // receive workspace.
  function Moved(p: Plan, k: Key, c: Cell): Option<Cell> {
    if k.kind != Shuffle || p.nelems == 0 || c.idx < 0 then None
    else
      var b, e := c.idx / p.nelems, c.idx % p.nelems;
      if k.partner == IN && c.buf == 1 && b < NumSendBlocks(p, k.round) then Some(Elem(p, 0, Unpacked(k.round, b, p.n), e))
      else if k.partner == OUT && c.buf == 0 && b < p.n && Moves(k.round, b) then Some(Elem(p, 2, Packed(k.round, b), e))
      else None
  }

  // finalize: slot i goes to block (me - i) mod n; the element that ends at index
  // i comes from index SlotOf.
  function SlotOf(p: Plan, r: nat, i: int): int
    requires Ok(p)
  {
    if p.nelems > 0 && 0 <= i < p.n * p.nelems && r < p.n && i / p.nelems < p.n then
      Below(p.n, r, i / p.nelems) * p.nelems + i % p.nelems
    else i
  }

  function Reordered<E(==,!new)>(p: Plan, r: nat, mem: Mem<E>): Mem<E>
    requires Ok(p)
  {
    (c: Cell) => if c.buf == 0 then mem(Cell(0, SlotOf(p, r, c.idx))) else mem(c)
  }

  // initBuffers: the caller's blocks, rotated so that slot 0 is the rank's own.
  function Home(p: Plan, r: nat, i: int): int {
    if i + r * p.nelems < p.n * p.nelems then i + r * p.nelems else i + r * p.nelems - p.n * p.nelems
  }

  function Rotated<E(==,!new)>(p: Plan, input: (nat, int) -> E, other: (nat, Cell) -> E): (nat, Cell) -> E
    requires Ok(p)
  {
    (r: nat, c: Cell) => if c.buf == 0 && 0 <= c.idx < p.n * p.nelems then input(r, Home(p, r, c.idx)) else other(r, c)
  }

  function Cfg<E(==,!new)>(p: Plan, op: (E, E) -> E, input: (nat, int) -> E, other: (nat, Cell) -> E,
                           useEager: nat -> bool, useGet: bool): (cfg: Config<E>)
    requires Ok(p)
    ensures cfg.useEager == useEager && cfg.useGet == useGet
  {
    Config(p.n, seq(p.n, r requires 0 <= r < p.n => RankDag(p, r)), seq(p.n, _ => Ptrs(1, 2, 0)),
           useEager, useGet, op, Rotated(p, input, other), (_: nat, k: Key, c: Cell) => Moved(p, k, c),
           (r: nat, m: Mem<E>) => Reordered(p, r, m),
           Notes((_: nat, k: Key) => TimeOf(k), (_, _) => false, 3 * Rounds(p)))
  }
}
