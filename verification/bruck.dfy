// The Bruck schedule of allgather, allgatherv and barrier (sumi/allgather.cc,
// sumi/allgatherv.cc): in step s every rank passes the first blocks it holds to
// the rank 2^s below and appends those of the rank 2^s above.
module Bruck {
  import opened Actions
  import opened Protocol
  import opened Powers
  import opened Ring

  // counts: the length of every rank's block.  gap: the extra step for a rank
  // count that is not a power of two skips a round number (allgather.cc:148).
  datatype Plan = Plan(n: nat, counts: seq<nat>, gap: bool)

  predicate Ok(p: Plan) { p.n >= 2 && |p.counts| == p.n }

  // ---------- blocks ----------

  function Steps(p: Plan): nat { Log2Up(p.n) }

  // How many blocks a rank holds before step t.
  function Have(p: Plan, t: nat): nat
    requires Ok(p) && t <= Steps(p)
  {
    if t < Steps(p) then Pow2(t) else p.n
  }

  // How many it passes on in step s.
  function Passes(p: Plan, s: nat): (b: nat)
    requires Ok(p) && s < Steps(p)
    ensures 0 < Pow2(s) < p.n && 0 < b <= Pow2(s) && Pow2(s) + b == Have(p, s + 1) <= p.n
  {
    Pow2Grows(s, Steps(p) - 1);
    if s + 1 < Steps(p) then Pow2Grows(s + 1, Steps(p) - 1); Pow2(s) else p.n - Pow2(s)
  }

  // The rank the blocks of step s come from, and the one they go to.
  function Source(p: Plan, r: nat, s: nat): (w: nat)
    requires Ok(p) && r < p.n && s < Steps(p)
    ensures w < p.n && Pow2(s) < p.n && w == Above(p.n, r, Pow2(s))
  {
    var _ := Passes(p, s);
    Above(p.n, r, Pow2(s))
  }

  function Target(p: Plan, r: nat, s: nat): (w: nat)
    requires Ok(p) && r < p.n && s < Steps(p)
    ensures w < p.n && Pow2(s) < p.n && w == Below(p.n, r, Pow2(s))
  {
    var _ := Passes(p, s);
    Below(p.n, r, Pow2(s))
  }

  // The sum of the first k counts: where rank k's block belongs in the end.
  function Disp(counts: seq<nat>, k: nat): nat
    requires k <= |counts|
  {
    if k == 0 then 0 else Disp(counts, k - 1) + counts[k - 1]
  }

  lemma {:induction false} DispGrows(counts: seq<nat>, a: nat, b: nat)
    requires a <= b <= |counts|
    ensures Disp(counts, a) <= Disp(counts, b)
    decreases b
  {
    if a < b { DispGrows(counts, a, b - 1); }
  }

  // Where the j-th block from rank r on starts when the blocks of r, r+1, ..
  // are packed one after the other, round the ring.
  function Off(p: Plan, r: nat, j: nat): int
    requires Ok(p) && r < p.n && j <= p.n
  {
    if r + j <= p.n then Disp(p.counts, r + j) - Disp(p.counts, r)
    else Disp(p.counts, p.n) - Disp(p.counts, r) + Disp(p.counts, r + j - p.n)
  }

  lemma OffSum(p: Plan, r: nat, a: nat, b: nat)
    requires Ok(p) && r < p.n && a + b <= p.n
    ensures Off(p, r, a + b) == Off(p, r, a) + Off(p, Above(p.n, r, a), b)
  {
  }

  lemma OffGrows(p: Plan, r: nat, a: nat, b: nat)
    requires Ok(p) && r < p.n && a <= b <= p.n
    ensures 0 <= Off(p, r, a) <= Off(p, r, b) <= Disp(p.counts, p.n)
  {
    OffUp(p, r, 0, a);
    OffUp(p, r, a, b);
    OffUp(p, r, b, p.n);
  }

  lemma OffUp(p: Plan, r: nat, a: nat, b: nat)
    requires Ok(p) && r < p.n && a <= b <= p.n
    ensures Off(p, r, 0) == 0 && Off(p, r, p.n) == Disp(p.counts, p.n) && Off(p, r, a) <= Off(p, r, b)
  {
    if r + b <= p.n {
      DispGrows(p.counts, r + a, r + b);
    } else if r + a <= p.n {
      DispGrows(p.counts, r + a, p.n);
    } else {
      DispGrows(p.counts, r + a - p.n, r + b - p.n);
    }
  }

  // ---------- actions ----------

  predicate Uneven(p: Plan) { p.n != Pow2(Steps(p)) }

  function Rnd(p: Plan, s: nat): nat {
    if p.gap && Uneven(p) && s + 1 == Steps(p) then s + 1 else s
  }

  function StepOf(p: Plan, round: nat): nat {
    if p.gap && Uneven(p) && round == Steps(p) && round > 0 then round - 1 else round
  }

  function StepKey(p: Plan, r: nat, s: nat, send: bool): Key
    requires Ok(p) && r < p.n && s < Steps(p)
  {
    if send then Key(Send, Rnd(p, s), Target(p, r, s)) else Key(Recv, Rnd(p, s), Source(p, r, s))
  }

  function Zone(p: Plan, r: nat, s: nat, send: bool): (z: Span)
    requires Ok(p) && r < p.n && s < Steps(p)
    ensures z.off >= 0
  {
    var b := Passes(p, s);
    OffGrows(p, r, Pow2(s), Pow2(s) + b);
    OffGrows(p, r, 0, b);
    if send then Span(0, 0, Off(p, r, b))
    else Span(0, Off(p, r, Pow2(s)), Off(p, r, Pow2(s) + b) - Off(p, r, Pow2(s)))
  }

  function StepAction(p: Plan, r: nat, s: nat, send: bool): Action
    requires Ok(p) && r < p.n && s < Steps(p)
  {
    var k, z := StepKey(p, r, s, send), Zone(p, r, s, send);
    if send then SendAction(k.round, k.partner, z.off, z.len, SendInPlace)
    else RecvAction(k.round, k.partner, z.off, z.len, InPlace)
  }

  predicate IsKey(p: Plan, r: nat, k: Key)
    requires Ok(p) && r < p.n
  {
    var s := StepOf(p, k.round);
    s < Steps(p) && (k.kind == Send || k.kind == Recv) && k == StepKey(p, r, s, k.kind == Send)
  }

  function ActionOf(p: Plan, r: nat, k: Key): Action
    requires Ok(p) && r < p.n && IsKey(p, r, k)
  {
    StepAction(p, r, StepOf(p, k.round), k.kind == Send)
  }

  // Both actions of a step wait for both actions of the step before.
  function PreOf(p: Plan, r: nat, k: Key): set<Key>
    requires Ok(p) && r < p.n && IsKey(p, r, k)
  {
    var s := StepOf(p, k.round);
    if s == 0 then {} else {StepKey(p, r, s - 1, true), StepKey(p, r, s - 1, false)}
  }

  function Keys(p: Plan, r: nat): set<Key>
    requires Ok(p) && r < p.n
  {
    set kd: Kind, round: nat, partner: nat |
      round <= Steps(p) && partner < p.n && IsKey(p, r, Key(kd, round, partner)) :: Key(kd, round, partner)
  }

  function RankDag(p: Plan, r: nat): Dag
    requires Ok(p) && r < p.n
  {
    Dag(map k | k in Keys(p, r) :: ActionOf(p, r, k), map k | k in Keys(p, r) :: PreOf(p, r, k))
  }

  // finalize: the packed blocks are rotated into rank order.  The element that
  // ends at index i comes from index From(me's offset, total, i).
  function From(off: nat, total: nat, i: int): int {
    if 0 <= i < total && off <= total then if i >= off then i - off else i + total - off else i
  }

  function Rotated<E(==,!new)>(off: nat, total: nat, mem: Mem<E>): Mem<E> {
    (c: Cell) => if c.buf == 0 then mem(Cell(0, From(off, total, c.idx))) else mem(c)
  }

  function MyOff(p: Plan, r: nat): nat
    requires Ok(p)
  {
    if r < p.n then Disp(p.counts, r) else 0
  }

  // All three buffer pointers are the result buffer (buffer 0).  init is the
  // memory after initBuffers: rank r's own block starts at index 0.
  function Cfg<E(==,!new)>(p: Plan, op: (E, E) -> E, init: (nat, Cell) -> E, useEager: nat -> bool, useGet: bool): (cfg: Config<E>)
    requires Ok(p)
    ensures cfg.useEager == useEager && cfg.useGet == useGet
  {
    Config(p.n, seq(p.n, r requires 0 <= r < p.n => RankDag(p, r)), seq(p.n, _ => Ptrs(0, 0, 0)),
           useEager, useGet, op, init, (_, _, _) => None,
           (r: nat, m: Mem<E>) => Rotated(MyOff(p, r), Disp(p.counts, p.n), m),
           Notes((_: nat, k: Key) => StepOf(p, k.round), (_, _) => false, Steps(p)))
  }
}
