// The vocabulary of a collective: the actions a rank performs, the 32-bit ids
// under which the engine files them, and the buffer cells they touch.
module Actions {

  datatype Option<+T> = None | Some(value: T)

  // ---------- actions ----------

  // The action types the modelled schedules create (Action::type_t).
  datatype Kind = Send | Recv | Shuffle | Join

  // An action is identified inside its rank by type, round and partner.
  datatype Key = Key(kind: Kind, round: nat, partner: nat)

  // Where a send reads (SendAction::buf_type_t).
  datatype SendBuf = SendInPlace | PrevRecv | TempSend

  // Where a receive puts its data (RecvAction::buf_type_t).
  datatype RecvBuf = InPlace | Reduce | PackedTemp | UnpackTemp

  datatype Action =
    | SendAction(round: nat, partner: nat, offset: nat, nelems: nat, sbuf: SendBuf)
    | RecvAction(round: nat, partner: nat, offset: nat, nelems: nat, rbuf: RecvBuf)
    | ShuffleAction(round: nat, partner: nat, offset: nat, nelems: nat)
    | JoinAction(round: nat, partner: nat)
  {
    function Id(): Key {
      match this
      case SendAction(r, p, _, _, _) => Key(Send, r, p)
      case RecvAction(r, p, _, _, _) => Key(Recv, r, p)
      case ShuffleAction(r, p, _, _) => Key(Shuffle, r, p)
      case JoinAction(r, p) => Key(Join, r, p)
    }
  }

  // A matched send/receive pair: the message of `round` from src to dst.
  datatype Chan = Chan(src: nat, dst: nat, round: nat)

  function SendKey(c: Chan): Key { Key(Send, c.round, c.dst) }

  function RecvKey(c: Chan): Key { Key(Recv, c.round, c.src) }

  // ---------- 32-bit ids ----------

  const MAX_ROUND := 500
  const NUM_ENUMS := 6
  const TWO_TO_THE_32 := 0x1_0000_0000

  function TypeCode(k: Kind): nat {
    match k
    case Send => 0
    case Recv => 1
    case Shuffle => 2
    case Join => 5
  }

  // Action::messageId, in wrapping 32-bit arithmetic.
  function MessageId(k: Key): nat {
    (k.partner * MAX_ROUND * NUM_ENUMS + k.round * NUM_ENUMS + TypeCode(k.kind)) % TWO_TO_THE_32
  }

  // The ids of one round and partner: the send's is a multiple of the number of
  // types, the others follow at fixed distances.
  lemma IdsOfRound(round: nat, partner: nat)
    requires partner * 3000 + round * 6 + 5 < TWO_TO_THE_32
    ensures MessageId(Key(Send, round, partner)) == 3000 * partner + 6 * round
    ensures MessageId(Key(Send, round, partner)) % NUM_ENUMS == 0
    ensures MessageId(Key(Recv, round, partner)) == MessageId(Key(Send, round, partner)) + 1
    ensures MessageId(Key(Shuffle, round, partner)) == MessageId(Key(Send, round, partner)) + 2
    ensures MessageId(Key(Join, round, partner)) == MessageId(Key(Send, round, partner)) + 5
  {
    assert 3000 * partner + 6 * round == NUM_ENUMS * (500 * partner + round);
  }

  // Action::details: (type code, round, partner).
  function Details(id: nat): (nat, nat, nat) {
    var p := id / MAX_ROUND / NUM_ENUMS;
    var rest := id - p * MAX_ROUND * NUM_ENUMS;
    var r := rest / NUM_ENUMS;
    (rest - r * NUM_ENUMS, r, p)
  }

  // An id can be decoded exactly when the round is below 500 and nothing wraps.
  lemma DetailsInvertMessageId(k: Key)
    ensures Details(MessageId(k)) == (TypeCode(k.kind), k.round, k.partner)
            <==> k.round < MAX_ROUND
                 && k.partner * 3000 + k.round * 6 + TypeCode(k.kind) < TWO_TO_THE_32
  {
    var raw := k.partner * 3000 + k.round * 6 + TypeCode(k.kind);
    var id := MessageId(k);
    assert id == raw % TWO_TO_THE_32;
    var (ty, r, p) := Details(id);
    assert p == id / 3000;
    assert 0 <= id - p * 3000 < 3000;
    assert r < 500 && id == p * 3000 + r * 6 + ty;
    if k.round < MAX_ROUND && raw < TWO_TO_THE_32 {
      assert id == raw;
      assert k.round * 6 + TypeCode(k.kind) < 3000;
      assert p == k.partner;
    }
  }

  // Hence two actions of one rank never share an id within those bounds.
  lemma MessageIdInjective(a: Key, b: Key)
    requires a.round < MAX_ROUND && b.round < MAX_ROUND
    requires a.partner <= 1431654 && b.partner <= 1431654
    requires MessageId(a) == MessageId(b)
    ensures a == b
  {
    DetailsInvertMessageId(a);
    DetailsInvertMessageId(b);
  }

  // ---------- cells ----------

  // One element of one buffer of one rank.
  datatype Cell = Cell(buf: nat, idx: int)

  // A contiguous stretch of a buffer.
  datatype Span = Span(buf: nat, off: int, len: nat)
  {
    predicate Has(c: Cell) { c.buf == buf && off <= c.idx < off + len }

    function At(i: int): Cell { Cell(buf, off + i) }
  }

  // The three buffer pointers of an actor; equal numbers are aliases.
  datatype Ptrs = Ptrs(send: nat, recv: nat, result: nat)

  // getSendBuffer for contiguous data.
  function SendSpan(p: Ptrs, a: Action): Span
    requires a.SendAction?
  {
    match a.sbuf
    case SendInPlace => Span(p.result, a.offset, a.nelems)
    case TempSend => Span(p.send, a.offset, a.nelems)
    case PrevRecv => Span(p.recv, a.offset, a.nelems)
  }

  // getRecvbuffer: where an RDMA payload lands.
  function LandSpan(p: Ptrs, a: Action): Span
    requires a.RecvAction?
  {
    Span(if a.rbuf == InPlace then p.result else p.recv, a.offset, a.nelems)
  }

  // Where the receive leaves its data once it has been processed (dataRecved):
  // an eager packed message is copied to the start of the receive buffer.
  function DstSpan(p: Ptrs, a: Action, eager: bool): Span
    requires a.RecvAction?
  {
    match a.rbuf
    case PackedTemp => Span(p.recv, if eager then 0 else a.offset, a.nelems)
    case _ => Span(p.result, a.offset, a.nelems)
  }
}
