// What the engine does with received data (dataRecved, DefaultSlicer, ReduceOp),
// on real buffers, against the memory function the schedules are read with.
module Slicers {
  import opened Actions
  import opened Protocol

  // RecvAction::recv_type_t
  datatype RecvType =
    | RdvzInPlace | RdvzReduce | RdvzPackedTemp | RdvzUnpackTemp
    | EagerInPlace | EagerReduce | EagerPackedTemp | EagerUnpackTemp

  function TypeOfCode(code: nat): RecvType
    requires code < 8
  {
    [RdvzInPlace, RdvzReduce, RdvzPackedTemp, RdvzUnpackTemp,
     EagerInPlace, EagerReduce, EagerPackedTemp, EagerUnpackTemp][code]
  }

  function BufCode(b: RecvBuf): nat {
    match b case InPlace => 0 case Reduce => 1 case PackedTemp => 2 case UnpackTemp => 3
  }

  // recv_type: the buffer type, shifted by 4 for eager messages.
  function RecvTypeOf(eager: bool, b: RecvBuf): RecvType {
    TypeOfCode(BufCode(b) + (if eager then 4 else 0))
  }

  // ReduceOp::op, called by unpackReduce
  method UnpackReduce<E(!new)>(packed: seq<E>, obj: array<E>, offset: nat, nelems: nat, op: (E, E) -> E)
    requires nelems <= |packed| && offset + nelems <= obj.Length
    modifies obj
    ensures forall i :: 0 <= i < obj.Length ==>
              obj[i] == if offset <= i < offset + nelems then op(old(obj[i]), packed[i - offset]) else old(obj[i])
  {
    for i := 0 to nelems
      invariant forall j :: 0 <= j < obj.Length ==>
                  obj[j] == if offset <= j < offset + i then op(old(obj[j]), packed[j - offset]) else old(obj[j])
    {
      obj[offset + i] := op(obj[offset + i], packed[i]);
    }
  }

  // unpackRecvBuf, and memcpyPackedBufs with offset 0
  method UnpackRecvBuf<E(!new)>(packed: seq<E>, obj: array<E>, offset: nat, nelems: nat)
    requires nelems <= |packed| && offset + nelems <= obj.Length
    modifies obj
    ensures forall i :: 0 <= i < obj.Length ==>
              obj[i] == if offset <= i < offset + nelems then packed[i - offset] else old(obj[i])
  {
    for i := 0 to nelems
      invariant forall j :: 0 <= j < obj.Length ==>
                  obj[j] == if offset <= j < offset + i then packed[j - offset] else old(obj[j])
    {
      obj[offset + i] := packed[i];
    }
  }

  // buf is buffer `num` in mem.
  ghost predicate Holds<E(!new)>(mem: Mem<E>, num: nat, buf: seq<E>) {
    forall i :: 0 <= i < |buf| ==> mem(Cell(num, i)) == buf[i]
  }

  // What the slicer call for a receive does to the buffer it writes.
  ghost predicate Unpacked<E(!new)>(a: Action, off: nat, data: seq<E>, op: (E, E) -> E, was: seq<E>, now: seq<E>)
    requires a.RecvAction? && |data| == a.nelems
  {
    && |now| == |was|
    && forall i :: 0 <= i < |was| ==>
         now[i] == if off <= i < off + a.nelems
                   then if a.rbuf == Reduce then op(was[i], data[i - off]) else data[i - off] else was[i]
  }

  lemma UnpackedHolds<E(!new)>(cfg: Config<E>, r: nat, mem: Mem<E>, a: Action, eager: bool, data: seq<E>, was: seq<E>, now: seq<E>)
    requires a.RecvAction? && |data| == a.nelems && r < |cfg.ptrs|
    requires var dst := DstSpan(cfg.ptrs[r], a, eager);
             dst.off >= 0 && Holds(mem, dst.buf, was) && Unpacked(a, dst.off, data, cfg.op, was, now)
    ensures Holds(RecvMem(cfg, r, a, eager, data, mem), DstSpan(cfg.ptrs[r], a, eager).buf, now)
  {
  }

  lemma OtherHolds<E(!new)>(cfg: Config<E>, r: nat, mem: Mem<E>, a: Action, eager: bool, data: seq<E>, num: nat, buf: seq<E>)
    requires a.RecvAction? && |data| == a.nelems && r < |cfg.ptrs| && Holds(mem, num, buf)
    requires num != DstSpan(cfg.ptrs[r], a, eager).buf
    ensures Holds(RecvMem(cfg, r, a, eager, data, mem), num, buf)
  {
  }

  // The array a processed payload is written to.
  function Written<E>(a: Action, recvBuffer: array<E>, resultBuffer: array<E>): array<E>
    requires a.RecvAction?
  {
    if a.rbuf == PackedTemp then recvBuffer else resultBuffer
  }

  // The slicer call dataRecved selects; a payload that RDMA has put in place is
  // the content of its place already.
  method Unpack<E(!new)>(ghost cfg: Config<E>, ghost r: nat, ghost mem: Mem<E>, a: Action, eager: bool, data: seq<E>,
                         recvBuffer: array<E>, resultBuffer: array<E>, op: (E, E) -> E)
    requires a.RecvAction? && |data| == a.nelems && r < |cfg.ptrs| && cfg.op == op
    requires var dst := DstSpan(cfg.ptrs[r], a, eager);
             && dst.off + dst.len <= Written(a, recvBuffer, resultBuffer).Length
             && Holds(mem, dst.buf, Written(a, recvBuffer, resultBuffer)[..])
             && (!eager && (a.rbuf == InPlace || a.rbuf == PackedTemp) ==> data == ReadSpan(mem, dst))
    modifies Written(a, recvBuffer, resultBuffer)
    ensures Unpacked(a, DstSpan(cfg.ptrs[r], a, eager).off, data, op, old(Written(a, recvBuffer, resultBuffer)[..]),
                     Written(a, recvBuffer, resultBuffer)[..])
  {
    match RecvTypeOf(eager, a.rbuf) {
      case EagerReduce => UnpackReduce(data, resultBuffer, a.offset, a.nelems, op);
      case RdvzReduce => UnpackReduce(data, resultBuffer, a.offset, a.nelems, op);
      case EagerInPlace => UnpackRecvBuf(data, resultBuffer, a.offset, a.nelems);
      case EagerUnpackTemp => UnpackRecvBuf(data, resultBuffer, a.offset, a.nelems);
      case RdvzUnpackTemp => UnpackRecvBuf(data, resultBuffer, a.offset, a.nelems);
      case EagerPackedTemp => UnpackRecvBuf(data, recvBuffer, 0, a.nelems);
      case RdvzPackedTemp => AlreadyThere(cfg, r, mem, a, data, recvBuffer[..]);
      case RdvzInPlace => AlreadyThere(cfg, r, mem, a, data, resultBuffer[..]);
    }
  }

  lemma AlreadyThere<E(!new)>(cfg: Config<E>, r: nat, mem: Mem<E>, a: Action, data: seq<E>, buf: seq<E>)
    requires a.RecvAction? && |data| == a.nelems && r < |cfg.ptrs| && a.rbuf != Reduce
    requires var dst := DstSpan(cfg.ptrs[r], a, false);
             Holds(mem, dst.buf, buf) && dst.off + dst.len <= |buf| && data == ReadSpan(mem, dst)
    ensures Unpacked(a, DstSpan(cfg.ptrs[r], a, false).off, data, cfg.op, buf, buf)
  {
    var dst := DstSpan(cfg.ptrs[r], a, false);
    forall i | dst.off <= i < dst.off + dst.len ensures data[i - dst.off] == buf[i] {
      assert dst.At(i - dst.off) == Cell(dst.buf, i);
    }
  }

  // dataRecved: the buffers afterwards are what RecvMem says, for any buffer
  // numbers; equal numbers are one array.  A rank ignores a message to itself.
  method DataRecved<E(!new)>(ghost cfg: Config<E>, ghost r: nat, ghost mem: Mem<E>, a: Action, eager: bool, data: seq<E>,
                             myRank: nat, sender: nat, recvBuffer: array<E>, resultBuffer: array<E>, op: (E, E) -> E)
    requires a.RecvAction? && |data| == a.nelems && r < |cfg.ptrs| && cfg.op == op
    requires recvBuffer == resultBuffer <==> cfg.ptrs[r].recv == cfg.ptrs[r].result
    requires Holds(mem, cfg.ptrs[r].recv, recvBuffer[..]) && Holds(mem, cfg.ptrs[r].result, resultBuffer[..])
    requires var dst := DstSpan(cfg.ptrs[r], a, eager);
             && dst.off + dst.len <= Written(a, recvBuffer, resultBuffer).Length
             && (!eager && (a.rbuf == InPlace || a.rbuf == PackedTemp) ==> data == ReadSpan(mem, dst))
    modifies Written(a, recvBuffer, resultBuffer)
    ensures var mem' := if sender == myRank then mem else RecvMem(cfg, r, a, eager, data, mem);
            Holds(mem', cfg.ptrs[r].recv, recvBuffer[..]) && Holds(mem', cfg.ptrs[r].result, resultBuffer[..])
  {
    hide Holds, Unpacked, RecvMem;
    if sender != myRank {
      ghost var recv0, result0 := recvBuffer[..], resultBuffer[..];
      Unpack(cfg, r, mem, a, eager, data, recvBuffer, resultBuffer, op);
      UnpackedHolds(cfg, r, mem, a, eager, data, if a.rbuf == PackedTemp then recv0 else result0,
                    Written(a, recvBuffer, resultBuffer)[..]);
      if recvBuffer != resultBuffer {
        if a.rbuf == PackedTemp {
          OtherHolds(cfg, r, mem, a, eager, data, cfg.ptrs[r].result, result0);
        } else {
          OtherHolds(cfg, r, mem, a, eager, data, cfg.ptrs[r].recv, recv0);
        }
      }
    }
  }
}
