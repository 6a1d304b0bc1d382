// The copy loops of the all-to-all: shuffle, initBuffers and finalize, against
// the data movement the schedule assumes.
module AlltoallBuffers {
  import opened Actions
  import opened Protocol
  import opened Powers
  import opened Ring
  import opened Alltoall
  import opened AlltoallProof
  import opened AlltoallDag

  // Element i of an array after the shuffle k, if `was` is what it held.
  function After<E>(p: Plan, k: Key, buf: nat, i: nat, other: seq<E>, was: E): E {
    match Moved(p, k, Cell(buf, i))
    case Some(c) => if 0 <= c.idx < |other| then other[c.idx] else was
    case None => was
  }

  // Element i lies in block b.
  lemma BlockOf(i: nat, m: nat, b: nat)
    requires m > 0 && b * m <= i < (b + 1) * m
    ensures i / m == b && i % m == i - b * m
  {
    Multiples(b, b, m);
    QuotientIs(i, m, b);
  }

  lemma Nothing(a: nat, b: nat, m: nat, i: nat)
    requires a * m <= i < b * m
    ensures m > 0
  {
  }

  lemma InRange(i: nat, m: nat, a: nat, b: nat)
    requires a * m <= i < b * m
    ensures m > 0 && a <= i / m < b && i == i / m * m + i % m && i % m < m
  {
    assert m > 0 by { Nothing(a, b, m, i); }
    var q := i / m;
    SplitIs(i, m);
    if q < a { Multiples(q + 1, a, m); }
    if b <= q { Multiples(b, q, m); }
  }

  // One interval of the loop: `count` blocks from slot mb, packed from tb on.
  lemma SlotMovesIn(p: Plan, s: nat, q: nat, x: nat)
    requires Ok(p) && x < Pow2(s) && Slot(s, q) + Pow2(s) + x < p.n
    ensures var j := Slot(s, q) + Pow2(s) + x;
            && Moves(s, j) && Packed(s, j) == Place(s, q) + x && Unpacked(s, Place(s, q) + x, p.n) == j
            && Place(s, q) + x < NumSendBlocks(p, s)
  {
    var j := Slot(s, q) + Pow2(s) + x;
    MovesIs(s, q, Pow2(s) + x);
    PackedIs(s, q, Pow2(s) + x);
    UnpackedIs(s, j, p.n);
    PackedGrows(s, j, p.n);
  }

  lemma Shifted(m: nat, mb: nat, tb: nat, x: nat, e: nat)
    ensures (mb + x) * m + e == (tb + x) * m + e - tb * m + mb * m
  {
  }

  lemma ChunkIn(p: Plan, s: nat, q: nat, count: nat, i: nat)
    requires Ok(p) && count <= Pow2(s) && Slot(s, q) + Pow2(s) + count <= p.n
    requires Place(s, q) * p.nelems <= i < (Place(s, q) + count) * p.nelems
    ensures Moved(p, ShuffleKey(s, IN), Cell(1, i))
            == Some(Cell(0, i - Place(s, q) * p.nelems + (Slot(s, q) + Pow2(s)) * p.nelems))
  {
    hide Slot, Place, Packed, Unpacked, Moves, Moved, NumSendBlocks, Pow2;
    InRange(i, p.nelems, Place(s, q), Place(s, q) + count);
    var b, e := i / p.nelems, i % p.nelems;
    MovedAt(p, s, i, b, e);
    SlotMovesIn(p, s, q, b - Place(s, q));
    Shifted(p.nelems, Slot(s, q) + Pow2(s), Place(s, q), b - Place(s, q), e);
  }

  // What a shuffle does, by the block and the element in it.
  lemma MovedAt(p: Plan, s: nat, i: nat, b: nat, e: nat)
    requires p.nelems > 0 && b == i / p.nelems && e == i % p.nelems
    ensures && (b < NumSendBlocks(p, s) ==>
                  Moved(p, ShuffleKey(s, IN), Cell(1, i)) == Some(Cell(0, Unpacked(s, b, p.n) * p.nelems + e)))
            && (b < p.n && Moves(s, b) ==> Moved(p, ShuffleKey(s, OUT), Cell(0, i)) == Some(Cell(2, Packed(s, b) * p.nelems + e)))
  {
    hide Unpacked, Packed, Moves;
  }

  lemma ChunkOut(p: Plan, s: nat, q: nat, count: nat, i: nat)
    requires Ok(p) && count <= Pow2(s) && Slot(s, q) + Pow2(s) + count <= p.n
    requires (Slot(s, q) + Pow2(s)) * p.nelems <= i < (Slot(s, q) + Pow2(s) + count) * p.nelems
    ensures Moved(p, ShuffleKey(s, OUT), Cell(0, i))
            == Some(Cell(2, i - (Slot(s, q) + Pow2(s)) * p.nelems + Place(s, q) * p.nelems))
  {
    hide Slot, Place, Packed, Unpacked, Moves, Moved, NumSendBlocks, Pow2;
    InRange(i, p.nelems, Slot(s, q) + Pow2(s), Slot(s, q) + Pow2(s) + count);
    var b, e := i / p.nelems, i % p.nelems;
    var x := b - (Slot(s, q) + Pow2(s));
    MovedAt(p, s, i, b, e);
    SlotMovesIn(p, s, q, x);
    Shifted(p.nelems, Place(s, q), Slot(s, q) + Pow2(s), x, e);
  }

  // The slots between two chunks do not move.
  lemma BetweenOut(p: Plan, s: nat, q: nat, i: nat)
    requires Ok(p) && Slot(s, q) * p.nelems <= i < (Slot(s, q) + Pow2(s)) * p.nelems
    ensures Moved(p, ShuffleKey(s, OUT), Cell(0, i)) == None
  {
    hide Slot, Moves;
    InRange(i, p.nelems, Slot(s, q), Slot(s, q) + Pow2(s));
    MovesIs(s, q, i / p.nelems - Slot(s, q));
  }

  lemma BeyondOut(p: Plan, s: nat, i: nat)
    requires Ok(p) && p.n * p.nelems <= i
    ensures Moved(p, ShuffleKey(s, OUT), Cell(0, i)) == None
  {
    if p.nelems > 0 {
      SplitIs(i, p.nelems);
      if i / p.nelems < p.n { Multiples(i / p.nelems + 1, p.n, p.nelems); }
    }
  }

  lemma BeyondIn(p: Plan, s: nat, i: nat)
    requires Ok(p) && NumSendBlocks(p, s) * p.nelems <= i
    ensures Moved(p, ShuffleKey(s, IN), Cell(1, i)) == None
  {
    if p.nelems > 0 {
      SplitIs(i, p.nelems);
      if i / p.nelems < NumSendBlocks(p, s) { Multiples(i / p.nelems + 1, NumSendBlocks(p, s), p.nelems); }
    }
  }

  // ---------- the loop ----------

  // The first `limit` blocks of a have their content after the shuffle.
  ghost predicate Filled<E(!new)>(p: Plan, s: nat, way: nat, limit: nat, a: seq<E>, was: seq<E>, other: seq<E>) {
    |a| == |was| &&
    forall i {:trigger a[i]} :: 0 <= i < |a| ==>
      a[i] == if i < limit * p.nelems then After(p, ShuffleKey(s, way), if way == IN then 1 else 0, i, other, was[i]) else was[i]
  }

  // What one memcpy of len elements does.
  ghost predicate Copied<E(!new)>(b: seq<E>, a: seq<E>, off: nat, src: seq<E>, from: nat, len: nat) {
    && |b| == |a| && off + len <= |a| && from + len <= |src|
    && forall i {:trigger b[i]} :: 0 <= i < |b| ==> b[i] == if off <= i < off + len then src[i - off + from] else a[i]
  }

  // Overlapping ranges are read before they are written.
  method Memcpy<E(!new)>(dst: array<E>, off: nat, src: array<E>, from: nat, len: nat)
    requires off + len <= dst.Length && from + len <= src.Length
    modifies dst
    ensures Copied(dst[..], old(dst[..]), off, old(src[..]), from, len)
  {
    forall i | 0 <= i < len { dst[off + i] := src[from + i]; }
    forall i | 0 <= i < dst.Length ensures dst[i] == if off <= i < off + len then old(src[i - off + from]) else old(dst[i]) {
      if off <= i < off + len { assert dst[off + (i - off)] == old(src[from + (i - off)]); }
    }
  }

  lemma ChunkEnds(p: Plan, s: nat, q: nat, count: nat)
    requires Ok(p) && Slot(s, q) + Pow2(s) < p.n
    requires count == if Pow2(s) <= p.n - (Slot(s, q) + Pow2(s)) then Pow2(s) else p.n - (Slot(s, q) + Pow2(s))
    ensures Place(s, q) + count <= NumSendBlocks(p, s)
    ensures Slot(s, q + 1) + Pow2(s) >= p.n ==> Place(s, q) + count == NumSendBlocks(p, s)
    ensures Slot(s, q + 1) + Pow2(s) < p.n ==> count == Pow2(s) && Place(s, q + 1) == Place(s, q) + count
    ensures count == Pow2(s) || Slot(s, q) + Pow2(s) + count == p.n
    ensures Slot(s, q + 1) == Slot(s, q) + 2 * Pow2(s)
  {
    hide Slot, Place, Packed;
    Intervals(s, q);
    PackedIs(s, q, Pow2(s) + count);
    PackedGrows(s, Slot(s, q) + Pow2(s) + count, p.n);
    if Slot(s, q + 1) + Pow2(s) >= p.n {
      if count == Pow2(s) { PackedIs(s, q + 1, p.n - Slot(s, q + 1)); }
    }
  }

  lemma Mul(a: nat, b: nat, m: nat)
    ensures (a + b) * m == a * m + b * m
  {
  }

  lemma FillIn<E(!new)>(p: Plan, s: nat, q: nat, count: nat, a: seq<E>, was: seq<E>, other: seq<E>, b: seq<E>)
    requires Ok(p) && count <= Pow2(s) && Slot(s, q) + Pow2(s) + count <= p.n && p.n * p.nelems <= |other|
    requires Filled(p, s, IN, Place(s, q), a, was, other)
    requires Copied(b, a, Place(s, q) * p.nelems, other, (Slot(s, q) + Pow2(s)) * p.nelems, count * p.nelems)
    ensures Filled(p, s, IN, Place(s, q) + count, b, was, other)
  {
    hide Slot, Place, Moved;
    var m := p.nelems;
    Mul(Place(s, q), count, m);
    Mul(Slot(s, q) + Pow2(s), count, m);
    forall i | 0 <= i < |b|
      ensures b[i] == if i < (Place(s, q) + count) * m then After(p, ShuffleKey(s, IN), 1, i, other, was[i]) else was[i]
    {
      if Place(s, q) * m <= i < (Place(s, q) + count) * m { ChunkIn(p, s, q, count, i); }
    }
  }

  // Which elements one interval's chunk concerns.
  lemma IntervalOut(p: Plan, s: nat, q: nat, count: nat, i: nat)
    requires Ok(p) && count <= Pow2(s) && Slot(s, q) + Pow2(s) + count <= p.n
    requires count == Pow2(s) || Slot(s, q) + Pow2(s) + count == p.n
    requires (Slot(s, q) + Pow2(s)) * p.nelems <= i < (Slot(s, q + 1) + Pow2(s)) * p.nelems
    ensures Moved(p, ShuffleKey(s, OUT), Cell(0, i))
            == if i < (Slot(s, q) + Pow2(s)) * p.nelems + count * p.nelems
               then Some(Cell(2, i - (Slot(s, q) + Pow2(s)) * p.nelems + Place(s, q) * p.nelems)) else None
  {
    hide Slot, Place, Moved, Pow2;
    Intervals(s, q);
    Mul(Slot(s, q) + Pow2(s), count, p.nelems);
    if i < (Slot(s, q) + Pow2(s) + count) * p.nelems {
      ChunkOut(p, s, q, count, i);
    } else if count == Pow2(s) {
      BetweenOut(p, s, q + 1, i);
    } else {
      BeyondOut(p, s, i);
    }
  }

  lemma FillOut<E(!new)>(p: Plan, s: nat, q: nat, count: nat, a: seq<E>, was: seq<E>, other: seq<E>, b: seq<E>)
    requires Ok(p) && count <= Pow2(s) && Slot(s, q) + Pow2(s) + count <= p.n
    requires count == Pow2(s) || Slot(s, q) + Pow2(s) + count == p.n
    requires Filled(p, s, OUT, Slot(s, q) + Pow2(s), a, was, other)
    requires Copied(b, a, (Slot(s, q) + Pow2(s)) * p.nelems, other, Place(s, q) * p.nelems, count * p.nelems)
    ensures Filled(p, s, OUT, Slot(s, q + 1) + Pow2(s), b, was, other)
  {
    hide Slot, Place, Moved, Pow2, After;
    Wider(s, q, count, p.nelems);
    forall i | 0 <= i < |b|
      ensures b[i] == if i < (Slot(s, q + 1) + Pow2(s)) * p.nelems then After(p, ShuffleKey(s, OUT), 0, i, other, was[i]) else was[i]
    {
      FillOutAt(p, s, q, count, a, was, other, b, i);
    }
  }

  lemma FillOutAt<E(!new)>(p: Plan, s: nat, q: nat, count: nat, a: seq<E>, was: seq<E>, other: seq<E>, b: seq<E>, i: nat)
    requires Ok(p) && count <= Pow2(s) && Slot(s, q) + Pow2(s) + count <= p.n && i < |b| == |a| == |was|
    requires count == Pow2(s) || Slot(s, q) + Pow2(s) + count == p.n
    requires a[i] == if i < (Slot(s, q) + Pow2(s)) * p.nelems then After(p, ShuffleKey(s, OUT), 0, i, other, was[i]) else was[i]
    requires Copied(b, a, (Slot(s, q) + Pow2(s)) * p.nelems, other, Place(s, q) * p.nelems, count * p.nelems)
    ensures b[i] == if i < (Slot(s, q + 1) + Pow2(s)) * p.nelems then After(p, ShuffleKey(s, OUT), 0, i, other, was[i]) else was[i]
  {
    hide Slot, Place, Moved, Pow2;
    Wider(s, q, count, p.nelems);
    if (Slot(s, q) + Pow2(s)) * p.nelems <= i < (Slot(s, q + 1) + Pow2(s)) * p.nelems { IntervalOut(p, s, q, count, i); }
  }

  lemma Wider(s: nat, q: nat, count: nat, m: nat)
    requires count <= Pow2(s)
    ensures (Slot(s, q) + Pow2(s)) * m + count * m <= (Slot(s, q + 1) + Pow2(s)) * m
  {
    hide Slot, Place;
    Intervals(s, q);
    Mul(Slot(s, q) + Pow2(s), count, m);
    Multiples(Slot(s, q) + Pow2(s) + count, Slot(s, q + 1) + Pow2(s), m);
  }

  lemma FillStart<E(!new)>(p: Plan, s: nat, was: seq<E>, other: seq<E>, was': seq<E>, other': seq<E>)
    requires Ok(p)
    ensures Filled(p, s, IN, Place(s, 0), was, was, other)
    ensures Filled(p, s, OUT, Slot(s, 0) + Pow2(s), was', was', other')
  {
    hide Moved;
    Intervals(s, 0);
    forall i | 0 <= i < |was'| && i < (Slot(s, 0) + Pow2(s)) * p.nelems
      ensures Moved(p, ShuffleKey(s, OUT), Cell(0, i)) == None
    {
      BetweenOut(p, s, 0, i);
    }
  }

  lemma FillEnd<E(!new)>(p: Plan, s: nat, way: nat, limit: nat, a: seq<E>, was: seq<E>, other: seq<E>)
    requires Ok(p) && Filled(p, s, way, limit, a, was, other)
    requires (way == IN && limit >= NumSendBlocks(p, s)) || (way == OUT && limit >= p.n)
    ensures forall i :: 0 <= i < |a| ==> a[i] == After(p, ShuffleKey(s, way), if way == IN then 1 else 0, i, other, was[i])
  {
    hide Moved;
    Multiples(if way == IN then NumSendBlocks(p, s) else p.n, limit, p.nelems);
    forall i | 0 <= i < |a|
      ensures a[i] == After(p, ShuffleKey(s, way), if way == IN then 1 else 0, i, other, was[i])
    {
      if i >= limit * p.nelems {
        if way == IN { BeyondIn(p, s, i); } else { BeyondOut(p, s, i); }
      }
    }
  }

  lemma Room(p: Plan, s: nat, q: nat, count: nat, tmpLength: nat, mainLength: nat)
    requires Ok(p) && Slot(s, q) + Pow2(s) + count <= p.n && Place(s, q) + count <= NumSendBlocks(p, s)
    requires NumSendBlocks(p, s) * p.nelems <= tmpLength && p.n * p.nelems <= mainLength
    ensures Place(s, q) * p.nelems + count * p.nelems <= tmpLength
    ensures (Slot(s, q) + Pow2(s)) * p.nelems + count * p.nelems <= mainLength
  {
    hide Slot, Place, Packed;
    Mul(Place(s, q), count, p.nelems);
    Mul(Slot(s, q) + Pow2(s), count, p.nelems);
    Multiples(Place(s, q) + count, NumSendBlocks(p, s), p.nelems);
    Multiples(Slot(s, q) + Pow2(s) + count, p.n, p.nelems);
  }

  // shuffle: packs the moving slots of mainBuf into tmpBuf, or unpacks them.
  method Shuffle<E(!new)>(p: Plan, ghost s: nat, gap: nat, tmpBuf: array<E>, mainBuf: array<E>, copyToTemp: bool)
    requires Ok(p) && s < Rounds(p) && gap == Pow2(s) < p.n && tmpBuf != mainBuf
    requires NumSendBlocks(p, s) * p.nelems <= tmpBuf.Length && p.n * p.nelems <= mainBuf.Length
    modifies tmpBuf, mainBuf
    ensures if copyToTemp then mainBuf[..] == old(mainBuf[..]) else tmpBuf[..] == old(tmpBuf[..])
    ensures copyToTemp ==> forall i :: 0 <= i < tmpBuf.Length ==>
              tmpBuf[i] == After(p, ShuffleKey(s, IN), 1, i, old(mainBuf[..]), old(tmpBuf[i]))
    ensures !copyToTemp ==> forall i :: 0 <= i < mainBuf.Length ==>
              mainBuf[i] == After(p, ShuffleKey(s, OUT), 0, i, old(tmpBuf[..]), old(mainBuf[i]))
  {
    hide Slot, Place, Packed, Moved, Filled, Copied, After, Pow2, Rounds, NumSendBlocks, ShuffleKey;
    ghost var tmp0, main0 := tmpBuf[..], mainBuf[..];
    ghost var q, limit: nat := 0, 0;
    var tmpBlock, mainBlock := 0, gap;
    Intervals(s, 0);
    FillStart(p, s, tmp0, main0, main0, tmp0);
    while mainBlock < p.n
      invariant mainBlock == Slot(s, q) + gap && tmpBlock == Place(s, q)
      invariant mainBlock < p.n ==> limit == tmpBlock
      invariant mainBlock >= p.n ==> limit == NumSendBlocks(p, s)
      invariant copyToTemp ==> mainBuf[..] == main0 && Filled(p, s, IN, limit, tmpBuf[..], tmp0, main0)
      invariant !copyToTemp ==> tmpBuf[..] == tmp0 && Filled(p, s, OUT, mainBlock, mainBuf[..], main0, tmp0)
      decreases p.n - mainBlock
    {
      var remainingBlocks := p.n - mainBlock;
      var numCopyBlocks := if gap <= remainingBlocks then gap else remainingBlocks;
      ChunkEnds(p, s, q, numCopyBlocks);
      Room(p, s, q, numCopyBlocks, tmpBuf.Length, mainBuf.Length);
      var copySize := numCopyBlocks * p.nelems;
      if copyToTemp {
        ghost var a := tmpBuf[..];
        Memcpy(tmpBuf, tmpBlock * p.nelems, mainBuf, mainBlock * p.nelems, copySize);
        FillIn(p, s, q, numCopyBlocks, a, tmp0, main0, tmpBuf[..]);
      } else {
        ghost var a := mainBuf[..];
        Memcpy(mainBuf, mainBlock * p.nelems, tmpBuf, tmpBlock * p.nelems, copySize);
        FillOut(p, s, q, numCopyBlocks, a, main0, tmp0, mainBuf[..]);
      }
      Intervals(s, q);
      q, limit := q + 1, tmpBlock + numCopyBlocks;
      tmpBlock, mainBlock := tmpBlock + gap, mainBlock + 2 * gap;
    }
    if copyToTemp {
      FillEnd(p, s, IN, limit, tmpBuf[..], tmp0, main0);
    } else {
      FillEnd(p, s, OUT, mainBlock, mainBuf[..], main0, tmp0);
    }
  }

  // What the DAG says of its shuffles.
  lemma ShuffleIs(p: Plan, r: nat, k: Key)
    requires Ok(p) && r < p.n && k in RankDag(p, r).acts && k.kind.Shuffle?
    ensures k.round < Rounds(p) && (k == ShuffleKey(k.round, IN) || k == ShuffleKey(k.round, OUT))
    ensures var ac := RankDag(p, r).acts[k];
            ac.ShuffleAction? && ac.Id() == k && ac.offset == Pow2(k.round) < p.n && ac.nelems == NumSendBlocks(p, k.round) * p.nelems
  {
    var _ := Gap(p, k.round);
  }

  // A shuffle's nelems are the elements it moves: it fills just the first nelems of
  // the send workspace.
  lemma ShuffleSize(p: Plan, r: nat, k: Key, i: nat)
    requires Ok(p) && r < p.n && k in RankDag(p, r).acts && k.kind.Shuffle? && k.partner == IN
    ensures Moved(p, k, Cell(1, i)).Some? <==> i < RankDag(p, r).acts[k].nelems
  {
    ShuffleIs(p, r, k);
    var m := p.nelems;
    if m > 0 { InBlocks(i, m, NumSendBlocks(p, k.round)); }
  }

  lemma InBlocks(i: nat, m: nat, b: nat)
    requires m > 0
    ensures i / m < b <==> i < b * m
  {
    var q := i / m;
    assert i == q * m + i % m;
    if q < b { Multiples(q + 1, b, m); } else { Multiples(b, q, m); }
  }

  // startShuffle: for every shuffle action of a rank's DAG, the loop run with that
  // action's own offset moves what the schedule says, and nothing else.
  method StartShuffle<E(!new)>(p: Plan, ghost r: nat, ghost k: Key, ac: Action, sendBuffer: array<E>, recvBuffer: array<E>,
                               resultBuffer: array<E>)
    requires Ok(p) && r < p.n && k in RankDag(p, r).acts && k.kind.Shuffle? && ac == RankDag(p, r).acts[k]
    requires sendBuffer != resultBuffer && recvBuffer != resultBuffer && sendBuffer != recvBuffer
    requires sendBuffer.Length == recvBuffer.Length == Pow2(Rounds(p) - 1) * p.nelems && resultBuffer.Length == p.n * p.nelems
    modifies sendBuffer, recvBuffer, resultBuffer
    ensures recvBuffer[..] == old(recvBuffer[..])
    ensures k.partner == IN ==>
              resultBuffer[..] == old(resultBuffer[..]) &&
              forall i :: 0 <= i < sendBuffer.Length ==>
                sendBuffer[i] == After(p, k, 1, i, old(resultBuffer[..]), old(sendBuffer[i]))
    ensures k.partner != IN ==>
              sendBuffer[..] == old(sendBuffer[..]) &&
              forall i :: 0 <= i < resultBuffer.Length ==>
                resultBuffer[i] == After(p, k, 0, i, old(recvBuffer[..]), old(resultBuffer[i]))
  {
    hide After, Moved, RankDag, Packed;
    ShuffleIs(p, r, k);
    FitsWorkspace(p, k.round);
    Multiples(NumSendBlocks(p, k.round), Pow2(Rounds(p) - 1), p.nelems);
    if ac.partner == IN {
      Shuffle(p, k.round, ac.offset, sendBuffer, resultBuffer, true);
    } else {
      Shuffle(p, k.round, ac.offset, recvBuffer, resultBuffer, false);
    }
  }

  // ---------- initBuffers and finalize ----------

  // What two copies leave that rotate `was` by offset; in one buffer, the second
  // copy reads what the first has overwritten.
  ghost predicate Spun<E(!new)>(inPlace: bool, now: seq<E>, was: seq<E>, offset: nat) {
    && |now| == |was| && offset <= |was|
    && forall i {:trigger now[i]} :: 0 <= i < |now| ==>
         now[i] == if i + offset < |was| then was[i + offset]
                   else if inPlace && i + 2 * offset < 2 * |was| then was[i + 2 * offset - |was|]
                   else was[i + offset - |was|]
  }

  method RotateBy<E(!new)>(dst: array<E>, src: array<E>, offset: nat)
    requires offset <= dst.Length == src.Length
    modifies dst
    ensures Spun(dst == src, dst[..], old(src[..]), offset)
  {
    hide Copied, Spun;
    var copySize := dst.Length - offset;
    ghost var first, was := dst[..], src[..];
    Memcpy(dst, 0, src, offset, copySize);
    ghost var mid, left := dst[..], src[..];
    Memcpy(dst, copySize, src, 0, offset);
    TwoCopies(dst == src, offset, first, was, mid, left, dst[..]);
  }

  lemma TwoCopies<E(!new)>(inPlace: bool, offset: nat, first: seq<E>, was: seq<E>, mid: seq<E>, left: seq<E>, now: seq<E>)
    requires offset <= |was| == |left| == |first| && left == (if inPlace then mid else was) && (inPlace ==> first == was)
    requires Copied(mid, first, 0, was, offset, |was| - offset) && Copied(now, mid, |was| - offset, left, 0, offset)
    ensures Spun(inPlace, now, was, offset)
  {
    forall i | 0 <= i < |now|
      ensures now[i] == if i + offset < |was| then was[i + offset]
                        else if inPlace && i + 2 * offset < 2 * |was| then was[i + 2 * offset - |was|]
                        else was[i + offset - |was|]
    {
      assert mid[i] == mid[i];
      if i + offset >= |was| { assert left[i + offset - |was|] == left[i + offset - |was|]; }
    }
  }

  // Where the element comes from that initBuffers leaves at index i in one buffer.
  function InPlaceFrom(p: Plan, me: nat, i: int): int {
    var offset, total := me * p.nelems, p.n * p.nelems;
    if i + offset < total then i + offset
    else if i + 2 * offset < 2 * total then i + 2 * offset - total
    else i + offset - total
  }

  lemma SpunIs<E(!new)>(p: Plan, me: nat, inPlace: bool, now: seq<E>, was: seq<E>, i: nat)
    requires me < p.n && i < |now| == |was| == p.n * p.nelems && Spun(inPlace, now, was, me * p.nelems)
    ensures var from := if inPlace then InPlaceFrom(p, me, i) else Home(p, me, i);
            0 <= from < |was| && now[i] == was[from]
  {
    assert now[i] == now[i];
  }

  // initBuffers: two copies rotate the caller's blocks into the result buffer.
  method InitBuffers<E(!new)>(p: Plan, me: nat, dst: array<E>, src: array<E>)
    requires Ok(p) && me < p.n && dst.Length == src.Length == p.n * p.nelems
    modifies dst
    ensures forall i :: 0 <= i < dst.Length ==> 0 <= (if dst == src then InPlaceFrom(p, me, i) else Home(p, me, i)) < src.Length
    ensures forall i :: 0 <= i < dst.Length ==> dst[i] == old(src[if dst == src then InPlaceFrom(p, me, i) else Home(p, me, i)])
  {
    hide Spun, InPlaceFrom, Home;
    Multiples(me, p.n, p.nelems);
    ghost var was := src[..];
    RotateBy(dst, src, me * p.nelems);
    forall i | 0 <= i < dst.Length
      ensures var from := if dst == src then InPlaceFrom(p, me, i) else Home(p, me, i);
              0 <= from < |was| && dst[i] == was[from]
    {
      SpunIs(p, me, dst == src, dst[..], was, i);
    }
  }

  // The caller's blocks are rotated as intended, whatever they are.
  ghost predicate InPlaceRight(p: Plan, me: nat) {
    forall was: seq<int>, i :: |was| == p.n * p.nelems && 0 <= i < |was| ==>
      0 <= InPlaceFrom(p, me, i) < |was| && 0 <= Home(p, me, i) < |was| && was[InPlaceFrom(p, me, i)] == was[Home(p, me, i)]
  }

  // In place that is so exactly at rank 0, or with empty blocks: any other rank
  // loses its first block.
  lemma InPlaceExactly(p: Plan, me: nat)
    requires Ok(p) && me < p.n
    ensures InPlaceRight(p, me) <==> me == 0 || p.nelems == 0
  {
    Multiples(me, p.n, p.nelems);
    if me > 0 && p.nelems > 0 {
      Multiples(me + 1, p.n, p.nelems);
      Multiples(1, me, p.nelems);
      var was := seq(p.n * p.nelems, i => i);
      var i := p.n * p.nelems - me * p.nelems;
      assert Home(p, me, i) == 0 && InPlaceFrom(p, me, i) == me * p.nelems > 0;
      assert was[InPlaceFrom(p, me, i)] != was[Home(p, me, i)];
    }
  }

  lemma BelowTwice(n: nat, r: nat, b: nat)
    requires r < n && b < n
    ensures Below(n, r, b) < n && Below(n, r, Below(n, r, b)) == b
  {
  }

  // The elements of the blocks whose slot is below i are in place.
  ghost predicate Ordered<E(!new)>(p: Plan, me: nat, i: nat, tmp: seq<E>, result: seq<E>)
    requires Ok(p) && me < p.n && |tmp| == |result| == p.n * p.nelems
  {
    forall x {:trigger tmp[x]} :: 0 <= x < |tmp| && SlotOf(p, me, x) < i * p.nelems ==>
      0 <= SlotOf(p, me, x) < |result| && tmp[x] == result[SlotOf(p, me, x)]
  }

  lemma SlotOfIs(p: Plan, me: nat, i: nat, x: nat)
    requires Ok(p) && me < p.n && i < p.n && x < p.n * p.nelems
    ensures p.nelems > 0 && x / p.nelems < p.n
    ensures SlotOf(p, me, x) == Below(p.n, me, x / p.nelems) * p.nelems + x % p.nelems
    ensures 0 <= SlotOf(p, me, x) < p.n * p.nelems
    ensures SlotOf(p, me, x) < i * p.nelems <==> Below(p.n, me, x / p.nelems) < i
    ensures x / p.nelems == Below(p.n, me, i) <==> Below(p.n, me, i) * p.nelems <= x < Below(p.n, me, i) * p.nelems + p.nelems
    ensures x == x / p.nelems * p.nelems + x % p.nelems
  {
    var m, dst := p.nelems, Below(p.n, me, i);
    assert 0 * m == 0;
    InRange(x, m, 0, p.n);
    var b, e := Below(p.n, me, x / m), x % m;
    ElemBelow(p, b, e, p.n);
    if b < i { ElemBelow(p, b, e, i); } else { Multiples(i, b, m); }
    if dst * m <= x < dst * m + m { Multiples(dst, dst, m); BlockOf(x, m, dst); }
  }

  lemma OneMoreBlock<E(!new)>(p: Plan, me: nat, i: nat, a: seq<E>, b: seq<E>, result: seq<E>)
    requires Ok(p) && me < p.n && i < p.n && |a| == |result| == p.n * p.nelems && Ordered(p, me, i, a, result)
    requires Copied(b, a, Below(p.n, me, i) * p.nelems, result, i * p.nelems, p.nelems)
    ensures Ordered(p, me, i + 1, b, result)
  {
    hide Below, SlotOf;
    var dst := Below(p.n, me, i);
    forall x | 0 <= x < |b| && SlotOf(p, me, x) < (i + 1) * p.nelems
      ensures 0 <= SlotOf(p, me, x) < |result| && b[x] == result[SlotOf(p, me, x)]
    {
      NextSlot(p, me, i, x);
    }
  }

  // An element of the first i + 1 slots is in slot i, whose block goes to block
  // Below(n, me, i), or in one of the first i.
  lemma NextSlot(p: Plan, me: nat, i: nat, x: nat)
    requires Ok(p) && me < p.n && i < p.n && x < p.n * p.nelems && SlotOf(p, me, x) < (i + 1) * p.nelems
    ensures var from := Below(p.n, me, i) * p.nelems;
            && 0 <= SlotOf(p, me, x) < p.n * p.nelems
            && if from <= x < from + p.nelems then SlotOf(p, me, x) == x - from + i * p.nelems else SlotOf(p, me, x) < i * p.nelems
  {
    hide Below, SlotOf;
    var m := p.nelems;
    var q := x / m;
    SlotOfIs(p, me, i, x);
    BelowTwice(p.n, me, i);
    BelowTwice(p.n, me, q);
    if Below(p.n, me, q) > i {
      Multiples(i + 1, Below(p.n, me, q), m);
    }
  }

  // One turn of finalize's loop.
  method MoveBlock<E(!new)>(p: Plan, me: nat, i: nat, tmp: array<E>, result: array<E>)
    requires Ok(p) && me < p.n && i < p.n && tmp != result && tmp.Length == result.Length == p.n * p.nelems
    requires Ordered(p, me, i, tmp[..], result[..])
    modifies tmp
    ensures Ordered(p, me, i + 1, tmp[..], result[..])
  {
    hide Below, SlotOf, Ordered, Copied, Wrap;
    RingIs(p.n, me, i);
    var dstIndex := Wrap(me + p.n - i, p.n);
    ElemsFit(p, i);
    ElemsFit(p, dstIndex);
    Memcpy(tmp, dstIndex * p.nelems, result, i * p.nelems, p.nelems);
    OneMoreBlock(p, me, i, old(tmp[..]), tmp[..], result[..]);
  }

  // finalize: through a temporary buffer, block by block.
  method Finalize<E(!new)>(p: Plan, me: nat, result: array<E>)
    requires Ok(p) && me < p.n && result.Length == p.n * p.nelems
    modifies result
    ensures forall x :: 0 <= x < result.Length ==>
              0 <= SlotOf(p, me, x) < result.Length && result[x] == old(result[SlotOf(p, me, x)])
  {
    hide Below, SlotOf, Ordered, Copied;
    var totalSize := p.n * p.nelems;
    ghost var was := result[..];
    var tmp := CopyOf(result);
    OrderedAtFirst(p, me, tmp[..], was);
    for i := 0 to p.n
      invariant result[..] == was && tmp.Length == totalSize && tmp != result
      invariant Ordered(p, me, i, tmp[..], was)
    {
      MoveBlock(p, me, i, tmp, result);
    }
    Memcpy(result, 0, tmp, 0, totalSize);
    AllOrdered(p, me, tmp[..], was, result[..]);
  }

  // The temporary buffer; what it holds at first does not matter.
  method CopyOf<E(!new)>(a: array<E>) returns (b: array<E>)
    ensures fresh(b) && b.Length == a.Length
  {
    b := new E[a.Length](i requires 0 <= i < a.Length reads a => a[i]);
  }

  lemma ElemsFit(p: Plan, b: nat)
    requires b < p.n
    ensures b * p.nelems + p.nelems <= p.n * p.nelems
  {
    Mul(b, 1, p.nelems);
    Multiples(b + 1, p.n, p.nelems);
  }

  lemma OrderedAtFirst<E(!new)>(p: Plan, me: nat, tmp: seq<E>, result: seq<E>)
    requires Ok(p) && me < p.n && |tmp| == |result| == p.n * p.nelems
    ensures Ordered(p, me, 0, tmp, result)
  {
    forall x | 0 <= x < |tmp| ensures SlotOf(p, me, x) >= 0 { SlotOfIs(p, me, 0, x); }
  }

  lemma AllOrdered<E(!new)>(p: Plan, me: nat, tmp: seq<E>, was: seq<E>, now: seq<E>)
    requires Ok(p) && me < p.n && |tmp| == |was| == p.n * p.nelems && Ordered(p, me, p.n, tmp, was)
    requires Copied(now, was, 0, tmp, 0, p.n * p.nelems)
    ensures forall x :: 0 <= x < |now| ==> 0 <= SlotOf(p, me, x) < |was| && now[x] == was[SlotOf(p, me, x)]
  {
    hide SlotOf;
    forall x | 0 <= x < |now| ensures 0 <= SlotOf(p, me, x) < |was| && now[x] == was[SlotOf(p, me, x)] {
      SlotOfIs(p, me, 0, x);
      assert tmp[x] == now[x];
    }
  }
}
