// Allgatherv, allgather, barrier, all-to-all, gather and broadcast from end to
// end: buffers are set up, every rank's actor is built, and any sequence of events
// is let happen.
module RunGathers {
  import opened Actions
  import opened Protocol
  import opened Schedule
  import opened Engine
  import opened Scenes
  import opened Worlds
  import opened Launches
  import opened Teams
  import B = Bruck
  import BruckDag
  import BruckProof
  import Gathers
  import A = Alltoall
  import AlltoallProof
  import AlltoallBuffers
  import AI = AlltoallInPlace
  import G = Gather
  import GatherDag
  import GatherProof
  import C = Bcast

  // The beginning of every rank's buffer is the rank's own block.
  ghost predicate Fronts<E(!new)>(held: seq<seq<E>>, sends: seq<seq<E>>) {
    |held| == |sends| && forall r: nat {:trigger held[r]} :: r < |held| ==> sends[r] <= held[r]
  }

  lemma FrontIs<E(!new)>(held: seq<seq<E>>, sends: seq<seq<E>>, blank: E, r: nat, e: nat)
    requires Fronts(held, sends) && r < |sends| && e < |sends[r]|
    ensures Initial(held, blank)(r, Cell(0, e)) == sends[r][e]
  {
    assert sends[r] <= held[r];
  }

  // ---------- allgatherv, allgather, barrier ----------

  // Where a rank's send pointer points: to a buffer of its own, to the result
  // buffer, or to the rank's own block in the result buffer.
  datatype Source = Separate | Same | OwnBlock

  // Unless separate, the rank's block is at its displacement in the result buffer.
  method PlaceBlock<E(==,!new)>(p: B.Plan, r: nat, send: seq<E>, source: Source, blank: E) returns (held: seq<E>)
    requires B.Ok(p) && r < p.n && |send| == p.counts[r]
    ensures send <= held
  {
    B.DispGrows(p.counts, r + 1, p.n);
    var off, total := B.Disp(p.counts, r), B.Disp(p.counts, p.n);
    var dst := new E[total](i requires i >= 0 => if off <= i < off + |send| then send[i - off] else blank);
    assert dst[off..off + |send|] == send;
    var src, from := dst, if source.OwnBlock? then off else 0;
    if source.Separate? {
      src := new E[|send|](i requires 0 <= i < |send| => send[i]);
      assert src[..|send|] == send;
    }
    BruckDag.InitBuffers(dst, src, from, r, off, |send|);
    held := dst[..];
    assert held[..|send|] == dst[..|send|];
  }

  method PlaceBlocks<E(==,!new)>(p: B.Plan, sends: seq<seq<E>>, source: Source, blank: E) returns (held: seq<seq<E>>)
    requires B.Ok(p) && |sends| == p.n && forall r :: 0 <= r < p.n ==> |sends[r]| == p.counts[r]
    ensures Fronts(held, sends)
  {
    held := [];
    for r := 0 to p.n
      invariant |held| == r && forall q: nat {:trigger held[q]} :: q < r ==> sends[q] <= held[q]
    {
      var buf := PlaceBlock(p, r, sends[r], source, blank);
      held := held + [buf];
    }
  }

  method AllgathervTeam<E(==,!new)>(cfg: Config<E>, ghost op: (E, E) -> E, ghost init: (nat, Cell) -> E, ghost ue: nat -> bool,
                                    ghost ug: bool, p: B.Plan) returns (actors: seq<DagCollectiveActor<E>>)
    requires B.Ok(p) && !p.gap && cfg == B.Cfg(p, op, init, ue, ug)
    ensures fresh(actors) && Team(cfg, actors) && |actors| == p.n
  {
    hide Prepared;
    var counts := new nat[p.n](i requires 0 <= i < p.n => p.counts[i]);
    assert counts[..] == p.counts;
    actors := [];
    for r := 0 to p.n
      invariant |actors| == r && Team(cfg, actors) && fresh(actors) && counts[..] == p.counts
    {
      var actor := BuildAllgatherv(cfg, op, init, ue, ug, p, counts, r);
      actors := actors + [actor];
    }
  }

  lemma BlockOutcome<E(!new)>(w: World<E>, p: B.Plan, op: (E, E) -> E, held: seq<seq<E>>, sends: seq<seq<E>>,
                              ue: nat -> bool, ug: bool, blank: E, r: nat, q: nat, e: nat)
    requires B.Ok(p) && |sends| == p.n && w.Valid() && w.cfg == B.Cfg(p, op, Initial(held, blank), ue, ug) && Fronts(held, sends)
    requires r < p.n && q < p.n && e < |sends[q]| == p.counts[q] && |w.actors| == p.n && w.actors[r].complete
    ensures w.actors[r].mem(Cell(0, B.Disp(p.counts, q) + e)) == sends[q][e]
  {
    hide Called, AllPlay, Shaped, IsRun, After, Fronts, Initial;
    assert w.cfg.n == p.n;
    w.Outcome(r);
    Gathers.AllgathervCorrect(p, op, Initial(held, blank), ue, ug, w.cfg, w.steps, r, q, e);
    FrontIs(held, sends, blank, q, e);
  }

  // Every actor that has completed holds all blocks, packed in rank order.
  ghost predicate Packed<E(!new)>(w: World<E>, p: B.Plan, sends: seq<seq<E>>)
    requires B.Ok(p)
    reads w, w.actors
  {
    && |w.actors| == |sends| == p.n
    && forall r: nat, q: nat, e: nat :: r < p.n && q < p.n && e < |sends[q]| && w.actors[r].complete ==>
         w.actors[r].mem(Cell(0, B.Disp(p.counts, q) + e)) == sends[q][e]
  }

  lemma AllPacked<E(!new)>(w: World<E>, p: B.Plan, op: (E, E) -> E, held: seq<seq<E>>, sends: seq<seq<E>>,
                           ue: nat -> bool, ug: bool, blank: E)
    requires B.Ok(p) && |sends| == p.n && w.Valid() && w.cfg == B.Cfg(p, op, Initial(held, blank), ue, ug) && Fronts(held, sends)
    requires |w.actors| == p.n && forall q :: 0 <= q < p.n ==> |sends[q]| == p.counts[q]
    ensures Packed(w, p, sends)
  {
    hide Called, AllPlay, Shaped, IsRun, After, Fronts, Initial, B.Disp;
    forall r: nat, q: nat, e: nat | r < p.n && q < p.n && e < |sends[q]| && w.actors[r].complete
      ensures w.actors[r].mem(Cell(0, B.Disp(p.counts, q) + e)) == sends[q][e]
    {
      BlockOutcome(w, p, op, held, sends, ue, ug, blank, r, q, e);
    }
  }

  // Allgatherv, whatever happens.
  method Allgatherv<E(==,!new)>(p: B.Plan, sends: seq<seq<E>>, source: Source, op: (E, E) -> E, ue: nat -> bool, ug: bool,
                                blank: E, events: seq<Event<E>>) returns (w: World<E>)
    requires B.Ok(p) && !p.gap && |sends| == p.n && forall r :: 0 <= r < p.n ==> |sends[r]| == p.counts[r]
    ensures fresh(w) && Ran(w, events) && Completable(w.cfg) && Selected(w.cfg, p.n, ue, ug)
    ensures Packed(w, p, sends)
  {
    hide Called, AllPlay, Matched, Timed, Stuck, Finished, Completable, Ran, Initial, Fronts, Packed, RaceFree, ScratchOk;
    var held := PlaceBlocks(p, sends, source, blank);
    var cfg := B.Cfg(p, op, Initial(held, blank), ue, ug);
    Gathers.WellFormedPlan(p, cfg, op, Initial(held, blank), ue, ug);
    var actors := AllgathervTeam(cfg, op, Initial(held, blank), ue, ug, p);
    w := RunTeam(cfg, actors, events);
    RanWell(w, events);
    AllPacked(w, p, op, held, sends, ue, ug, blank);
  }

  method AllgatherTeam<E(==,!new)>(cfg: Config<E>, ghost op: (E, E) -> E, ghost init: (nat, Cell) -> E, ghost ue: nat -> bool,
                                   ghost ug: bool, n: nat, nelems: nat) returns (actors: seq<DagCollectiveActor<E>>)
    requires n >= 2 && cfg == B.Cfg(Gathers.EvenPlan(n, nelems), op, init, ue, ug)
    ensures fresh(actors) && Team(cfg, actors) && |actors| == n
  {
    hide Prepared;
    actors := [];
    for r := 0 to n
      invariant |actors| == r && Team(cfg, actors) && fresh(actors)
    {
      var actor := BuildAllgather(cfg, op, init, ue, ug, n, nelems, r);
      actors := actors + [actor];
    }
  }

  // No actor has completed unless every rank was told to call.
  ghost predicate Synchronized<E(!new)>(w: World<E>, events: seq<Event<E>>)
    reads w, w.actors
  {
    forall r: nat, q: nat {:trigger w.actors[r], Event<E>.Call(q)} ::
      r < |w.actors| && q < |w.actors| && w.actors[r].complete ==> Event<E>.Call(q) in events
  }

  lemma AllCalled<E(!new)>(w: World<E>, p: B.Plan, op: (E, E) -> E, init: (nat, Cell) -> E, ue: nat -> bool, ug: bool,
                           events: seq<Event<E>>)
    requires B.Ok(p) && w.Valid() && w.cfg == B.Cfg(p, op, init, ue, ug) && |w.actors| == p.n
    requires w.live == set r: nat | r < w.cfg.n && Event<E>.Call(r) in events
    ensures Synchronized(w, events)
  {
    hide AllPlay, Shaped, IsRun, After;
    assert w.cfg.n == p.n;
    forall r: nat, q: nat | r < p.n && q < p.n && w.actors[r].complete ensures Event<E>.Call(q) in events {
      w.Outcome(r);
      Gathers.BarrierSafe(p, op, init, ue, ug, w.cfg, w.steps, r, q);
    }
  }

  // Allgather, and barrier when nelems is 0, whatever happens.
  method Allgather<E(==,!new)>(n: nat, nelems: nat, sends: seq<seq<E>>, source: Source, op: (E, E) -> E, ue: nat -> bool, ug: bool,
                               blank: E, events: seq<Event<E>>) returns (w: World<E>)
    requires n >= 2 && |sends| == n && forall r :: 0 <= r < n ==> |sends[r]| == nelems
    ensures fresh(w) && Ran(w, events) && Completable(w.cfg) && Selected(w.cfg, n, ue, ug)
    ensures Packed(w, Gathers.EvenPlan(n, nelems), sends) && Synchronized(w, events)
  {
    hide Called, AllPlay, Matched, Timed, Stuck, Finished, Completable, Ran, Initial, Fronts, Packed, Synchronized;
    hide RaceFree, ScratchOk;
    var p := Gathers.EvenPlan(n, nelems);
    var held := PlaceBlocks(p, sends, source, blank);
    var cfg := B.Cfg(p, op, Initial(held, blank), ue, ug);
    Gathers.WellFormedPlan(p, cfg, op, Initial(held, blank), ue, ug);
    var actors := AllgatherTeam(cfg, op, Initial(held, blank), ue, ug, n, nelems);
    w := RunTeam(cfg, actors, events);
    RanWell(w, events);
    AllPacked(w, p, op, held, sends, ue, ug, blank);
    AllCalled(w, p, op, Initial(held, blank), ue, ug, events);
  }

  // ---------- gather ----------

  // In place, the root's block is at its place in the result buffer.
  method PlaceGather<E(==,!new)>(p: G.Plan, r: nat, midpoint: nat, send: seq<E>, inPlace: bool, blank: E) returns (held: seq<E>)
    requires G.Ok(p) && r < p.n && midpoint == G.Mid(p) && |send| == p.nelems
    ensures send <= held
  {
    GatherDag.OwnBlockFits(p, r);
    var off := r * p.nelems;
    var dst := new E[p.n * p.nelems](i requires i >= 0 => if off <= i < off + p.nelems then send[i - off] else blank);
    assert dst[off..off + p.nelems] == send;
    var src, from := dst, off;
    if !(inPlace && r == p.root) {
      src, from := new E[p.nelems](i requires 0 <= i < p.nelems => send[i]), 0;
      assert src[..p.nelems] == send;
    }
    var buf := GatherDag.InitBuffers(p, r, midpoint, dst, src, from, _ => blank);
    held := buf[..];
    assert held[..p.nelems] == buf[..p.nelems];
  }

  method PlaceGathers<E(==,!new)>(p: G.Plan, sends: seq<seq<E>>, inPlace: bool, blank: E) returns (held: seq<seq<E>>)
    requires G.Ok(p) && |sends| == p.n && forall r :: 0 <= r < p.n ==> |sends[r]| == p.nelems
    ensures Fronts(held, sends)
  {
    var _, midpoint := GatherDag.InitTree(p);
    held := [];
    for r := 0 to p.n
      invariant |held| == r && forall q: nat {:trigger held[q]} :: q < r ==> sends[q] <= held[q]
    {
      var buf := PlaceGather(p, r, midpoint, sends[r], inPlace, blank);
      held := held + [buf];
    }
  }

  method GatherTeam<E(==,!new)>(cfg: Config<E>, ghost op: (E, E) -> E, ghost init: (nat, Cell) -> E, ghost ue: nat -> bool,
                                ghost ug: bool, p: G.Plan) returns (actors: seq<DagCollectiveActor<E>>)
    requires G.Ok(p) && cfg == G.Cfg(p, op, init, ue, ug)
    ensures fresh(actors) && Team(cfg, actors) && |actors| == p.n
  {
    hide Prepared;
    actors := [];
    for r := 0 to p.n
      invariant |actors| == r && Team(cfg, actors) && fresh(actors)
    {
      var actor := BuildGather(cfg, op, init, ue, ug, p, r);
      actors := actors + [actor];
    }
  }

  lemma GatherOutcome<E(!new)>(w: World<E>, p: G.Plan, op: (E, E) -> E, held: seq<seq<E>>, sends: seq<seq<E>>,
                               ue: nat -> bool, ug: bool, blank: E, q: nat, e: nat)
    requires G.Ok(p) && |sends| == p.n && w.Valid() && w.cfg == G.Cfg(p, op, Initial(held, blank), ue, ug) && Fronts(held, sends)
    requires q < p.n && e < |sends[q]| == p.nelems && |w.actors| == p.n && w.actors[p.root].complete
    ensures w.actors[p.root].mem(Cell(0, q * p.nelems + e)) == sends[q][e]
  {
    hide Called, AllPlay, Shaped, IsRun, After, Fronts, Initial;
    assert w.cfg.n == p.n;
    w.Outcome(p.root);
    GatherProof.GatherCorrect(p, op, Initial(held, blank), ue, ug, w.cfg, w.steps, q, e);
    FrontIs(held, sends, blank, q, e);
  }

  // Gather: a root that has completed holds all blocks in rank order.
  method Gather<E(==,!new)>(p: G.Plan, sends: seq<seq<E>>, inPlace: bool, op: (E, E) -> E, ue: nat -> bool, ug: bool, blank: E,
                            events: seq<Event<E>>) returns (w: World<E>)
    requires G.Ok(p) && |sends| == p.n && forall r :: 0 <= r < p.n ==> |sends[r]| == p.nelems
    ensures fresh(w) && |w.actors| == p.n && Ran(w, events) && Completable(w.cfg) && Selected(w.cfg, p.n, ue, ug)
    ensures forall q: nat, e: nat :: q < p.n && e < p.nelems && w.actors[p.root].complete ==>
              w.actors[p.root].mem(Cell(0, q * p.nelems + e)) == sends[q][e]
  {
    hide Called, AllPlay, Matched, Timed, Stuck, Finished, Completable, Ran, Initial, Fronts, RaceFree, ScratchOk;
    var held := PlaceGathers(p, sends, inPlace, blank);
    var cfg := G.Cfg(p, op, Initial(held, blank), ue, ug);
    GatherProof.CfgFollows(p, op, Initial(held, blank), ue, ug);
    GatherProof.GatherWellFormed(p, cfg);
    var actors := GatherTeam(cfg, op, Initial(held, blank), ue, ug, p);
    w := RunTeam(cfg, actors, events);
    RanWell(w, events);
    forall q: nat, e: nat | q < p.n && e < p.nelems && w.actors[p.root].complete
      ensures w.actors[p.root].mem(Cell(0, q * p.nelems + e)) == sends[q][e]
    {
      GatherOutcome(w, p, op, held, sends, ue, ug, blank, q, e);
    }
  }

  // ---------- broadcast ----------

  method BcastTeam<E(==,!new)>(cfg: Config<E>, ghost op: (E, E) -> E, ghost init: (nat, Cell) -> E, ghost ue: nat -> bool,
                               ghost ug: bool, p: C.Plan) returns (actors: seq<DagCollectiveActor<E>>)
    requires C.Ok(p) && cfg == C.Cfg(p, op, init, ue, ug)
    ensures fresh(actors) && Team(cfg, actors) && |actors| == p.n
  {
    hide Prepared;
    actors := [];
    for r := 0 to p.n
      invariant |actors| == r && Team(cfg, actors) && fresh(actors)
    {
      var actor := BuildBcast(cfg, op, init, ue, ug, p, r);
      actors := actors + [actor];
    }
  }

  lemma BcastOutcome<E(!new)>(w: World<E>, p: C.Plan, op: (E, E) -> E, bufs: seq<seq<E>>,
                              ue: nat -> bool, ug: bool, blank: E, r: nat, e: nat)
    requires C.Ok(p) && |bufs| == p.n && w.Valid() && w.cfg == C.Cfg(p, op, Initial(bufs, blank), ue, ug)
    requires r < p.n && e < |bufs[p.root]| == p.nelems && |w.actors| == p.n && w.actors[r].complete
    ensures w.actors[r].mem(Cell(0, e)) == bufs[p.root][e]
  {
    hide Called, AllPlay, Shaped, IsRun, After;
    assert w.cfg.n == p.n;
    w.Outcome(r);
    C.BcastCorrect(p, op, Initial(bufs, blank), ue, ug, w.cfg, w.steps, r, e);
  }

  // Broadcast: an actor that has completed holds the root's data.
  method Bcast<E(==,!new)>(p: C.Plan, bufs: seq<seq<E>>, op: (E, E) -> E, ue: nat -> bool, ug: bool, blank: E,
                           events: seq<Event<E>>) returns (w: World<E>)
    requires C.Ok(p) && |bufs| == p.n && forall r :: 0 <= r < p.n ==> |bufs[r]| == p.nelems
    ensures fresh(w) && |w.actors| == p.n && Ran(w, events) && Completable(w.cfg) && Selected(w.cfg, p.n, ue, ug)
    ensures forall r: nat, e: nat :: r < p.n && e < p.nelems && w.actors[r].complete ==>
              w.actors[r].mem(Cell(0, e)) == bufs[p.root][e]
  {
    hide Called, AllPlay, Matched, Timed, Stuck, Finished, Completable, Ran, Initial, C.FollowsAt, RaceFree, ScratchOk, C.RankDag;
    var cfg := C.Cfg(p, op, Initial(bufs, blank), ue, ug);
    C.CfgFollows(p, op, Initial(bufs, blank), ue, ug);
    C.BcastWellFormed(p, cfg);
    var actors := BcastTeam(cfg, op, Initial(bufs, blank), ue, ug, p);
    w := RunTeam(cfg, actors, events);
    RanWell(w, events);
    forall r: nat, e: nat | r < p.n && e < p.nelems && w.actors[r].complete
      ensures w.actors[r].mem(Cell(0, e)) == bufs[p.root][e]
    {
      BcastOutcome(w, p, op, bufs, ue, ug, blank, r, e);
    }
  }

  // ---------- all-to-all ----------

  // Element i of what rank r sends.
  function Sent<E(==,!new)>(sends: seq<seq<E>>, blank: E): (nat, int) -> E {
    (r: nat, i: int) => if r < |sends| && 0 <= i < |sends[r]| then sends[r][i] else blank
  }

  // The workspaces, whatever they hold.
  function Blanks<E(==,!new)>(blank: E): (nat, Cell) -> E { (_, _) => blank }

  // What the ranks exchange: in place, what initBuffers leaves of it.
  function Given<E(==,!new)>(p: A.Plan, sends: seq<seq<E>>, inPlace: bool, blank: E): (nat, int) -> E {
    if inPlace then AI.Overwritten(p, Sent(sends, blank)) else Sent(sends, blank)
  }

  // What initBuffers leaves in the result buffer is the memory the ranks start from.
  method PlaceAlltoall<E(==,!new)>(p: A.Plan, r: nat, sends: seq<seq<E>>, inPlace: bool, blank: E) returns (held: seq<E>)
    requires A.Ok(p) && r < p.n == |sends| && |sends[r]| == p.n * p.nelems
    ensures |held| == p.n * p.nelems
    ensures forall i :: 0 <= i < |held| ==> held[i] == A.Rotated(p, Given(p, sends, inPlace, blank), Blanks(blank))(r, Cell(0, i))
  {
    hide A.Rotated, A.Home, AlltoallBuffers.InPlaceFrom;
    var src := new E[p.n * p.nelems](i requires 0 <= i < p.n * p.nelems => sends[r][i]);
    var dst := src;
    if !inPlace { dst := new E[p.n * p.nelems](_ => blank); }
    assert src[..] == sends[r];
    AlltoallBuffers.InitBuffers(p, r, dst, src);
    held := dst[..];
    forall i | 0 <= i < |held| ensures held[i] == A.Rotated(p, Given(p, sends, inPlace, blank), Blanks(blank))(r, Cell(0, i)) {
      assert held[i] == dst[i];
      PlacedAt(p, r, sends, inPlace, blank, i);
    }
  }

  lemma PlacedAt<E(!new)>(p: A.Plan, r: nat, sends: seq<seq<E>>, inPlace: bool, blank: E, i: nat)
    requires A.Ok(p) && r < p.n == |sends| && |sends[r]| == p.n * p.nelems && i < p.n * p.nelems
    requires 0 <= (if inPlace then AlltoallBuffers.InPlaceFrom(p, r, i) else A.Home(p, r, i)) < p.n * p.nelems
    ensures A.Rotated(p, Given(p, sends, inPlace, blank), Blanks(blank))(r, Cell(0, i))
            == sends[r][if inPlace then AlltoallBuffers.InPlaceFrom(p, r, i) else A.Home(p, r, i)]
  {
    hide A.Home, AlltoallBuffers.InPlaceFrom;
    if inPlace { AI.InPlaceStart(p, Sent(sends, blank), Blanks(blank), r, i); }
  }

  method AlltoallTeam<E(==,!new)>(cfg: Config<E>, ghost op: (E, E) -> E, ghost input: (nat, int) -> E, ghost other: (nat, Cell) -> E,
                                  ghost ue: nat -> bool, ghost ug: bool, p: A.Plan) returns (actors: seq<DagCollectiveActor<E>>)
    requires A.Ok(p) && cfg == A.Cfg(p, op, input, other, ue, ug)
    ensures fresh(actors) && Team(cfg, actors) && |actors| == p.n
  {
    hide Prepared;
    actors := [];
    for r := 0 to p.n
      invariant |actors| == r && Team(cfg, actors) && fresh(actors)
    {
      var actor := BuildAlltoall(cfg, op, input, other, ue, ug, p, r);
      actors := actors + [actor];
    }
  }

  // Where the element comes from that ends as element e of block q at rank r.
  function Origin(p: A.Plan, inPlace: bool, q: nat, r: nat, e: nat): int {
    if inPlace then AI.Instead(p, q, A.Elem(p, 0, r, e).idx) else A.Elem(p, 0, r, e).idx
  }

  lemma AlltoallOutcome<E(!new)>(w: World<E>, p: A.Plan, op: (E, E) -> E, sends: seq<seq<E>>, inPlace: bool,
                                 ue: nat -> bool, ug: bool,
                                 blank: E, r: nat, q: nat, e: nat)
    requires A.Ok(p) && |sends| == p.n && (forall t :: 0 <= t < p.n ==> |sends[t]| == p.n * p.nelems)
    requires w.Valid() && w.cfg == A.Cfg(p, op, Given(p, sends, inPlace, blank), Blanks(blank), ue, ug)
    requires r < p.n && q < p.n && e < p.nelems && |w.actors| == p.n && w.actors[r].complete
    ensures 0 <= Origin(p, inPlace, q, r, e) < p.n * p.nelems
    ensures w.actors[r].mem(A.Elem(p, 0, q, e)) == sends[q][Origin(p, inPlace, q, r, e)]
  {
    hide Called, AllPlay, Shaped, IsRun, After, AI.Instead;
    assert w.cfg.n == p.n;
    AlltoallProof.ElemBelow(p, r, e, p.n);
    AI.InsteadInside(p, q, r * p.nelems + e);
    w.Outcome(r);
    AlltoallProof.AlltoallCorrect(p, op, Given(p, sends, inPlace, blank), Blanks(blank), ue, ug, w.cfg, w.steps, r, q, e);
  }

  // Block q of every actor that has completed is the block rank q sent it; in place
  // it is what initBuffers left of that.
  ghost predicate Transposed<E(!new)>(w: World<E>, p: A.Plan, sends: seq<seq<E>>, inPlace: bool)
    requires A.Ok(p)
    reads w, w.actors
  {
    && |w.actors| == |sends| == p.n && (forall r :: 0 <= r < p.n ==> |sends[r]| == p.n * p.nelems)
    && forall r: nat, q: nat, e: nat {:trigger w.actors[r], A.Elem(p, 0, q, e)} ::
         r < p.n && q < p.n && e < p.nelems && w.actors[r].complete ==>
           && 0 <= Origin(p, inPlace, q, r, e) < p.n * p.nelems
           && w.actors[r].mem(A.Elem(p, 0, q, e)) == sends[q][Origin(p, inPlace, q, r, e)]
  }

  lemma AllTransposed<E(!new)>(w: World<E>, p: A.Plan, op: (E, E) -> E, sends: seq<seq<E>>, inPlace: bool,
                               ue: nat -> bool, ug: bool, blank: E)
    requires A.Ok(p) && |sends| == p.n && (forall t :: 0 <= t < p.n ==> |sends[t]| == p.n * p.nelems)
    requires w.Valid() && w.cfg == A.Cfg(p, op, Given(p, sends, inPlace, blank), Blanks(blank), ue, ug) && |w.actors| == p.n
    ensures Transposed(w, p, sends, inPlace)
  {
    hide Called, AllPlay, Shaped, IsRun, After, Given, Blanks, Origin;
    forall r: nat, q: nat, e: nat | r < p.n && q < p.n && e < p.nelems && w.actors[r].complete
      ensures 0 <= Origin(p, inPlace, q, r, e) < p.n * p.nelems
      ensures w.actors[r].mem(A.Elem(p, 0, q, e)) == sends[q][Origin(p, inPlace, q, r, e)]
    {
      AlltoallOutcome(w, p, op, sends, inPlace, ue, ug, blank, r, q, e);
    }
  }

  // All-to-all, whatever happens.
  method Alltoall<E(==,!new)>(p: A.Plan, sends: seq<seq<E>>, inPlace: bool, op: (E, E) -> E, ue: nat -> bool, ug: bool, blank: E,
                              events: seq<Event<E>>) returns (w: World<E>)
    requires A.Ok(p) && |sends| == p.n && forall r :: 0 <= r < p.n ==> |sends[r]| == p.n * p.nelems
    ensures fresh(w) && Ran(w, events) && Completable(w.cfg) && Selected(w.cfg, p.n, ue, ug)
    ensures Transposed(w, p, sends, inPlace)
  {
    hide Called, AllPlay, Matched, Timed, Stuck, Finished, Completable, Ran, Given, Blanks, A.Rotated, Transposed;
    hide RaceFree, ScratchOk;
    var input, other := Given(p, sends, inPlace, blank), Blanks(blank);
    var cfg := A.Cfg(p, op, input, other, ue, ug);
    for r := 0 to p.n {
      var held := PlaceAlltoall(p, r, sends, inPlace, blank);
      assert forall i :: 0 <= i < |held| ==> held[i] == cfg.init(r, Cell(0, i));
    }
    AlltoallProof.CfgFollows(p, op, input, other, ue, ug);
    AlltoallProof.AlltoallWellFormed(p, cfg);
    var actors := AlltoallTeam(cfg, op, input, other, ue, ug, p);
    w := RunTeam(cfg, actors, events);
    RanWell(w, events);
    AllTransposed(w, p, op, sends, inPlace, ue, ug, blank);
  }
}
