// Allreduce and reduce from end to end: buffers are set up, every rank's actor is
// built, and any sequence of events is let happen.
module RunReductions {
  import opened Actions
  import opened Protocol
  import opened Schedule
  import opened Engine
  import opened Scenes
  import opened Worlds
  import opened Launches
  import opened Teams
  import opened FoldOp
  import opened Halving
  import opened VirtualRanks
  import W = Wilke
  import WilkeSync
  import WilkeDag
  import Reductions

  // Element i of every rank's contribution.
  function Contribution<E>(sends: seq<seq<E>>, i: nat, blank: E): nat -> E {
    (r: nat) => if r < |sends| && i < |sends[r]| then sends[r][i] else blank
  }

  // What rank r's initBuffers leaves in the result buffer.
  method PlaceAllreduce<E(==,!new)>(send: seq<E>, inPlace: bool, blank: E) returns (held: seq<E>)
    ensures held == send
  {
    var src := new E[|send|](i requires 0 <= i < |send| => send[i]);
    var dst := src;
    if !inPlace { dst := new E[|send|](_ => blank); }
    assert src[..] == send;
    var _ := WilkeDag.AllreduceInitBuffers(dst, src, |send|, _ => blank);
    held := dst[..];
  }

  method PlaceAllreduces<E(==,!new)>(sends: seq<seq<E>>, inPlace: bool, blank: E) returns (held: seq<seq<E>>)
    ensures held == sends
  {
    held := [];
    for r := 0 to |sends|
      invariant held == sends[..r]
    {
      var buf := PlaceAllreduce(sends[r], inPlace, blank);
      held := held + [buf];
    }
  }

  method AllreduceTeam<E(==,!new)>(cfg: Config<E>, ghost op: (E, E) -> E, ghost init: (nat, Cell) -> E, ghost ue: nat -> bool,
                                   ghost ug: bool, n: nat, nelems: nat) returns (actors: seq<DagCollectiveActor<E>>)
    requires n >= 2 && cfg == W.Cfg(W.Plan(n, nelems, None), op, init, ue, ug)
    ensures fresh(actors) && Team(cfg, actors) && |actors| == n
  {
    hide Prepared;
    actors := [];
    for r := 0 to n
      invariant |actors| == r && Team(cfg, actors) && fresh(actors)
    {
      var actor := BuildAllreduce(cfg, op, init, ue, ug, n, nelems, r);
      actors := actors + [actor];
    }
  }

  lemma AllreduceOutcome<E(!new)>(w: World<E>, op: (E, E) -> E, sends: seq<seq<E>>, ue: nat -> bool, ug: bool, blank: E,
                                  n: nat, nelems: nat, r: nat, i: nat)
    requires n >= 2 && |sends| == n && Associative(op) && Commutative(op) && w.Valid()
    requires w.cfg == W.Cfg(W.Plan(n, nelems, None), op, Initial(sends, blank), ue, ug)
    requires r < n && i < nelems && |w.actors| == n && w.actors[r].complete
    ensures w.actors[r].mem(Cell(0, i)) == Fold(op, Contribution(sends, i, blank), 0, n)
  {
    hide Fold, Associative, Commutative, Called, AllPlay, Shaped, IsRun, After;
    assert w.cfg.n == n && w.cfg.init == Initial(sends, blank);
    w.Outcome(r);
    Reductions.AllreduceCorrect(n, nelems, op, Initial(sends, blank), ue, ug, w.cfg, w.steps, r, i);
    FoldSame(op, WilkeSync.Input(w.cfg, i), Contribution(sends, i, blank), 0, n);
  }

  // Allreduce: whatever happens, an actor that has completed holds in every
  // element all ranks' contributions, each once.
  method Allreduce<E(==,!new)>(n: nat, nelems: nat, sends: seq<seq<E>>, inPlace: bool, op: (E, E) -> E, ue: nat -> bool, ug: bool,
                               blank: E, events: seq<Event<E>>) returns (w: World<E>)
    requires n >= 2 && |sends| == n && (forall r :: 0 <= r < n ==> |sends[r]| == nelems) && Associative(op) && Commutative(op)
    ensures fresh(w) && |w.actors| == n && Ran(w, events) && Completable(w.cfg) && Selected(w.cfg, n, ue, ug)
    ensures forall r: nat, i: nat :: r < n && i < nelems && w.actors[r].complete ==>
              w.actors[r].mem(Cell(0, i)) == Fold(op, Contribution(sends, i, blank), 0, n)
  {
    hide Fold, Associative, Commutative, Called, AllPlay, Matched, Timed, Stuck, Finished, Completable, Ran, Contribution, Initial;
    var held := PlaceAllreduces(sends, inPlace, blank);
    var cfg := W.Cfg(W.Plan(n, nelems, None), op, Initial(held, blank), ue, ug);
    Reductions.WellFormedPlan(W.Plan(n, nelems, None), cfg, op, Initial(held, blank), ue, ug);
    var actors := AllreduceTeam(cfg, op, Initial(held, blank), ue, ug, n, nelems);
    w := RunTeam(cfg, actors, events);
    RanWell(w, events);
    forall r: nat, i: nat | r < n && i < nelems && w.actors[r].complete
      ensures w.actors[r].mem(Cell(0, i)) == Fold(op, Contribution(sends, i, blank), 0, n)
    {
      AllreduceOutcome(w, op, sends, ue, ug, blank, n, nelems, r, i);
    }
  }

  // ---------- reduce ----------

  method PlaceReduces<E(==,!new)>(root: nat, sends: seq<seq<E>>, inPlace: bool, blank: E) returns (held: seq<seq<E>>)
    ensures held == sends
  {
    held := [];
    for r := 0 to |sends|
      invariant held == sends[..r]
    {
      var send := sends[r];
      var src := new E[|send|](i requires 0 <= i < |send| => send[i]);
      assert src[..] == send;
      var dst := src;
      if !inPlace { dst := new E[|send|](_ => blank); }
      var buf, _ := WilkeDag.ReduceInitBuffers(r, root, dst, src, |send|, _ => blank);
      held := held + [buf[..]];
    }
  }

  method ReduceTeam<E(==,!new)>(cfg: Config<E>, ghost op: (E, E) -> E, ghost init: (nat, Cell) -> E, ghost ue: nat -> bool,
                                ghost ug: bool, n: nat, nelems: nat, root: nat) returns (actors: seq<DagCollectiveActor<E>>)
    requires n >= 2 && root < n && cfg == W.Cfg(W.Plan(n, nelems, Some(root)), op, init, ue, ug)
    ensures fresh(actors) && Team(cfg, actors) && |actors| == n
  {
    hide Prepared;
    actors := [];
    for r := 0 to n
      invariant |actors| == r && Team(cfg, actors) && fresh(actors)
    {
      var actor := BuildReduce(cfg, op, init, ue, ug, n, nelems, root, r);
      actors := actors + [actor];
    }
  }

  // What the root of a reduce is left with: rank 1's own second half, if the root
  // is not 0 and one rank has two roles; the reduction otherwise.
  function Reduced<E(!new)>(op: (E, E) -> E, sends: seq<seq<E>>, blank: E, n: nat, nelems: nat, root: nat, i: nat): E
    requires n >= 2
  {
    if root != 0 && Twos(n) == 1 && i >= Up(nelems) then Contribution(sends, i, blank)(1)
    else Fold(op, Contribution(sends, i, blank), 0, n)
  }

  lemma ReduceOutcome<E(!new)>(w: World<E>, op: (E, E) -> E, sends: seq<seq<E>>, ue: nat -> bool, ug: bool, blank: E,
                               n: nat, nelems: nat, root: nat, i: nat)
    requires n >= 2 && root < n && |sends| == n && Associative(op) && Commutative(op) && w.Valid()
    requires w.cfg == W.Cfg(W.Plan(n, nelems, Some(root)), op, Initial(sends, blank), ue, ug)
    requires i < nelems && |w.actors| == n && w.actors[root].complete
    ensures w.actors[root].mem(Cell(0, i)) == Reduced(op, sends, blank, n, nelems, root, i)
  {
    hide Fold, Associative, Commutative, Called, AllPlay, Shaped, IsRun, After, Twos, Up;
    assert w.cfg.n == n && w.cfg.init == Initial(sends, blank);
    w.Outcome(root);
    Reductions.ReduceResult(n, nelems, root, op, Initial(sends, blank), ue, ug, w.cfg, w.steps, i);
    FoldSame(op, WilkeSync.Input(w.cfg, i), Contribution(sends, i, blank), 0, n);
  }

  // Reduce: whatever happens, a root that has completed holds what Reduced says.
  method Reduce<E(==,!new)>(n: nat, nelems: nat, root: nat, sends: seq<seq<E>>, inPlace: bool, op: (E, E) -> E, ue: nat -> bool,
                            ug: bool, blank: E, events: seq<Event<E>>) returns (w: World<E>)
    requires n >= 2 && root < n && |sends| == n && (forall r :: 0 <= r < n ==> |sends[r]| == nelems)
    requires Associative(op) && Commutative(op)
    ensures fresh(w) && |w.actors| == n && Ran(w, events) && Completable(w.cfg) && Selected(w.cfg, n, ue, ug)
    ensures forall i: nat :: i < nelems && w.actors[root].complete ==>
              w.actors[root].mem(Cell(0, i)) == Reduced(op, sends, blank, n, nelems, root, i)
  {
    hide Fold, Associative, Commutative, Called, AllPlay, Matched, Timed, Stuck, Finished, Completable, Ran;
    hide Contribution, Initial, Reduced;
    var held := PlaceReduces(root, sends, inPlace, blank);
    var cfg := W.Cfg(W.Plan(n, nelems, Some(root)), op, Initial(held, blank), ue, ug);
    Reductions.WellFormedPlan(W.Plan(n, nelems, Some(root)), cfg, op, Initial(held, blank), ue, ug);
    var actors := ReduceTeam(cfg, op, Initial(held, blank), ue, ug, n, nelems, root);
    w := RunTeam(cfg, actors, events);
    RanWell(w, events);
    forall i: nat | i < nelems && w.actors[root].complete
      ensures w.actors[root].mem(Cell(0, i)) == Reduced(op, sends, blank, n, nelems, root, i)
    {
      ReduceOutcome(w, op, sends, ue, ug, blank, n, nelems, root, i);
    }
  }
}
