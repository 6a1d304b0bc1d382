// Allreduce and reduce over whole runs.  init is the memory once initBuffers
// has copied each rank's contribution into its result buffer (buffer 0).
module Reductions {
  import opened Actions
  import opened Protocol
  import opened Schedule
  import opened Invariant
  import opened Safety
  import opened WaitGraphs
  import opened Liveness
  import opened Powers
  import opened VirtualRanks
  import opened Halving
  import opened FoldOp
  import opened Wilke
  import opened WilkeProof
  import opened WilkeSync

  lemma WellFormedPlan<E(!new)>(p: Plan, cfg: Config<E>, op: (E, E) -> E, init: (nat, Cell) -> E, ue: nat -> bool, ug: bool)
    requires Ok(p) && cfg == Cfg(p, op, init, ue, ug)
    ensures Follows(p, cfg) && WellFormed(cfg) && cfg.op == op && forall r, m :: cfg.finish(r, m) == m
  {
    CfgFollows(p, op, init, ue, ug);
    WilkeWellFormed(p, cfg);
  }

  // Any rank that has completed an allreduce holds, in every element, every
  // rank's contribution exactly once: for any number of ranks, any length, any
  // order of deliveries and any mix of protocols.
  lemma AllreduceCorrect<E(!new)>(n: nat, nelems: nat, op: (E, E) -> E, init: (nat, Cell) -> E, ue: nat -> bool, ug: bool,
                                  cfg: Config<E>, steps: seq<Step<E>>, r: nat, i: nat)
    requires n >= 2 && Associative(op) && Commutative(op)
    requires cfg == Cfg(Plan(n, nelems, None), op, init, ue, ug) && Shaped(cfg) && IsRun(cfg, steps)
    requires r < n && After(cfg, steps).ranks[r].complete && i < nelems
    ensures After(cfg, steps).ranks[r].mem(Cell(0, i)) == Fold(op, Input(cfg, i), 0, n)
  {
    var p := Plan(n, nelems, None);
    WellFormedPlan(p, cfg, op, init, ue, ug);
    RunsAreCorrect(cfg, steps, r);
    AllreduceValue(p, cfg, r, i);
    assert !cfg.notes.scratch(r, Cell(0, i));
  }

  // What the root of a completed reduce holds.
  lemma ReduceResult<E(!new)>(n: nat, nelems: nat, root: nat, op: (E, E) -> E, init: (nat, Cell) -> E, ue: nat -> bool, ug: bool,
                              cfg: Config<E>, steps: seq<Step<E>>, i: nat)
    requires n >= 2 && root < n && Associative(op) && Commutative(op)
    requires cfg == Cfg(Plan(n, nelems, Some(root)), op, init, ue, ug) && Shaped(cfg) && IsRun(cfg, steps)
    requires After(cfg, steps).ranks[root].complete && i < nelems
    ensures After(cfg, steps).ranks[root].mem(Cell(0, i))
            == if root != 0 && Twos(n) == 1 && i >= Up(nelems) then init(1, Cell(0, i)) else Fold(op, Input(cfg, i), 0, n)
  {
    var p := Plan(n, nelems, Some(root));
    WellFormedPlan(p, cfg, op, init, ue, ug);
    RunsAreCorrect(cfg, steps, root);
    ReduceValue(p, cfg, i);
    assert !cfg.notes.scratch(root, Cell(0, i));
  }

  ghost predicate IsSum(op: (int, int) -> int) { forall x, y :: op(x, y) == x + y }

  lemma SumLaws(op: (int, int) -> int)
    requires IsSum(op)
    ensures Associative(op) && Commutative(op)
  {
  }

  // The reduce to root is right: in every run, on every input, a completed root
  // holds the sum of all contributions.
  ghost predicate ReduceRight(n: nat, nelems: nat, root: nat, op: (int, int) -> int, ue: nat -> bool, ug: bool)
    requires n >= 2 && root < n
  {
    forall init: (nat, Cell) -> int, steps: seq<Step<int>>, i: nat ::
      var cfg := Cfg(Plan(n, nelems, Some(root)), op, init, ue, ug);
      Shaped(cfg) && IsRun(cfg, steps) && After(cfg, steps).ranks[root].complete && i < nelems ==>
        After(cfg, steps).ranks[root].mem(Cell(0, i)) == Fold(op, Input(cfg, i), 0, n)
  }

  // Exactly when that is so: not for a root other than 0 when a single rank
  // plays two roles and there is a second half to lose.
  lemma ReduceRightExactly(n: nat, nelems: nat, root: nat, op: (int, int) -> int, ue: nat -> bool, ug: bool)
    requires n >= 2 && root < n && IsSum(op)
    ensures ReduceRight(n, nelems, root, op, ue, ug) <==> root == 0 || VNproc(n) - n != 1 || nelems < 2
  {
    SumLaws(op);
    if root == 0 || Twos(n) != 1 || nelems < 2 {
      forall init: (nat, Cell) -> int, steps: seq<Step<int>>, i: nat, cfg: Config<int> |
        && cfg == Cfg(Plan(n, nelems, Some(root)), op, init, ue, ug)
        && Shaped(cfg) && IsRun(cfg, steps) && After(cfg, steps).ranks[root].complete && i < nelems
        ensures After(cfg, steps).ranks[root].mem(Cell(0, i)) == Fold(op, Input(cfg, i), 0, n)
      {
        ReduceResult(n, nelems, root, op, init, ue, ug, cfg, steps, i);
      }
    } else {
      ReduceLoses(n, nelems, root, op, ue, ug);
    }
  }

  // The counterexample: every rank contributes 1.
  lemma ReduceLoses(n: nat, nelems: nat, root: nat, op: (int, int) -> int, ue: nat -> bool, ug: bool)
    requires 0 < root < n && IsSum(op) && Twos(n) == 1 && nelems >= 2
    ensures n >= 2 && !ReduceRight(n, nelems, root, op, ue, ug)
  {
    SumLaws(op);
    var init := (r: nat, c: Cell) => 1;
    var p := Plan(n, nelems, Some(root));
    var cfg := Cfg(p, op, init, ue, ug);
    WellFormedPlan(p, cfg, op, init, ue, ug);
    TimedAcyclic(cfg);
    forall r: nat | r < n ensures cfg.dag[r].acts != map[] { SomeStep(p, r); }
    var steps := RunsComplete(cfg, []);
    var i := Up(nelems);
    ReduceResult(n, nelems, root, op, init, ue, ug, cfg, steps, i);
    FoldOnes(op, Input(cfg, i), 0, n);
    assert VNproc(2) == 2;
  }
}
