// The steps one rank takes on its own between two deliveries, and how they fit
// into the runs of the whole system.
module LocalSteps {
  import opened Actions
  import opened Protocol
  import opened Schedule

  // A rank together with the messages it has posted.
  datatype Local<!E(==,!new)> = Local(st: Rank<E>, out: Net<E>)

  datatype Inner<!E(==,!new)> = Go(k: Key) | Hdr(c: Chan) | Eager(p: Pay<E>) | End

  ghost predicate Can<E(!new)>(cfg: Config<E>, r: nat, st: Rank<E>, s: Inner<E>)
    requires Shaped(cfg) && r < cfg.n
  {
    match s
    case Go(k) => Ready(cfg, r, st, k)
    case Hdr(c) => c in st.hdrQ && HdrHome(cfg, c) == r && Active(st, HdrKey(cfg, c))
    case Eager(p) => p in st.payQ && p.eager && p.chan.dst == r && Active(st, RecvKey(p.chan))
    case End => CanFinish(cfg, r, st)
  }

  ghost function Take<E(!new)>(cfg: Config<E>, r: nat, a: Local<E>, s: Inner<E>): Local<E>
    requires Shaped(cfg) && r < cfg.n && Can(cfg, r, a.st, s)
  {
    match s
    case Go(k) => Local(Launch(cfg, r, a.st, k), Plus(a.out, LaunchMsgs(cfg, r, k)))
    case Hdr(c) =>
      var st := a.st.(hdrQ := a.st.hdrQ - multiset{c});
      Local(HandleHdr(cfg, st, c), Plus(a.out, HdrMsgs(cfg, st, c)))
    case Eager(p) => Local(HandleEager(cfg, r, a.st.(payQ := a.st.payQ - multiset{p}), p), a.out)
    case End => Local(Finish(cfg, r, a.st), a.out)
  }

  ghost predicate One<E(!new)>(cfg: Config<E>, r: nat, a: Local<E>, b: Local<E>)
    requires Shaped(cfg) && r < cfg.n
  {
    exists s: Inner<E> :: Can(cfg, r, a.st, s) && b == Take(cfg, r, a, s)
  }

  ghost predicate Trace<E(!new)>(cfg: Config<E>, r: nat, tr: seq<Local<E>>)
    requires Shaped(cfg) && r < cfg.n
  {
    |tr| > 0 && forall i :: 0 < i < |tr| ==> One(cfg, r, tr[i - 1], tr[i])
  }

  // b results from a by some number of the rank's own steps.
  ghost predicate Reaches<E(!new)>(cfg: Config<E>, r: nat, a: Local<E>, b: Local<E>)
    requires Shaped(cfg) && r < cfg.n
  {
    exists tr: seq<Local<E>> :: Trace(cfg, r, tr) && tr[0] == a && tr[|tr| - 1] == b
  }

  // Nothing is left to do without another delivery.
  ghost predicate Quiescent<E(!new)>(cfg: Config<E>, r: nat, st: Rank<E>)
    requires Shaped(cfg) && r < cfg.n
  {
    forall s: Inner<E> :: !Can(cfg, r, st, s)
  }

  lemma Stay<E(!new)>(cfg: Config<E>, r: nat, a: Local<E>)
    requires Shaped(cfg) && r < cfg.n
    ensures Reaches(cfg, r, a, a)
  {
    assert Trace(cfg, r, [a]);
  }

  lemma OneStep<E(!new)>(cfg: Config<E>, r: nat, a: Local<E>, s: Inner<E>)
    requires Shaped(cfg) && r < cfg.n && Can(cfg, r, a.st, s)
    ensures Reaches(cfg, r, a, Take(cfg, r, a, s))
  {
    var b := Take(cfg, r, a, s);
    assert One(cfg, r, a, b);
    var tr := [a, b];
    assert Trace(cfg, r, tr) && tr[0] == a && tr[|tr| - 1] == b;
  }

  lemma Then<E(!new)>(cfg: Config<E>, r: nat, a: Local<E>, b: Local<E>, c: Local<E>)
    requires Shaped(cfg) && r < cfg.n && Reaches(cfg, r, a, b) && Reaches(cfg, r, b, c)
    ensures Reaches(cfg, r, a, c)
  {
    var t1: seq<Local<E>> :| Trace(cfg, r, t1) && t1[0] == a && t1[|t1| - 1] == b;
    var t2: seq<Local<E>> :| Trace(cfg, r, t2) && t2[0] == b && t2[|t2| - 1] == c;
    var tr := t1 + t2[1..];
    forall i | 0 < i < |tr| ensures One(cfg, r, tr[i - 1], tr[i]) {
      if i < |t1| {
        assert One(cfg, r, t1[i - 1], t1[i]);
      } else {
        var j := i - |t1| + 1;
        assert One(cfg, r, t2[j - 1], t2[j]);
        assert tr[i - 1] == t2[j - 1] && tr[i] == t2[j];
      }
    }
    assert Trace(cfg, r, tr) && tr[0] == a && tr[|tr| - 1] == c;
  }

  // ---------- as steps of the system ----------

  ghost function AsStep<E(!new)>(r: nat, s: Inner<E>): Step<E> {
    match s
    case Go(k) => Start(r, k)
    case Hdr(c) => HeldHdr(c)
    case Eager(p) => HeldEager(p)
    case End => Done(r)
  }

  // A step that a rank takes without a call, a delivery or its NIC.
  predicate Own<E(==,!new)>(s: Step<E>) { s.Start? || s.HeldHdr? || s.HeldEager? || s.Done? }

  // The other steps of a run.
  function Outer<E(==,!new)>(steps: seq<Step<E>>): seq<Step<E>> {
    if steps == [] then []
    else Outer(steps[..|steps| - 1]) + if Own(steps[|steps| - 1]) then [] else [steps[|steps| - 1]]
  }

  lemma OuterMore<E(!new)>(steps: seq<Step<E>>, s: Step<E>)
    ensures Outer(steps + [s]) == Outer(steps) + if Own(s) then [] else [s]
  {
    var all := steps + [s];
    assert all[..|all| - 1] == steps && all[|all| - 1] == s;
  }

  // One step of rank r on its own is one step of the system.
  lemma InnerIsStep<E(!new)>(cfg: Config<E>, g: Global<E>, r: nat, s: Inner<E>)
    requires Shaped(cfg) && |g.ranks| == cfg.n && r < cfg.n && Can(cfg, r, g.ranks[r], s)
    ensures Enabled(cfg, g, AsStep(r, s))
    ensures var a := Take(cfg, r, Local(g.ranks[r], g.net), s);
            Do(cfg, g, AsStep(r, s)) == Put(g, r, a.st, a.out)
  {
  }

  lemma RunMore<E(!new)>(cfg: Config<E>, steps: seq<Step<E>>, s: Step<E>)
    requires Shaped(cfg) && IsRun(cfg, steps) && Enabled(cfg, After(cfg, steps), s)
    ensures IsRun(cfg, steps + [s]) && After(cfg, steps + [s]) == Do(cfg, After(cfg, steps), s)
  {
    var all := steps + [s];
    assert all[..|all| - 1] == steps && all[|all| - 1] == s;
  }

  lemma OneIsRun<E(!new)>(cfg: Config<E>, steps: seq<Step<E>>, r: nat, b: Local<E>) returns (all: seq<Step<E>>)
    requires Shaped(cfg) && IsRun(cfg, steps) && r < cfg.n
    requires One(cfg, r, Local(After(cfg, steps).ranks[r], After(cfg, steps).net), b)
    ensures IsRun(cfg, all) && steps <= all && Outer(all) == Outer(steps)
    ensures After(cfg, all) == Put(After(cfg, steps), r, b.st, b.out)
  {
    hide IsRun, After, Shaped, Enabled, Do, Take, Can;
    var g := After(cfg, steps);
    var a := Local(g.ranks[r], g.net);
    var s: Inner<E> :| Can(cfg, r, a.st, s) && b == Take(cfg, r, a, s);
    InnerIsStep(cfg, g, r, s);
    RunMore(cfg, steps, AsStep(r, s));
    OuterMore(steps, AsStep(r, s));
    all := steps + [AsStep(r, s)];
  }

  // Whatever rank r does on its own after a run extends the run.
  lemma {:induction false} TraceIsRun<E(!new)>(cfg: Config<E>, steps: seq<Step<E>>, r: nat, tr: seq<Local<E>>)
    returns (all: seq<Step<E>>)
    requires Shaped(cfg) && IsRun(cfg, steps) && r < cfg.n && Trace(cfg, r, tr)
    requires tr[0] == Local(After(cfg, steps).ranks[r], After(cfg, steps).net)
    ensures IsRun(cfg, all) && steps <= all && Outer(all) == Outer(steps)
    ensures After(cfg, all) == Put(After(cfg, steps), r, tr[|tr| - 1].st, tr[|tr| - 1].out)
    decreases |tr|
  {
    if |tr| == 1 {
      all := steps;
      SamePut(After(cfg, steps), r);
    } else {
      assert One(cfg, r, tr[0], tr[1]);
      var more := OneIsRun(cfg, steps, r, tr[1]);
      var rest := tr[1..];
      forall i | 0 < i < |rest| ensures One(cfg, r, rest[i - 1], rest[i]) {
        assert One(cfg, r, tr[i], tr[i + 1]);
      }
      all := TraceIsRun(cfg, more, r, rest);
      PutPut(After(cfg, steps), r, tr[1], tr[|tr| - 1]);
    }
  }

  lemma SamePut<E(!new)>(g: Global<E>, r: nat)
    requires r < |g.ranks|
    ensures Put(g, r, g.ranks[r], g.net) == g
  {
    assert g.ranks[r := g.ranks[r]] == g.ranks;
  }

  lemma PutPut<E(!new)>(g: Global<E>, r: nat, a: Local<E>, b: Local<E>)
    requires r < |g.ranks|
    ensures Put(Put(g, r, a.st, a.out), r, b.st, b.out) == Put(g, r, b.st, b.out)
  {
  }

  lemma ReachesIsRun<E(!new)>(cfg: Config<E>, steps: seq<Step<E>>, r: nat, b: Local<E>) returns (all: seq<Step<E>>)
    requires Shaped(cfg) && IsRun(cfg, steps) && r < cfg.n
    requires Reaches(cfg, r, Local(After(cfg, steps).ranks[r], After(cfg, steps).net), b)
    ensures IsRun(cfg, all) && steps <= all && Outer(all) == Outer(steps)
    ensures After(cfg, all) == Put(After(cfg, steps), r, b.st, b.out)
  {
    var a := Local(After(cfg, steps).ranks[r], After(cfg, steps).net);
    var tr: seq<Local<E>> :| Trace(cfg, r, tr) && tr[0] == a && tr[|tr| - 1] == b;
    all := TraceIsRun(cfg, steps, r, tr);
  }
}
