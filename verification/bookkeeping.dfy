// The engine's bookkeeping of one DAG: which actions may start at once, which
// wait for whom, and how many precursors each still has.  Pure facts about its
// updates; the engine (module Engine) performs them.
module Bookkeeping {
  import opened Actions
  import opened Protocol
  import opened Schedule

  // initial_actions_, pending_comms_ (precursor, waiting action), the
  // join_counter of every action, and active_comms_.
  datatype Book = Book(initial: set<Key>, pending: seq<(Key, Key)>, joins: map<Key, int>, active: set<Key>)

  // How many entries wait on behalf of k.
  function Count(pending: seq<(Key, Key)>, k: Key): (n: nat)
    ensures n <= |pending|
  {
    if pending == [] then 0 else Count(pending[1..], k) + (if pending[0].1 == k then 1 else 0)
  }

  function Without<T>(s: seq<T>, i: nat): seq<T>
    requires i < |s|
  {
    s[..i] + s[i + 1..]
  }

  lemma {:induction false} CountWithout(pending: seq<(Key, Key)>, i: nat, k: Key)
    requires i < |pending|
    ensures Count(Without(pending, i), k) == Count(pending, k) - (if pending[i].1 == k then 1 else 0)
  {
    if i == 0 {
      assert Without(pending, 0) == pending[1..];
    } else {
      CountWithout(pending[1..], i - 1, k);
      assert Without(pending, i)[1..] == Without(pending[1..], i - 1);
    }
  }

  lemma {:induction false} CountPlus(pending: seq<(Key, Key)>, e: (Key, Key), k: Key)
    ensures Count(pending + [e], k) == Count(pending, k) + (if e.1 == k then 1 else 0)
  {
    if pending == [] {
      assert pending + [e] == [e];
    } else {
      CountPlus(pending[1..], e, k);
      assert (pending + [e])[1..] == pending[1..] + [e];
    }
  }

  lemma {:induction false} CountIn(pending: seq<(Key, Key)>, p: Key, k: Key)
    requires (p, k) in pending
    ensures Count(pending, k) > 0
  {
    if pending[0] != (p, k) { CountIn(pending[1..], p, k); }
  }

  lemma {:induction false} CountOut(pending: seq<(Key, Key)>, k: Key)
    requires Count(pending, k) > 0
    ensures exists i :: 0 <= i < |pending| && pending[i].1 == k
  {
    if pending[0].1 != k {
      CountOut(pending[1..], k);
      var i :| 0 <= i < |pending[1..]| && pending[1..][i].1 == k;
      assert pending[i + 1].1 == k;
    }
  }

  // The bookkeeping is exact.  lag: finished actions whose dependents are still
  // being notified; late: an action taken out of the book but not yet started.
  ghost predicate BookOk(dag: Dag, begun: bool, started: set<Key>, fin: set<Key>, bk: Book, lag: set<Key>, late: Option<Key>) {
    && (forall k :: k in dag.acts ==> k in dag.pre)
    && lag <= fin && fin <= started && (forall k :: k in started ==> k in dag.acts && begun)
    && (forall k :: k in started && !IsComm(k) ==> k in fin)
    && (forall k :: k in bk.active <==> k in started && k !in fin)
    && (forall e :: e in bk.pending ==> e.1 in dag.acts && e.0 in dag.pre[e.1] && e.1 !in started && (e.0 !in fin || e.0 in lag))
    && (forall k, p :: k in dag.acts && p in dag.pre[k] && p !in fin ==> (p, k) in bk.pending)
    && (forall k :: k in dag.acts ==> k in bk.joins && bk.joins[k] == Count(bk.pending, k))
    && (forall k :: k in bk.initial ==> k in dag.acts && k !in started && Count(bk.pending, k) == 0 && late != Some(k))
    && (late.Some? ==> late.value in dag.acts && late.value !in started && Count(bk.pending, late.value) == 0)
    && (forall k :: k in dag.acts && k !in started && late != Some(k) ==> k in bk.initial || Count(bk.pending, k) > 0)
  }

  // An action without remaining precursors may start: all of them are finished.
  lemma NoneLeft(dag: Dag, begun: bool, started: set<Key>, fin: set<Key>, bk: Book, lag: set<Key>, late: Option<Key>, k: Key)
    requires BookOk(dag, begun, started, fin, bk, lag, late) && k in dag.acts && Count(bk.pending, k) == 0
    ensures forall p :: p in dag.pre[k] ==> p in fin
  {
    forall p | p in dag.pre[k] ensures p in fin {
      if p !in fin { CountIn(bk.pending, p, k); }
    }
  }

  lemma LateReady(dag: Dag, begun: bool, started: set<Key>, fin: set<Key>, bk: Book, lag: set<Key>, k: Key)
    requires BookOk(dag, begun, started, fin, bk, lag, Some(k))
    ensures k in dag.acts && k in dag.pre && k !in started && k !in fin && k !in lag && k !in bk.active
    ensures forall p :: p in dag.pre[k] ==> p in fin
  {
    NoneLeft(dag, begun, started, fin, bk, lag, Some(k), k);
  }

  lemma ActiveIs(dag: Dag, begun: bool, started: set<Key>, fin: set<Key>, bk: Book, lag: set<Key>, late: Option<Key>)
    requires BookOk(dag, begun, started, fin, bk, lag, late)
    ensures forall k :: k in bk.active <==> k in started && k !in fin
    ensures forall k :: k in bk.active ==> k in dag.acts && k !in lag
  {
  }

  // While an entry is pending, not everything is finished.
  lemma PendingUnfinished(dag: Dag, begun: bool, started: set<Key>, fin: set<Key>, bk: Book, lag: set<Key>, i: nat)
    requires BookOk(dag, begun, started, fin, bk, lag, None) && i < |bk.pending|
    ensures bk.pending[i].1 in dag.acts && bk.pending[i].1 !in fin
  {
    assert bk.pending[i] in bk.pending;
  }

  lemma FewerLeft(all: set<Key>, s: set<Key>, s': set<Key>)
    requires s <= s'
    ensures |all - s'| <= |all - s|
    ensures forall k :: k in all && k !in s && k in s' ==> |all - s'| < |all - s|
  {
    assert all - s' <= all - s;
    CardinalityLe(all - s', all - s);
    forall k | k in all && k !in s && k in s' ensures |all - s'| < |all - s| {
      assert all - s' <= (all - s) - {k};
      CardinalityLe(all - s', (all - s) - {k});
    }
  }

  lemma {:induction false} CardinalityLe(a: set<Key>, b: set<Key>)
    requires a <= b
    ensures |a| <= |b|
    decreases a
  {
    if a != {} {
      var x :| x in a;
      CardinalityLe(a - {x}, b - {x});
    }
  }

  // clearDependencies takes one entry (ac, k) and lowers k's counter.
  function Notify(bk: Book, i: nat): Book
    requires i < |bk.pending| && bk.pending[i].1 in bk.joins
  {
    var k := bk.pending[i].1;
    bk.(pending := Without(bk.pending, i), joins := bk.joins[k := bk.joins[k] - 1])
  }

  lemma NotifyOk(dag: Dag, begun: bool, started: set<Key>, fin: set<Key>, bk: Book, lag: set<Key>, i: nat)
    requires BookOk(dag, begun, started, fin, bk, lag, None) && i < |bk.pending| && bk.pending[i].0 in fin
    ensures bk.pending[i] in bk.pending && bk.pending[i].1 in bk.joins
    ensures var k := bk.pending[i].1;
            BookOk(dag, begun, started, fin, Notify(bk, i), lag, if Notify(bk, i).joins[k] == 0 then Some(k) else None)
  {
    assert bk.pending[i] in bk.pending;
    var bk' := Notify(bk, i);
    forall k | k in dag.acts
      ensures bk'.joins[k] == Count(bk'.pending, k)
      ensures Count(bk'.pending, k) == Count(bk.pending, k) - (if bk.pending[i].1 == k then 1 else 0)
    {
      CountWithout(bk.pending, i, k);
    }
    NotifyMembers(bk.pending, i);
    assert Count(bk.pending, bk.pending[i].1) > 0 by { CountIn(bk.pending, bk.pending[i].0, bk.pending[i].1); }
  }

  lemma NotifyMembers(s: seq<(Key, Key)>, i: nat)
    requires i < |s|
    ensures forall e :: e in Without(s, i) ==> e in s
    ensures forall e :: e in s && e != s[i] ==> e in Without(s, i)
  {
    forall e | e in s && e != s[i] ensures e in Without(s, i) {
      var j :| 0 <= j < |s| && s[j] == e;
      if j < i { assert Without(s, i)[j] == e; } else { assert Without(s, i)[j - 1] == e; }
    }
  }

  // A send or receive becomes active.
  lemma ActivateOk(dag: Dag, begun: bool, started: set<Key>, fin: set<Key>, bk: Book, lag: set<Key>, k: Key)
    requires BookOk(dag, begun, started, fin, bk, lag, Some(k)) && IsComm(k) && begun
    ensures BookOk(dag, begun, started + {k}, fin, bk.(active := bk.active + {k}), lag, None)
  {
    Untouched(bk.pending, k);
  }

  // A shuffle or join runs to its end.
  lemma RunOk(dag: Dag, begun: bool, started: set<Key>, fin: set<Key>, bk: Book, lag: set<Key>, k: Key)
    requires BookOk(dag, begun, started, fin, bk, lag, Some(k)) && !IsComm(k) && begun
    ensures BookOk(dag, begun, started + {k}, fin + {k}, bk, lag + {k}, None)
  {
    Untouched(bk.pending, k);
  }

  lemma Untouched(pending: seq<(Key, Key)>, k: Key)
    requires Count(pending, k) == 0
    ensures forall e :: e in pending ==> e.1 != k
  {
    forall e | e in pending ensures e.1 != k {
      if e.1 == k { CountIn(pending, e.0, k); }
    }
  }

  // An active send or receive is finished.
  lemma FinishOk(dag: Dag, begun: bool, started: set<Key>, fin: set<Key>, bk: Book, lag: set<Key>, k: Key)
    requires BookOk(dag, begun, started, fin, bk, lag, None) && k in started && k !in fin
    ensures BookOk(dag, begun, started, fin + {k}, bk.(active := bk.active - {k}), lag + {k}, None)
  {
  }

  // All of k's dependents have been notified.
  lemma NotifiedOk(dag: Dag, begun: bool, started: set<Key>, fin: set<Key>, bk: Book, lag: set<Key>, k: Key)
    requires BookOk(dag, begun, started, fin, bk, lag, None) && forall e :: e in bk.pending ==> e.0 != k
    ensures BookOk(dag, begun, started, fin, bk, lag - {k}, None)
  {
  }

  lemma TakeInitialOk(dag: Dag, begun: bool, started: set<Key>, fin: set<Key>, bk: Book, lag: set<Key>, k: Key)
    requires BookOk(dag, begun, started, fin, bk, lag, None) && k in bk.initial
    ensures BookOk(dag, begun, started, fin, bk.(initial := bk.initial - {k}), lag, Some(k))
  {
  }

  // The three containers are empty exactly when every action is finished.
  lemma EmptyMeansDone(dag: Dag, begun: bool, started: set<Key>, fin: set<Key>, bk: Book, lag: set<Key>)
    requires BookOk(dag, begun, started, fin, bk, lag, None)
    ensures bk.active == {} && bk.pending == [] && bk.initial == {} <==> forall k :: k in dag.acts ==> k in fin
  {
    assert bk.pending != [] ==> bk.pending[0] in bk.pending;
    if forall k :: k in dag.acts ==> k in fin {
      assert bk.active == {} && bk.initial == {};
    }
  }

  // Between two calls every action is in exactly one place: initial, waiting
  // (with a counter equal to its entries), active, or completed.
  lemma OnePlace(dag: Dag, begun: bool, started: set<Key>, fin: set<Key>, bk: Book, k: Key)
    requires BookOk(dag, begun, started, fin, bk, {}, None) && k in dag.acts
    ensures var waiting := Count(bk.pending, k) > 0;
            && bk.joins[k] == Count(bk.pending, k)
            && (k in bk.initial || waiting || k in bk.active || k in fin)
            && !(k in bk.initial && waiting) && !(k in bk.initial && k in bk.active) && !(k in bk.initial && k in fin)
            && !(waiting && k in bk.active) && !(waiting && k in fin) && !(k in bk.active && k in fin)
  {
    if Count(bk.pending, k) > 0 { CountOut(bk.pending, k); }
  }

  // With no notification outstanding and nothing initial, every action that has
  // not started waits for an unfinished one.
  lemma NothingReady(dag: Dag, begun: bool, started: set<Key>, fin: set<Key>, bk: Book, k: Key)
    requires BookOk(dag, begun, started, fin, bk, {}, None) && bk.initial == {} && k in dag.acts && k !in started
    ensures exists p :: p in dag.pre[k] && p !in fin
  {
    CountOut(bk.pending, k);
    var i :| 0 <= i < |bk.pending| && bk.pending[i].1 == k;
    assert bk.pending[i] in bk.pending;
    assert bk.pending[i].0 in dag.pre[k];
  }

  // ---------- construction ----------

  // addDependency: with a precursor the action waits for it too; without one it
  // is initial unless it waits already.
  function Added(bk: Book, precursor: Option<Key>, k: Key): Book {
    var count := if k in bk.joins then bk.joins[k] else 0;
    if precursor.Some? then
      Book(bk.initial - {k}, bk.pending + [(precursor.value, k)], bk.joins[k := count + 1], bk.active)
    else
      Book(if count == 0 then bk.initial + {k} else bk.initial, bk.pending, bk.joins[k := count], bk.active)
  }

  function PreAdded(pre: map<Key, set<Key>>, precursor: Option<Key>, k: Key): map<Key, set<Key>> {
    pre[k := (if k in pre then pre[k] else {}) + (if precursor.Some? then {precursor.value} else {})]
  }

  // Before the collective starts: everything added waits for exactly what it
  // was told to wait for.
  ghost predicate Built(acts: map<Key, Action>, pre: map<Key, set<Key>>, bk: Book) {
    && bk.joins.Keys == acts.Keys == pre.Keys && bk.active == {}
    && (forall e :: e in bk.pending ==> e.1 in acts && e.0 in pre[e.1])
    && (forall k, p :: k in acts && p in pre[k] ==> (p, k) in bk.pending)
    && (forall k :: k in acts ==> bk.joins[k] == Count(bk.pending, k))
    && (forall k :: k in bk.initial <==> k in acts && Count(bk.pending, k) == 0)
  }

  lemma BuiltIsBook(acts: map<Key, Action>, pre: map<Key, set<Key>>, bk: Book)
    requires Built(acts, pre, bk)
    ensures BookOk(Dag(acts, pre), true, {}, {}, bk, {}, None)
  {
  }

  lemma AddedAlone(acts: map<Key, Action>, pre: map<Key, set<Key>>, bk: Book, ac: Action)
    requires Built(acts, pre, bk)
    ensures Built(acts[ac.Id() := ac], PreAdded(pre, None, ac.Id()), Added(bk, None, ac.Id()))
  {
    if ac.Id() !in acts { NotWaiting(bk.pending, acts, ac.Id()); }
  }

  lemma AddedAfter(acts: map<Key, Action>, pre: map<Key, set<Key>>, bk: Book, p: Key, ac: Action)
    requires Built(acts, pre, bk)
    ensures Built(acts[ac.Id() := ac], PreAdded(pre, Some(p), ac.Id()), Added(bk, Some(p), ac.Id()))
  {
    var k := ac.Id();
    var pending' := bk.pending + [(p, k)];
    if k !in acts { NotWaiting(bk.pending, acts, k); }
    forall j ensures Count(pending', j) == Count(bk.pending, j) + (if j == k then 1 else 0) {
      CountPlus(bk.pending, (p, k), j);
    }
    assert forall e :: e in pending' <==> e in bk.pending || e == (p, k);
  }

  lemma {:induction false} NotWaiting(pending: seq<(Key, Key)>, acts: map<Key, Action>, k: Key)
    requires (forall e :: e in pending ==> e.1 in acts) && k !in acts
    ensures Count(pending, k) == 0
  {
    if pending != [] {
      assert pending[0] in pending;
      NotWaiting(pending[1..], acts, k);
    }
  }
}
