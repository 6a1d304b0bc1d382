// What the initDag loops of all collectives do with the actor.
module DagBuilding {
  import opened Actions
  import opened Protocol
  import opened Bookkeeping
  import opened Engine

  lemma EmptyPre<E(!new)>(actor: DagCollectiveActor<E>)
    requires actor.Building() && actor.acts == map[]
    ensures actor.pre == map[]
  {
  }

  function Prevs(a: Option<Key>, b: Option<Key>): set<Key> {
    (if a.Some? then {a.value} else {}) + (if b.Some? then {b.value} else {})
  }

  lemma PrevsAre(a: Option<Key>, x: Key, y: Key)
    ensures Prevs(a, a) == Prevs(a, None) == if a.Some? then {a.value} else {}
    ensures Prevs(Some(x), None) == {x} && Prevs(Some(x), Some(y)) == {x, y}
  {
  }

  lemma TwicePre(pre: map<Key, set<Key>>, a: Option<Key>, b: Option<Key>, k: Key)
    ensures PreAdded(PreAdded(pre, a, k), b, k) == pre[k := if k in pre then pre[k] + Prevs(a, b) else Prevs(a, b)]
  {
    var was := if k in pre then pre[k] else {};
    var xa, xb := if a.Some? then {a.value} else {}, if b.Some? then {b.value} else {};
    assert was + xa + xb == was + Prevs(a, b);
    if k !in pre { assert was + Prevs(a, b) == Prevs(a, b); }
  }

  // addDependency(a, ac); addDependency(b, ac)
  method AddAfterBoth<E(==,!new)>(actor: DagCollectiveActor<E>, a: Option<Key>, b: Option<Key>, ac: Action)
    requires actor.Building()
    modifies actor`acts, actor`book, actor`pre
    ensures actor.Building() && actor.acts == old(actor.acts)[ac.Id() := ac]
    ensures var k, was := ac.Id(), old(actor.pre);
            actor.pre == was[k := if k in was then was[k] + Prevs(a, b) else Prevs(a, b)]
  {
    hide Built, PreAdded, Prevs;
    actor.AddDependency(a, ac);
    actor.AddDependency(b, ac);
    TwicePre(old(actor.pre), a, b, ac.Id());
  }

  // addDependency(a, ac) for an action that is new.
  method AddAfter<E(==,!new)>(actor: DagCollectiveActor<E>, a: Option<Key>, ac: Action)
    requires actor.Building() && ac.Id() !in actor.pre
    modifies actor`acts, actor`book, actor`pre
    ensures actor.Building() && actor.acts == old(actor.acts)[ac.Id() := ac]
    ensures actor.pre == old(actor.pre)[ac.Id() := Prevs(a, None)]
  {
    hide Built;
    actor.AddDependency(a, ac);
    assert {} + (if a.Some? then {a.value} else {}) == Prevs(a, None);
  }
}
