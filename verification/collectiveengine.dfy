// The part of CollectiveEngine (sumi/sim_transport.cc) that finds the collective
// a message belongs to, keeps messages for collectives not started yet, and
// retires collectives that are done.
module CollectiveEngines {
  import opened Actions
  import opened Protocol
  import opened LocalSteps
  import opened Bookkeeping
  import opened Engine
  import opened EngineRuns

  // A collective is known by its type and tag.
  datatype Id = Id(ty: nat, tag: nat)

  class CollectiveEngine<E(==,!new)> {
    var collectives: map<Id, DagCollectiveActor<E>>   // collectives_, one actor each
    var pending: map<Id, seq<Msg<E>>>                 // pending_collective_msgs_

    constructor ()
      ensures Valid() && collectives == map[] && pending == map[]
    {
      collectives, pending := map[], map[];
    }

    // Live collectives are resting and unfinished; nothing waits for them.
    ghost predicate Valid()
      reads this, collectives.Values
    {
      && (forall t :: t in collectives ==> Resting(collectives[t]) && !collectives[t].complete && t !in pending)
      && (forall s, t :: s in collectives && t in collectives && s != t ==> collectives[s] != collectives[t])
    }

    function Waiting(id: Id): seq<Msg<E>>
      reads this
    {
      if id in pending then pending[id] else []
    }

    // incoming
    method Incoming(id: Id, msg: Msg<E>) returns (done: bool)
      requires Valid()
      requires id in collectives ==>
                 AddressedTo(collectives[id].cfg, collectives[id].me, msg) && (msg.RdmaMsg? ==> msg.p in collectives[id].landed)
      modifies this, if id in collectives then {collectives[id]} else {}
      ensures Valid()
      // not started: the message is kept, behind those already waiting
      ensures id !in old(collectives) ==>
                !done && collectives == old(collectives) && pending == old(pending)[id := old(Waiting(id)) + [msg]]
      // started: its actor is served, and retired once complete
      ensures id in old(collectives) ==>
                var a := old(collectives[id]);
                && Resting(a) && a.Env() && Reaches(a.cfg, a.me, Delivered(a.cfg, a.me, old(a.Here()), msg), a.Here())
                && done == a.complete && pending == old(pending)
                && collectives == if done then old(collectives) - {id} else old(collectives)
    {
      hide Reaches, BookOk, Built, Shaped, KeptOk, Logged, Held, Plus, AllFinished, Delivered, AddressedTo, Resting;
      if id !in collectives {
        pending := pending[id := Waiting(id) + [msg]];
        done := false;
        forall t | t in collectives ensures Resting(collectives[t]) { StillResting(collectives[t]); }
      } else {
        var actor := collectives[id];
        Serve(actor, msg);
        forall t | t in collectives && t != id ensures Resting(collectives[t]) { StillResting(collectives[t]); }
        done := actor.complete;
        if done {
          Finish(id);
        }
      }
    }

    // finishCollective, once the last actor is done; messages still kept for
    // the collective would be lost, but there are none.
    method Finish(id: Id)
      modifies this
      ensures collectives == old(collectives) - {id} && pending == old(pending) - {id}
    {
      collectives := collectives - {id};
      pending := pending - {id};
    }

    // startCollective for a tag with no live collective: the actor starts, then
    // gets everything that came too early, once each and in the order of arrival.
    method StartCollective(id: Id, actor: DagCollectiveActor<E>) returns (done: bool)
      requires Valid() && id !in collectives && actor !in collectives.Values
      requires actor.Building() && Shaped(actor.cfg) && actor.me < actor.cfg.n == |actor.cfg.dag| == |actor.cfg.ptrs|
      requires actor.acts == actor.cfg.dag[actor.me].acts && actor.pre == actor.cfg.dag[actor.me].pre
      requires forall m :: m in Waiting(id) ==> AddressedTo(actor.cfg, actor.me, m) && !m.RdmaMsg?
      modifies this, actor
      ensures Valid() && Resting(actor) && actor.Env()
      ensures Serves(actor.cfg, actor.me, old(actor.Here()).(st := old(actor.View()).(begun := true)), old(Waiting(id)), actor.Here())
      ensures pending == old(pending) - {id} && done == (actor.complete && old(Waiting(id)) != [])
      ensures collectives == if actor.complete then old(collectives) else old(collectives)[id := actor]
    {
      hide Reaches, BookOk, Built, Shaped, KeptOk, Logged, Held, Plus, AllFinished, Delivered, AddressedTo, Serves, Resting;
      hide DagCollectiveActor.Building, DagCollectiveActor.Mid, DagCollectiveActor.Env;
      hide DagCollectiveActor.View, DagCollectiveActor.Here;
      var msgs := Waiting(id);
      ghost var a := actor.Here().(st := actor.View().(begun := true));
      StartActor(actor);
      pending := pending - {id};
      ServeAll(actor, msgs, a);
      done := actor.complete && msgs != [];
      forall t | t in collectives ensures Resting(collectives[t]) { StillResting(collectives[t]); }
      if !actor.complete {
        collectives := collectives[id := actor];
      }
    }
  }

  // Between two calls.
  ghost predicate Resting<E(!new)>(actor: DagCollectiveActor<E>)
    reads actor
  {
    actor.Mid({}) && actor.book.initial == {} && actor.limbo == multiset{}
  }

  twostate lemma StillResting<E(!new)>(actor: DagCollectiveActor<E>)
    requires old(Resting(actor)) && unchanged(actor)
    ensures Resting(actor)
  {
  }

  method StartActor<E(==,!new)>(actor: DagCollectiveActor<E>)
    requires actor.Building() && Shaped(actor.cfg) && actor.me < actor.cfg.n == |actor.cfg.dag| == |actor.cfg.ptrs|
    requires actor.acts == actor.cfg.dag[actor.me].acts && actor.pre == actor.cfg.dag[actor.me].pre
    modifies actor
    ensures Resting(actor) && actor.Env()
    ensures Serves(actor.cfg, actor.me, old(actor.Here()).(st := old(actor.View()).(begun := true)), [], actor.Here())
  {
    hide Reaches, BookOk, Built, Shaped, KeptOk, Logged, Held, Plus, AllFinished;
    actor.Start();
  }

  method Serve<E(==,!new)>(actor: DagCollectiveActor<E>, m: Msg<E>)
    requires Resting(actor) && AddressedTo(actor.cfg, actor.me, m) && (m.RdmaMsg? ==> m.p in actor.landed)
    modifies actor
    ensures Resting(actor) && actor.Env()
    ensures Reaches(actor.cfg, actor.me, Delivered(actor.cfg, actor.me, old(actor.Here()), m), actor.Here())
  {
    hide Reaches, BookOk, Built, Shaped, KeptOk, Logged, Held, Plus, AllFinished, Delivered, AddressedTo;
    actor.Deliver(m);
  }

  // deliverPending
  method ServeAll<E(==,!new)>(actor: DagCollectiveActor<E>, msgs: seq<Msg<E>>, ghost a: Local<E>)
    requires Resting(actor) && actor.Env() && Serves(actor.cfg, actor.me, a, [], actor.Here())
    requires forall m :: m in msgs ==> AddressedTo(actor.cfg, actor.me, m) && !m.RdmaMsg?
    modifies actor
    ensures Resting(actor) && actor.Env() && Serves(actor.cfg, actor.me, a, msgs, actor.Here())
  {
    hide Serves, Resting, Delivered, AddressedTo, Reaches, BookOk, Shaped, KeptOk, Logged, Held, Plus, AllFinished;
    for i := 0 to |msgs|
      invariant Resting(actor) && actor.Env() && Serves(actor.cfg, actor.me, a, msgs[..i], actor.Here())
    {
      ghost var mid := actor.Here();
      Serve(actor, msgs[i]);
      ServeOne(actor.cfg, actor.me, a, msgs[..i], mid, msgs[i], actor.Here());
      assert msgs[..i] + [msgs[i]] == msgs[..i + 1];
    }
    assert msgs[..|msgs|] == msgs;
  }
}
