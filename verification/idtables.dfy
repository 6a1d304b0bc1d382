// The engine files actions and messages under 32-bit ids; the model files them
// under what the ids encode.  Where no two actions of a rank share an id
// (module Ids) the two agree, in every table and for every message.
module IdTables {
  import opened Actions
  import opened Protocol
  import opened Schedule
  import opened Invariant
  import opened ControlSteps
  import opened Conservation
  import opened Ids

  // byId is the table byKey, filed under ids.
  ghost predicate Filed<V(!new)>(dag: Dag, byKey: map<Key, V>, byId: map<nat, V>) {
    && byKey.Keys <= dag.acts.Keys
    && (forall k :: k in byKey ==> MessageId(k) in byId && byId[MessageId(k)] == byKey[k])
    && (forall id :: id in byId ==> exists k :: k in byKey && MessageId(k) == id)
  }

  // find: an action is found under its id exactly when it is in the table.
  lemma FiledFind<V(!new)>(dag: Dag, byKey: map<Key, V>, byId: map<nat, V>, k: Key)
    requires DistinctIds(dag) && Filed(dag, byKey, byId) && k in dag.acts
    ensures MessageId(k) in byId <==> k in byKey
    ensures k in byKey ==> byId[MessageId(k)] == byKey[k]
    ensures byId == map[] <==> byKey == map[]
  {
    if id :| id in byId { var k' :| k' in byKey && MessageId(k') == id; }
    if k' :| k' in byKey { assert MessageId(k') in byId; }
  }

  // insert and erase by id do what they do by key.
  lemma FiledInsert<V(!new)>(dag: Dag, byKey: map<Key, V>, byId: map<nat, V>, k: Key, v: V)
    requires DistinctIds(dag) && Filed(dag, byKey, byId) && k in dag.acts
    ensures Filed(dag, byKey[k := v], byId[MessageId(k) := v])
  {
    hide MessageId;
    var ins, insId := byKey[k := v], byId[MessageId(k) := v];
    forall id | id in insId ensures exists k' :: k' in ins && MessageId(k') == id {
      if id == MessageId(k) {
        assert k in ins;
      } else {
        var k' :| k' in byKey && MessageId(k') == id;
        assert k' in ins;
      }
    }
  }

  lemma FiledErase<V(!new)>(dag: Dag, byKey: map<Key, V>, byId: map<nat, V>, k: Key)
    requires DistinctIds(dag) && Filed(dag, byKey, byId) && k in dag.acts
    ensures Filed(dag, byKey - {k}, byId - {MessageId(k)})
  {
    hide MessageId;
    var del, delId := byKey - {k}, byId - {MessageId(k)};
    forall id | id in delId ensures exists k' :: k' in del && MessageId(k') == id {
      var k' :| k' in byKey && MessageId(k') == id;
      assert k' in del;
    }
  }

  // The id in a message of rank r for action k names k and no other action.
  ghost predicate Names(dag: Dag, k: Key) {
    k in dag.acts && forall a :: a in dag.acts && MessageId(a) == MessageId(k) ==> a == k
  }

  // In every run, whatever header, payload or acknowledgement is on its way to a
  // rank or kept by it, the id computed from it finds just the action it is for.
  lemma MessagesNameActions<E(!new)>(cfg: Config<E>, steps: seq<Step<E>>, r: nat)
    requires Basic(cfg) && IsRun(cfg, steps) && r < cfg.n && DistinctIds(cfg.dag[r])
    ensures var g := After(cfg, steps);
            && (forall c :: (c in g.net.hdrs || c in g.ranks[r].hdrQ) && HdrHome(cfg, c) == r ==> Names(cfg.dag[r], HdrKey(cfg, c)))
            && (forall c :: c in g.net.acks && c.src == r ==> Names(cfg.dag[r], SendKey(c)))
            && (forall p :: (p in g.net.pays || p in g.ranks[r].payQ) && p.chan.dst == r ==> Names(cfg.dag[r], RecvKey(p.chan)))
  {
    hide Matched, Conserved, IsRun, After, RankOk;
    var lg := RunControl(cfg, steps);
    var g := After(cfg, steps);
    assert Local(cfg, lg, r, g.ranks[r]);
    forall c | IsChan(cfg, c)
      ensures c.src == r ==> SendKey(c) in cfg.dag[r].acts
      ensures c.dst == r ==> RecvKey(c) in cfg.dag[r].acts
    {
      ChanEnds(cfg, c);
    }
  }
}
