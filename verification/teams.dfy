// All ranks of a collective, from the built actors on: any sequence of events is
// let happen, and when nothing more can happen every actor has completed.
module Teams {
  import opened Actions
  import opened Protocol
  import opened Schedule
  import opened WaitGraphs
  import opened Liveness
  import opened Engine
  import opened Scenes
  import opened EnoughEvents
  import opened Worlds
  import opened CollectiveEngines
  import opened Launches

  // The memories after initBuffers: buffer 0 of rank r is bufs[r].
  function Initial<E(==,!new)>(bufs: seq<seq<E>>, blank: E): (nat, Cell) -> E {
    (r: nat, c: Cell) => if r < |bufs| && c.buf == 0 && 0 <= c.idx < |bufs[r]| then bufs[r][c.idx] else blank
  }

  // Actors for the first ranks, not started.
  ghost predicate Team<E(!new)>(cfg: Config<E>, actors: seq<DagCollectiveActor<E>>)
    reads actors
  {
    && |actors| <= cfg.n && Distinct(actors)
    && forall r: nat {:trigger actors[r]} :: r < |actors| ==> Prepared(cfg, r, actors[r])
  }

  ghost predicate Finished<E(!new)>(w: World<E>)
    reads w, w.actors
  {
    forall r: nat {:trigger w.actors[r]} :: r < |w.actors| ==> w.actors[r].complete
  }

  ghost predicate Stuck<E(!new)>(w: World<E>)
    reads w, w.actors
  {
    forall e :: !w.Possible(e)
  }

  // One engine for each rank.
  method Engines<E(==,!new)>(n: nat) returns (engines: seq<CollectiveEngine<E>>)
    ensures fresh(engines) && |engines| == n && DistinctEngines(engines)
    ensures forall r: nat :: r < n ==> engines[r].collectives == map[] && engines[r].pending == map[]
  {
    engines := [];
    for r := 0 to n
      invariant |engines| == r && fresh(engines) && DistinctEngines(engines)
      invariant forall q: nat :: q < r ==> engines[q].collectives == map[] && engines[q].pending == map[]
    {
      var engine := new CollectiveEngine<E>();
      engines := engines + [engine];
    }
  }

  // The actors with their engines, before any rank has called.
  method Assemble<E(==,!new)>(cfg: Config<E>, actors: seq<DagCollectiveActor<E>>) returns (w: World<E>)
    requires Basic(cfg) && Team(cfg, actors) && |actors| == cfg.n
    ensures fresh(w) && fresh(w.engines) && w.Valid() && w.cfg == cfg && w.actors == actors && w.Now() == Opening() && w.live == {}
  {
    hide Matched, Shaped, Prepared, After, IsRun, AllPlay, Called;
    var engines := Engines(cfg.n);
    w := new World(cfg, Id(0, 0), engines, actors);
  }

  // The world is where the events lead, no more and no less; just the ranks that
  // were told to have called; and all actors have completed if nothing more can
  // happen, or if there were enough events.
  ghost predicate Ran<E(!new)>(w: World<E>, events: seq<Event<E>>)
    reads w, w.actors, w.engines
  {
    && w.Valid() && |w.actors| == w.cfg.n && Leads(w.cfg, Opening(), events, w.Now())
    && w.live == (set r: nat | r < w.cfg.n && Event<E>.Call(r) in events)
    && (Stuck(w) ==> Finished(w)) && (Enough(w.cfg, Opening(), events) ==> Finished(w))
  }

  lemma RanWell<E(!new)>(w: World<E>, events: seq<Event<E>>)
    requires Ran(w, events)
    ensures w.Valid() && |w.actors| == w.cfg.n
    ensures w.live == set r: nat | r < w.cfg.n && Event<E>.Call(r) in events
  {
  }

  // There are enough events, whatever the ranks make of them.
  ghost predicate Completable<E(!new)>(cfg: Config<E>) {
    Shaped(cfg) && exists events :: Enough(cfg, Opening(), events)
  }

  // The protocols in use are the ones asked for.
  ghost predicate Selected<E(!new)>(cfg: Config<E>, n: nat, ue: nat -> bool, ug: bool) {
    cfg.n == n && cfg.useEager == ue && cfg.useGet == ug
  }

  method RunTeam<E(==,!new)>(cfg: Config<E>, actors: seq<DagCollectiveActor<E>>, events: seq<Event<E>>) returns (w: World<E>)
    requires Basic(cfg) && Timed(cfg) && Team(cfg, actors) && |actors| == cfg.n
    modifies actors
    ensures fresh(w) && w.cfg == cfg && w.actors == actors && Ran(w, events) && (WellFormed(cfg) ==> Completable(cfg))
  {
    hide Matched, Timed, Shaped, Prepared, After, IsRun, AllPlay, Called, Team, Closed, Acyclic, DistinctEngines, Distinct;
    hide RaceFree, ScratchOk, Fits, Leads, Stuck, Finished, Enough, NoEmptyDag;
    TimedAcyclic(cfg);
    SomeActions(cfg, actors);
    w := Assemble(cfg, actors);
    w.Run(events);
    if WellFormed(cfg) { SomeEnough(cfg, Opening()); }
    WhenStuck(w);
    WhenEnough(w, events);
  }

  lemma WhenStuck<E(!new)>(w: World<E>)
    requires w.Valid() && Closed(w.cfg) && NoEmptyDag(w.cfg) && Acyclic(w.cfg, false)
    ensures |w.actors| == w.cfg.n && (Stuck(w) ==> Finished(w))
  {
    hide Matched, Shaped, After, IsRun, Called, Closed, Acyclic, NoEmptyDag, Plays, Hosts;
    if Stuck(w) { w.StuckIsDone(); }
  }

  lemma WhenEnough<E(!new)>(w: World<E>, events: seq<Event<E>>)
    requires w.Valid() && Leads(w.cfg, Opening(), events, w.Now())
    ensures |w.actors| == w.cfg.n && (Enough(w.cfg, Opening(), events) ==> Finished(w))
  {
    hide Matched, Shaped, After, IsRun, Called, Leads, Plays, Hosts, AllComplete;
    if Enough(w.cfg, Opening(), events) {
      assert Over(w.cfg, w.Now());
      w.AllDone();
    }
  }

  lemma SomeActions<E(!new)>(cfg: Config<E>, actors: seq<DagCollectiveActor<E>>)
    requires Shaped(cfg) && Team(cfg, actors) && |actors| == cfg.n
    ensures NoEmptyDag(cfg)
  {
    forall r: nat | r < cfg.n ensures cfg.dag[r].acts != map[] { assert Prepared(cfg, r, actors[r]); }
  }
}
