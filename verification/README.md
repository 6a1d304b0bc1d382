# SUMI collectives

SUMI runs MPI-style collectives on a simulated machine. Every rank of a
collective builds a DAG of actions (send, receive, local shuffle, join); one
asynchronous engine, `DagCollectiveActor`, executes the DAG. Messages travel in
any order and by one of three wire protocols: eager (the data comes with the
message), get (the sender sends a header, the receiver fetches) and put (the
receiver sends a header, the sender pushes).

This project models that layer and proves that *every run on every rank* ends in
the result the collective is for, in five layers.

**The system.** `protocol.dfy` is the collective as a state machine: n ranks,
messages in flight as multisets, one step per delivery, NIC read, RDMA write,
completion, or local action. `schedule.dfy` says what a family of DAGs must
satisfy (matched sends and receives, acyclic dependencies, race freedom) and
gives such a family a meaning that has no messages: `At(cfg, t, r, c)`, the
content of cell c on rank r when the actions are carried out round by round.
`invariant.dfy`, `control.dfy`, `conservation.dfy` and `liveness.dfy` prove for
every matched family that messages are conserved, no abort is reached, every run
is bounded and, when nothing waits in a circle (`waits.dfy`), no run deadlocks;
`deadlock.dfy` proves that this condition is exact. `memory.dfy` and `safety.dfy`
prove for race free families that all interleavings agree with the round-by-round
reading: a completed rank holds its result. `midrun.dfy` says what a rank in the
middle of a run holds.

**The engine.** `engine.dfy` is `DagCollectiveActor` as a class: its
bookkeeping fields, the recursion clearAction, clearDependencies, startAction,
and the kept messages. Its methods are proved to take exactly steps of the state
machine and to stop only when none is left (`local.dfy`, `bookkeeping.dfy`);
`enginerun.dfy` turns whatever an actor does into a run of the system.
`collectiveengine.dfy` adds the table of live collectives and the messages that
come before their collective exists, `workmessage.dfy` the addressing of
messages, `slicer.dfy` the copying and reducing of received data, `idtables.dfy`
the tables keyed by 32-bit ids. `world.dfy` is a collective of such actors, each in
the engine of its rank, and the network between them. Messages for a rank that has
not called wait in its engine and are served when it calls (`early.dfy`).

**The events.** `scene.dfy` says what events do, without the actors: a scene is the
events that took place, the run of the state machine they have led to and the
messages in the network, and an event that is possible adds itself to the log and its
own steps to the run, and no others. `world.dfy` proves that the actors do just this,
whatever is called, delivered, read or written, in any order. `enough.dfy` proves that
some event is possible until all ranks have completed, and that there are events after
which all have. `wire.dfy` says how the protocol in use shows on a channel.

**The schedules.** Allreduce and reduce (`wilke.dfy` with `halving.dfy`,
`virtualranks.dfy`), allgather, allgatherv and barrier (`bruck.dfy`), all-to-all
(`alltoall.dfy`), gather (`gather.dfy`) and broadcast (`bcast.dfy`): for each, the
DAG of every rank as a function, a proof that the DAGs are well formed for every
rank count and length (`*proof.dfy`), what they compute, and the theorem over all
runs. `wilketraffic.dfy` and `traffic.dfy` count their messages. The `*dag.dfy` files hold the `initDag` loops and prove that they build just
these DAGs; `alltoallbuffers.dfy` holds the all-to-all copy loops and
`alltoallinplace.dfy` what comes of them in place.

**End to end.** `launch.dfy` builds the actor of every rank with the loops, so that
it is rank `me` of the system. `teams.dfy`, `runreductions.dfy` and
`rungathers.dfy` put everything together for each collective: buffers are set up by
`initBuffers`, actors are built, and any sequence of events is let happen: those
possible in turn, and nothing else. An actor that has completed then holds the result
of the collective, and every actor has completed when no further event is possible, or
when there were enough events.

**Beside them.** `ids.dfy` shows that the 32-bit action ids do not collide for
any of the schedules, `denserank.dfy` models `DenseRankMap`.

## What came out

* The reduce is not right for every input. With a root other than 0, exactly one
  rank with two virtual roles (the next power of two minus the rank count is 1)
  and two or more elements, rank 1 hands its own contribution to the root as the
  second half of the result. `ReduceRightExactly` proves that it is right exactly
  outside that case; `ReduceLoses` builds the failing run.
* Which DAGs can complete depends on the protocol. Under rendezvous they do exactly
  if the graph with the two ends of every message merged has no cycle; an eager send
  finishes without its receiver, so two ranks that each send and then receive
  complete under eager and deadlock otherwise (`CompletesExactly`,
  `ExchangeNeedsEager`). The modelled schedules have no cycle in either graph.
* An actor with an empty DAG never reports completion; no modelled schedule has one.
* In place, `BruckAllgathervActor::initBuffers` may call memcpy on overlapping
  ranges, for instance rank 1 of block lengths 1 and 5; exactly when is
  `CopyDefinedExactly`, and never with equal blocks.
* In place, `BruckAlltoallActor::initBuffers` overwrites blocks before they are read
  at every rank but 0 (`InPlaceExactly`). The block of rank q for rank r then reaches
  it in all runs iff r >= q, or q + r >= nproc, or blocks are empty
  (`ArrivesExactly`, with the failing run in `BlockLost`), so the all-to-all is right
  in place only for empty blocks (`TransposesExactly`).
* `linearFindRank` gives a number for a failed rank where `treeFindRank`, used for
  more than four failures, throws; the two agree on live ranks.
* The comments in `sumi/reduce.cc:260` call the second hand-off sender the
  midpoint; the code sends from rank 1, and the model follows the code.
* `BinaryTreeBcastActor::initBuffers` compares with rank 0 instead of the root;
  this has no effect because both pointers are the same buffer.

The operator of a reduction is any associative and commutative function. One
element stands for `type_size_` bytes, buffers are real, and there are at least
two ranks.

## Model

| member | source | states |
|---|---|---|
| Actions.DetailsInvertMessageId | sumi/collective_actor.h:106-122 | details decodes an id exactly when the round is below 500 and the 32-bit product does not wrap |
| Actions.MessageIdInjective | sumi/collective_actor.h:106-109 | below round 500 and partner 1431654, equal ids mean the same type, round and partner |
| Actions.IdsOfRound | sumi/collective_actor.h:75-109 | without wrap-around a send's id is a multiple of 6, and the ids of the receive, shuffle and join of the same round and partner are 1, 2 and 5 more |
| Ids.ReductionIds | sumi/allreduce.cc:118-225 | no two actions of an allreduce or reduce DAG share an id, for up to 1431655 ranks |
| Ids.AllgatherIds | sumi/allgather.cc:105-165 | the same for allgather, allgatherv and barrier |
| Ids.AlltoallIds | sumi/alltoall.cc:137-196 | the same for all-to-all |
| Ids.GatherIds | sumi/gather.cc:120-221 | the same for gather |
| Ids.BcastIds | sumi/bcast.cc:142-157 | the same for broadcast |
| Invariant.InitControl | sumi/collective_actor.cc:147-159 | before anything starts, ranks, queues and every channel's message balance are in order |
| ControlSteps.StartControl | sumi/collective_actor.cc:161-210 | starting an action whose precursors are finished opens its channel with exactly the messages its protocol posts |
| ControlSteps.NetHdrControl | sumi/collective_actor.cc:756-808 | a delivered header is turned into one transfer or kept once, never lost or doubled |
| ControlSteps.HeldHdrControl | sumi/collective_actor.cc:521-539 | the same for a kept header redelivered when its action becomes active |
| ControlSteps.ReleaseControl | sumi/collective_actor.cc:699-754 | a posted transfer becomes one payload and one acknowledgement |
| ControlSteps.EagerInControl | sumi/collective_actor.cc:759-781 | an eager message is consumed by its active receive or kept, once |
| ControlSteps.HeldEagerControl | sumi/collective_actor.cc:521-539 | a kept eager message is consumed once its receive is active |
| ControlSteps.LandControl | sumi/collective_actor.cc:661-671 | an RDMA payload lands for a receive that is active |
| ControlSteps.LandedControl | sumi/collective_actor.cc:638-659 | a polled RDMA payload always finds its receive; the throw for an unknown receive is not reached |
| ControlSteps.AckInControl | sumi/collective_actor.cc:551-576 | an injection acknowledgement always finds its send active; the abort is not reached |
| ControlSteps.DoneControl | sumi/collective_actor.cc:415-425 | completing keeps every message accounted for |
| Schedule.PrecTrans | sumi/collective_actor.cc:384-401 | the ordering that chains of dependencies impose is transitive |
| Schedule.AtWrite | sumi/collective_actor.cc:578-636 | under race freedom the one action that writes a cell in a round determines its new content |
| Schedule.LayersRaceFree | sumi/collective_actor.cc:222-251 | DAGs in which each action waits for the whole layer before it are race free if each layer is |
| Safety.StepInv | sumi/collective_actor.cc:147-885 | for well-formed DAGs every step, in any order and under any mix of protocols, keeps the memory invariant too |
| Safety.RunsAreCorrect | sumi/collective_actor.cc:415-425 | for well-formed DAGs, after any run no abort was reached, and a completed rank has finished exactly its DAG and holds finalize of the round-by-round result |
| MidRuns.BetweenRounds | sumi/collective_actor.cc:147-885 | in every run, a rank that has finished just its actions before round t and started no other holds the round-by-round value of every cell at t |
| MidRuns.CellSettled | sumi/collective_actor.cc:578-636 | in every run, a cell all of whose writers on a rank are finished has its round-by-round value |
| Conservation.StepControl | sumi/collective_actor.cc:147-885 | for any matched DAGs, race free or not, every step keeps dependencies and consumes each message exactly once |
| Conservation.NoAbort | sumi/collective_actor.cc:551-659 | no run of matched DAGs reaches an abort or throw of the engine, and a completed rank has finished exactly its DAG |
| Conservation.CompleteIsQuiet | sumi/collective_actor.cc:826-841 | once a rank has completed, its pending maps are empty and no header, transfer, payload or acknowledgement for it is in flight |
| Liveness.NoDeadlock | sumi/collective_actor.cc:484-519 | a run of matched DAGs in which nothing waits in a circle that cannot be extended has completed every rank |
| Liveness.StepBudget | sumi/collective_actor.cc:147-885 | every step lowers an explicit budget of outstanding work |
| Liveness.RunsTerminate | sumi/collective_actor.cc:147-885 | no run is longer than the initial budget |
| Liveness.RunsComplete | sumi/collective_actor.cc:147-885 | every run of such DAGs can be extended to one in which all ranks have completed |
| WaitGraphs.StampsExactly | sumi/collective_actor.cc:384-401 | matched DAGs have no cycle with both ends of every message merged iff their actions can be given time stamps, equal at both ends and growing along dependencies |
| WaitGraphs.MergedIsExact | sumi/collective_actor.cc:435-482 | without eager messages what waits for what is the merged graph |
| Deadlocks.CompletesExactly | sumi/collective_actor.cc:147-885 | matched DAGs can complete iff no DAG is empty, precursors are actions, and nothing waits in a circle under the protocols in use |
| Deadlocks.CycleNeverCompletes | sumi/collective_actor.cc:222-251 | in no run does a rank with an action on a circle of waiting complete |
| Deadlocks.RendezvousCompletesExactly | sumi/collective_actor.cc:435-482 | under get or put they can complete iff the merged graph has no cycle |
| Deadlocks.ExchangeNeedsEager | sumi/collective_actor.cc:435-449 | two ranks that each send and then receive complete under eager and never otherwise |
| WireProtocols.FirstMessage | sumi/collective_actor.cc:435-482 | in every run an eager channel has no header, and its data from the start of its send to the end of its receive; otherwise no data is posted before both ends have started, and the end that starts first has sent a header if it is the sender under get or the receiver under put, and nothing else |
| WireProtocols.ProtocolShows | sumi/collective_actor.cc:451-482 | so the protocol of a channel with one end started can be told from what is on it |
| WireProtocols.PostedAtOnce | sumi/collective_actor.cc:435-449 | in every run an eager send that has started, and whose data the NIC has not read, has its transfer posted |
| IdTables.FiledFind | sumi/collective_actor.h:373-378 | where ids are distinct, a table keyed by ids finds what the model's table finds |
| IdTables.FiledInsert | sumi/collective_actor.h:373-378 | insertion by id keeps the two tables the same |
| IdTables.FiledErase | sumi/collective_actor.h:373-378 | so does erasure by id |
| IdTables.MessagesNameActions | sumi/collective_actor.cc:756-808 | in every run, the id computed from a message of a rank is the id of the action it is for and of no other |
| Bookkeeping.NotifyOk | sumi/collective_actor.cc:222-251 | taking one pending entry and lowering its counter keeps the book exact; the action may start iff the counter is 0 |
| Bookkeeping.EmptyMeansDone | sumi/collective_actor.cc:415-425 | active, pending and initial are all empty iff every action is finished |
| Bookkeeping.OnePlace | sumi/collective_actor.cc:222-260 | join_counter equals the number of pending entries, and each action is initial, waiting, active or completed, exactly one of them |
| Bookkeeping.NothingReady | sumi/collective_actor.cc:147-159 | with nothing initial, each action not started waits for an unfinished one |
| Bookkeeping.AddedAfter | sumi/collective_actor.cc:335-347 | adding a dependency keeps counters and pending entries in step, and takes the action out of the initial set |
| Bookkeeping.AddedAlone | sumi/collective_actor.cc:349-374 | an action added without a precursor is initial iff it waits for nothing |
| Engine.DagCollectiveActor.AddDependencyToMap | sumi/collective_actor.cc:335-347 | records one more precursor of an action |
| Engine.DagCollectiveActor.AddAlone | sumi/collective_actor.cc:349-374 | adds an action without a precursor |
| Engine.DagCollectiveActor.AddDependency | sumi/collective_actor.cc:384-401 | adds an action, with or without a precursor |
| Engine.DagCollectiveActor.CheckCollectiveDone | sumi/collective_actor.cc:415-425 | finalizes and reports completion exactly when every action is finished |
| Engine.DagCollectiveActor.StartAction | sumi/collective_actor.cc:161-210 | starts an action and everything that follows by itself, each as one step of the rank |
| Engine.DagCollectiveActor.StartSend | sumi/collective_actor.cc:427-433 | becomes active, serves kept put headers, then sends |
| Engine.DagCollectiveActor.DoSend | sumi/collective_actor.cc:435-449 | posts the eager message or get header, nothing under put |
| Engine.DagCollectiveActor.StartRecv | sumi/collective_actor.cc:464-469 | becomes active, then receives the messages kept for it again |
| Engine.DagCollectiveActor.DoRecv | sumi/collective_actor.cc:471-482 | sends a put header exactly when neither eager nor get applies |
| Engine.DagCollectiveActor.RedeliverHeaders | sumi/collective_actor.cc:521-539 | acts on every header kept for an action, once |
| Engine.DagCollectiveActor.TakeKept | sumi/collective_actor.cc:521-531 | takes out all eager messages kept for a receive, and no others |
| Engine.DagCollectiveActor.RedeliverKept | sumi/collective_actor.cc:533-538 | a message taken out is received again, or goes back if its receive has finished meanwhile |
| Engine.DagCollectiveActor.Receive | sumi/collective_actor.cc:843-885 | each kind of message takes its delivery step and all steps that follow |
| Engine.DagCollectiveActor.IncomingEager | sumi/collective_actor.cc:759-781 | processes or keeps an eager message |
| Engine.DagCollectiveActor.IncomingHeader | sumi/collective_actor.cc:782-804 | answers or keeps a get or put header |
| Engine.DagCollectiveActor.LandedIn | sumi/collective_actor.cc:638-659 | processes an RDMA payload that is already in memory |
| Engine.DagCollectiveActor.DataRecved | sumi/collective_actor.cc:578-636 | moves or reduces the received data, then finishes the receive |
| Engine.DagCollectiveActor.DataSent | sumi/collective_actor.cc:570-576 | finishes the send, or aborts if it is not active |
| Engine.DagCollectiveActor.FinishComm | sumi/collective_actor.cc:551-568 | finishes an active send or receive |
| Engine.DagCollectiveActor.StartInner | sumi/collective_actor.cc:178-200 | runs a shuffle or join and finishes it at once |
| Engine.DagCollectiveActor.ClearAction | sumi/collective_actor.cc:253-260 | retires a finished action, checks for completion, notifies dependents, logs it |
| Engine.DagCollectiveActor.ClearDependencies | sumi/collective_actor.cc:222-251 | afterwards nothing waits for the action; every action that became ready has been started |
| Engine.DagCollectiveActor.Start | sumi/collective_actor.cc:147-159 | starts every initial action and returns with no step of the rank left |
| Engine.DagCollectiveActor.Deliver | sumi/collective_actor.cc:843-885 | a delivery from outside ends with no step of the rank left; complete iff every action is finished |
| Engine.DagCollectiveActor.Arrive | sumi/collective_actor.cc:661-671 | the NIC writes a payload where getRecvbuffer points |
| LocalSteps.ReachesIsRun | sumi/collective_actor.cc:147-260 | what a rank does on its own extends a run of the system |
| EngineRuns.DeliverIsRun | sumi/collective_actor.cc:843-885 | delivering a message to an actor, with all that follows, extends a run of the system |
| EngineRuns.StartIsRun | sumi/collective_actor.cc:147-159 | so does starting an actor |
| EngineRuns.ServesIsRun | sumi/sim_transport.cc:901-911 | starting late and serving every early message once, in order, extends a run of the system |
| CollectiveEngines.CollectiveEngine.Incoming | sumi/sim_transport.cc:1012-1044 | a message for a collective not started is kept behind the others; otherwise its actor is served and retired when complete |
| CollectiveEngines.CollectiveEngine.StartCollective | sumi/sim_transport.cc:937-969 | a new collective starts and gets every kept message exactly once in order of arrival |
| CollectiveEngines.CollectiveEngine.Finish | sumi/sim_transport.cc:971-993 | the collective and its kept messages leave the tables |
| CollectiveEngines.ServeAll | sumi/sim_transport.cc:901-911 | all kept messages are served one after the other |
| WorkMessages.CollectiveWorkMessage.Reverse | sumi/collective_message.h:152-154 | exchanges sender and receiver |
| WorkMessages.Exchange | sumi/collective_message.h:152-193 | under each protocol the header, the payload and the acknowledgement of a channel reach the right rank and name the right action, put headers by being reversed |
| Slicers.UnpackReduce | sumi/comm_functions.h:172-182 | reduces packed data element by element into the buffer, in place |
| Slicers.UnpackRecvBuf | sumi/collective_actor.cc:953-961 | copies packed data into the buffer |
| Slicers.Unpack | sumi/collective_actor.cc:600-625 | for each receive type the buffer written to ends with the payload copied or reduced in its range and is unchanged outside |
| Slicers.DataRecved | sumi/collective_actor.cc:589-625 | the buffers end as the schedules' memory function says, for separate and aliased buffers; a message from the rank itself is ignored |
| VirtualRanks.ComputeTree | sumi/collective_actor.cc:887-898 | finds the least power of two not below nproc, its exponent and half of it |
| VirtualRanks.RealToVirtual | sumi/collective_actor.cc:900-912 | fills in the one or two virtual roles of a rank |
| VirtualRanks.RolesPartition | sumi/collective_actor.cc:900-927 | the roles of the real ranks partition the virtual ranks, inversely to virtualToReal |
| VirtualRanks.SharedRoles | sumi/collective_actor.h:397-404 | two roles of one rank are partners at distance 1 and at no other distance |
| Halving.KeptSplit | sumi/allreduce.cc:140-158 | partners agree on the range they split, and split it exactly |
| Halving.KeptPartition | sumi/allreduce.cc:118-188 | after t rounds the kept ranges of 2^t virtual ranks partition the vector |
| WilkeProof.PartnerStep | sumi/allreduce.cc:160-225 | what a step sends is what its partner receives, in halving and mirrored rounds |
| WilkeProof.NoGap | sumi/reduce.cc:208-251 | a role's steps are consecutive, also where ranks leave the reduce early |
| WilkeProof.StaysInside | sumi/allreduce.cc:140-225 | no send or receive leaves the vector |
| WilkeProof.WilkeWellFormed | sumi/allreduce.cc:87-229 | for every rank count and length: sends and receives match one to one, dependencies are acyclic, and no unordered actions of a rank touch a common element, two roles included |
| WilkeSync.HalvingValue | sumi/allreduce.cc:118-188 | after t halving rounds each kept element combines the ranks of the virtual rank's block, each once |
| WilkeSync.MirrorValue | sumi/allreduce.cc:190-225 | the mirrored rounds restore every element fully combined |
| WilkeSync.AllreduceValue | sumi/allreduce.cc:87-229 | round by round, all ranks end with all elements fully combined |
| WilkeSync.ReduceValue | sumi/reduce.cc:99-292 | the exact content of the root's buffer, for every root |
| WilkeTraffic.StepRoles | sumi/reduce.cc:208-251 | in step s exactly those roles have a send and a receive whose partner is on another rank and that have not left: in a mirrored step of a reduce the roles below 2^(2L-s) |
| WilkeTraffic.StepMessages | sumi/reduce.cc:208-251 | how many messages step s has |
| WilkeTraffic.AllreduceMessages | sumi/allreduce.cc:118-225 | an allreduce has 2 L 2^L - 4 T messages, with 2^L virtual ranks and T ranks of two roles |
| WilkeTraffic.ReduceMessages | sumi/reduce.cc:123-288 | a reduce has L 2^L - 2 T messages in its halving steps, 2 2^L - 2 in the mirrored ones (2 fewer if T > 0) for root 0, and 2 2^L - 4 and a hand-off of one or two for another root |
| Reductions.AllreduceCorrect | sumi/allreduce.cc:87-229 | in every run a completed rank holds in each element the fold over all ranks' contributions |
| Reductions.ReduceResult | sumi/reduce.cc:99-292 | in every run a completed root holds the fold, except that for a root other than 0 and one two-role rank the second half is rank 1's own contribution |
| Reductions.ReduceRightExactly | sumi/reduce.cc:257-288 | summing to a root is right on all inputs and runs iff the root is 0, or not exactly one rank has two roles, or there is at most one element |
| Reductions.ReduceLoses | sumi/reduce.cc:268-273 | a run on all ones in which the root ends with a wrong element |
| WilkeDag.IsSharedRole | sumi/collective_actor.h:397-404 | finds whether a virtual partner is another role of the same rank |
| WilkeDag.HalvingRounds | sumi/allreduce.cc:118-188 | the halving loop enters exactly the schedule's halving steps of a role |
| WilkeDag.MirrorRounds | sumi/reduce.cc:208-251 | the mirrored loop enters exactly the schedule's mirrored steps of a role, with early exit |
| WilkeDag.AllreduceInitDag | sumi/allreduce.cc:87-229 | initDag builds exactly the DAG of the schedule |
| WilkeDag.ReduceInitDag | sumi/reduce.cc:99-292 | initDag builds exactly the DAG of the schedule, final join and hand-off included |
| WilkeDag.AllreduceInitBuffers | sumi/allreduce.cc:68-85 | the result buffer holds the contribution, in place or copied |
| WilkeDag.ReduceInitBuffers | sumi/reduce.cc:78-97 | the same, in a workspace at ranks other than the root |
| Bruck.OffSum | sumi/allgatherv.cc:87-96 | the lengths of consecutive blocks add up round the ring |
| BruckProof.PartnersAgree | sumi/allgatherv.cc:133-182 | sizes computed by sender and receiver agree in every step, the extra one included |
| BruckProof.StaysInside | sumi/allgatherv.cc:133-182 | no send or receive leaves the result buffer |
| BruckProof.BruckWellFormed | sumi/allgatherv.cc:98-182 | for every rank count and all block lengths the schedule is matched, acyclic and race free |
| BruckProof.Gathered | sumi/allgather.cc:125-164 | round by round: before step t, slot j of rank r holds the block of rank r+j, for all j below 2^t |
| MidRuns.BlocksInRun | sumi/allgather.cc:125-164 | in every run, a rank that has finished the receive of step s and not completed holds the block of rank r+j in slot j, for every slot it has after that step, whatever else is under way |
| Gathers.RotationPlaces | sumi/allgatherv.cc:190-220 | the final rotation takes each block to its place in rank order |
| Gathers.AllgathervCorrect | sumi/allgatherv.cc:61-220 | in every run a completed rank holds all blocks, of any lengths, packed in rank order |
| Gathers.AllgatherCorrect | sumi/allgather.cc:77-206 | the same for equal blocks |
| Gathers.Reached | sumi/allgather.cc:104-165 | a rank that has finished the receive of step s knows that the next 2^(s+1) ranks have started |
| Gathers.BarrierSafe | sumi/allgather.cc:104-165 | in every run, no rank completes before all ranks have started |
| Traffic.AllgatherMessages | sumi/allgather.cc:104-165 | allgather, allgatherv and barrier have nproc messages in each of the least number of rounds t with nproc <= 2^t |
| Traffic.RoundNumbers | sumi/allgather.cc:146-160 | rounds are numbered 0, 1, ...; where allgather has an extra round, it skips one number |
| BruckDag.BruckTree | sumi/allgather.cc:62-75 | rounds and size of the extra exchange |
| BruckDag.Displacement | sumi/allgatherv.h:60-72 | the prefix sum before me, and the total |
| BruckDag.NelemsToRecv | sumi/allgatherv.cc:87-96 | sums the lengths of the partner's blocks round the ring |
| BruckDag.AllgathervInitDag | sumi/allgatherv.cc:98-182 | initDag builds exactly the DAG of the schedule |
| BruckDag.AllgatherInitDag | sumi/allgather.cc:104-165 | initDag builds exactly the DAG of the schedule with equal blocks |
| BruckDag.InitBuffers | sumi/allgatherv.cc:61-80 | the rank's own block comes first, from anywhere in a separate buffer or in the result buffer, and from the rank's displacement if both pointers are equal |
| BruckDag.CopyDefinedExactly | sumi/allgatherv.cc:67-72 | the in-place copy does not overlap iff it is rank 0, or the block is empty or no longer than what precedes it |
| BruckDag.CopyOverlaps | sumi/allgatherv.cc:67-72 | it overlaps at rank 1 of block lengths 1 and 5 |
| BruckDag.EvenCopyDefined | sumi/allgather.cc:83-88 | with equal blocks it never overlaps |
| BruckDag.Finalize | sumi/allgatherv.cc:190-220 | rotates the buffer as the schedule's finalize says |
| AlltoallProof.UnpackedIs | sumi/alltoall.cc:98-119 | unpacking undoes packing |
| AlltoallProof.AlltoallWellFormed | sumi/alltoall.cc:136-196 | for every rank count the schedule is matched, acyclic and race free |
| AlltoallProof.SlotValue | sumi/alltoall.cc:148-195 | round by round: before round s, slot j has moved by the sum of the processed binary digits of j |
| MidRuns.SlotsInRun | sumi/alltoall.cc:148-195 | in every run, a rank that has unpacked s rounds and not the next holds in slot j what slot j held at first on the rank as far below as the first s digits of j say |
| AlltoallProof.AlltoallCorrect | sumi/alltoall.cc:65-232 | in every run, block q of a completed rank r is the block rank q had for r |
| Traffic.AlltoallMessages | sumi/alltoall.cc:148-195 | the all-to-all has nproc messages in each of the least number of rounds t with nproc <= 2^t |
| AlltoallDag.PackedIs | sumi/alltoall.cc:98-119 | in closed form, where a slot is packed in round s |
| AlltoallDag.ClosedForm | sumi/alltoall.cc:151-161 | numSendBlocks is the number of slots below nproc whose digit s is 1 |
| AlltoallDag.FitsWorkspace | sumi/alltoall.cc:83-86 | at most midpoint blocks move in a round |
| AlltoallDag.CountBlocks | sumi/alltoall.cc:151-161 | computes that number |
| AlltoallDag.AlltoallInitDag | sumi/alltoall.cc:136-196 | initDag builds exactly the DAG of the schedule |
| AlltoallBuffers.Shuffle | sumi/alltoall.cc:98-119 | the strided copy loop packs, or unpacks, exactly the moving slots and leaves the rest |
| AlltoallBuffers.StartShuffle | sumi/alltoall.cc:121-134 | for every shuffle action of a rank's DAG, the loop with that action's offset packs or unpacks what the schedule says |
| AlltoallBuffers.ShuffleSize | sumi/alltoall.cc:163-181 | a packing shuffle's nelems are exactly the elements it writes |
| AlltoallBuffers.InitBuffers | sumi/alltoall.cc:65-87 | rotates the caller's blocks into the result buffer, and what it leaves when both are one buffer |
| AlltoallBuffers.InPlaceExactly | sumi/alltoall.cc:75-82 | with one buffer the rotation is right on all data iff it is rank 0 or blocks are empty |
| AlltoallInPlace.InPlaceResult | sumi/alltoall.cc:65-232 | in every run with one buffer, block q of a completed rank r is exactly the part of rank q's data that its initBuffers left in the place of the block for r |
| AlltoallInPlace.ArrivesExactly | sumi/alltoall.cc:65-87 | with one buffer, on all data and in all runs, block q of a completed rank r is what rank q had for r iff r >= q, or q + r >= nproc, or blocks are empty |
| AlltoallInPlace.BlockLost | sumi/alltoall.cc:75-82 | otherwise a completing run on the data 0, 1, 2, ... leaves a wrong element there |
| AlltoallInPlace.TransposesExactly | sumi/alltoall.cc:65-232 | all completed ranks hold the transpose on all data and in all runs iff blocks are empty |
| AlltoallBuffers.Finalize | sumi/alltoall.cc:204-232 | reorders the slots as the schedule's finalize says |
| Trees.ParentReach | sumi/bcast.cc:100-132 | clearing the lowest digit 1 leads to 0 or to a number with a higher lowest digit |
| Bcast.Children | sumi/bcast.cc:57-98 | the children of an offset are exactly the offsets that clear to it: one lower digit added |
| Bcast.BcastWellFormed | sumi/bcast.cc:141-157 | for every rank count and root the tree's messages are matched, acyclic and race free |
| Bcast.MessageCount | sumi/bcast.cc:57-134 | the tree has exactly nproc - 1 messages |
| Bcast.Delivered | sumi/bcast.cc:141-157 | along the tree every rank gets the root's data |
| Bcast.BcastCorrect | sumi/bcast.cc:141-172 | in every run a completed rank holds the root's data |
| BcastDag.FindWindow | sumi/bcast.cc:100-112 | halving windows finds the parent and the length of the edge to it |
| BcastDag.InitRoot | sumi/bcast.cc:57-70 | enters a send to each child of the root |
| BcastDag.InitInternal | sumi/bcast.cc:73-98 | enters a send to each child of an inner rank, after its receive |
| BcastDag.InitChild | sumi/bcast.cc:100-134 | enters the receive and the sends of a rank other than the root |
| BcastDag.BcastInitDag | sumi/bcast.cc:141-157 | initDag builds exactly the DAG of the schedule |
| GatherProof.TreeOther | sumi/gather.cc:146-178 | the two ends of a tree edge agree on round and size, clipped chunks included |
| GatherProof.GatherWellFormed | sumi/gather.cc:119-221 | for every rank count and root the schedule is matched, acyclic and race free |
| GatherProof.Held | sumi/gather.cc:140-184 | round by round: after t rounds a multiple of 2^t holds the next 2^t blocks in order |
| MidRuns.BlocksHeldInRun | sumi/gather.cc:140-184 | in every run, a multiple of 2^t between round t and the next holds the next 2^t blocks in order |
| GatherProof.GatherCorrect | sumi/gather.cc:65-221 | in every run the completed root holds all blocks in rank order, for every root |
| Traffic.GatherMessages | sumi/gather.cc:136-220 | a gather has nproc - 1 messages for root 0 or the midpoint, nproc for another root |
| GatherProof.WorkspaceFits | sumi/gather.cc:65-85 | the root's buffer of nproc blocks suffices, and another rank never needs more than midpoint blocks |
| GatherDag.InitTree | sumi/gather.cc:51-63 | the midpoint is the greatest power of two below nproc |
| GatherDag.TreeRounds | sumi/gather.cc:136-184 | the loop enters exactly the tree steps of the rank |
| GatherDag.AddLasts | sumi/gather.cc:197-220 | enters exactly the transfers to a root other than 0 |
| GatherDag.GatherInitDag | sumi/gather.cc:119-221 | initDag builds exactly the DAG of the schedule |
| GatherDag.InitBuffers | sumi/gather.cc:65-85 | the rank's block, from anywhere in a separate buffer or in the result buffer, comes first: in the result buffer at the root, whose rest stays, and in a workspace elsewhere |
| GatherDag.InPlaceApart | sumi-mpi/mpi_api_collectives.cc:96-110 | in place, the root's block and the front it is copied to are disjoint iff the root is not 0 or blocks are empty |
| GatherDag.StartShuffle | sumi/gather.cc:100-111 | for the shuffle action of the DAG, the copy with its offset and size moves the midpoint root's blocks to the second half |
| Launches.BuildAllreduce | sumi/collective.cc:158-164 | an actor built for allreduce is its rank of the schedule before the first step |
| Launches.BuildReduce | sumi/collective.cc:158-164 | the same for reduce |
| Launches.BuildAllgatherv | sumi/collective.cc:158-164 | the same for allgatherv |
| Launches.BuildAllgather | sumi/collective.cc:158-164 | the same for allgather and barrier |
| Launches.BuildAlltoall | sumi/collective.cc:158-164 | the same for all-to-all |
| Launches.BuildGather | sumi/collective.cc:158-164 | the same for gather |
| Launches.BuildBcast | sumi/collective.cc:158-164 | the same for broadcast |
| Launches.Launch | sumi/collective.cc:196-204 | a built actor that is started is where its rank is after its first steps in the system |
| Scenes.CallsLead | sumi/sim_transport.cc:937-969 | after a sequence of events just the ranks that were told to have called |
| Scenes.NextFalls | sumi/collective_actor.cc:843-885 | an event that is possible uses up something: steps still to be taken, or messages in flight |
| Scenes.LeftBound | sumi/collective_actor.cc:147-885 | the initial budget bounds the steps taken and the messages in the network |
| EnoughEvents.StepIsEvent | sumi/collective_actor.cc:521-539 | ranks at rest leave no step of their own: any step of the system that is enabled belongs to an event that is possible |
| EnoughEvents.NothingRefused | sumi/sim_transport.cc:1012-1044 | every message in the network can be delivered to the rank it is for, whether it has called or not |
| EnoughEvents.NothingHeldBack | sumi/collective_actor.cc:661-754 | every posted transfer can be injected, every RDMA payload written, and every completion polled |
| EnoughEvents.SomeEvent | sumi/collective_actor.cc:484-519 | until all ranks have completed, some event is possible |
| EnoughEvents.SomeEnough | sumi/collective_actor.cc:415-425 | there are events after which all ranks have completed, however the ranks order their own steps |
| Worlds.World.Begin | sumi/sim_transport.cc:937-969 | a call adds that rank to those that have called, starts its actor and serves what its engine has kept; the steps begin with its start |
| Worlds.World.Hear | sumi/sim_transport.cc:1031-1044 | the message given to a rank that is running leaves the network, and the steps go on with its delivery |
| Worlds.World.Keep | sumi/sim_transport.cc:1022-1030 | a message for a rank that has not called leaves the network for the engine's table; no step is taken |
| Worlds.World.Release | sumi/collective_actor.cc:699-754 | the NIC's reading of the data is one step; the network has the payload and the acknowledgement in place of the transfer |
| Worlds.World.Write | sumi/collective_actor.cc:661-671 | the NIC's writing of a payload is one step; the network has lost the payload |
| Worlds.World.Happen | sumi/collective_actor.cc:843-885 | one event leads to the scene that follows: if possible it and no other takes place, calls included, and a nonnegative measure falls; if not, nothing changes |
| Worlds.World.Run | sumi/collective_actor.cc:147-885 | exactly the events possible in turn take place; the ranks that have called are those before and those told to |
| Worlds.World.Posted | sumi/collective_actor.cc:435-449 | an eager send its actor has started is in the network until an event has the NIC read it; another is not before both actors have started their ends |
| Worlds.World.NotLate | sumi/sim_transport.cc:1022-1030 | no message for a rank that has completed is in flight, so none can be filed as if it were early |
| Worlds.World.StuckIsDone | sumi/collective_actor.cc:415-425 | when no event is possible, all actors have completed and none has reached an abort |
| Teams.RunTeam | sumi/collective.cc:196-204 | actors that have just been built, let go with empty engines, are where the events lead; just the ranks told to have called; and all have completed when no event is possible or there were enough, which there are |
| RunReductions.Allreduce | sumi/allreduce.cc:68-229 | under the protocols selected, any sequence of events leads to where it should, and an actor that has completed holds the reduction of all caller buffers |
| RunReductions.Reduce | sumi/reduce.cc:78-292 | the same at the root, with the exception of `ReduceResult` |
| RunGathers.Allgatherv | sumi/allgatherv.cc:61-220 | after any sequence of events, an actor that has completed holds all caller blocks packed in rank order, whether the blocks came from buffers of their own or lay in the result buffers |
| RunGathers.Allgather | sumi/allgather.cc:77-206 | the same for equal blocks, and no actor has completed unless every rank was told to call |
| RunGathers.Alltoall | sumi/alltoall.cc:65-232 | after any sequence of events, block q of an actor that has completed is the block rank q sent it, or in place what `InPlaceResult` says |
| RunGathers.Gather | sumi/gather.cc:65-221 | after any sequence of events, a root that has completed holds all caller blocks in rank order, also if its own lay in the result buffer |
| RunGathers.Bcast | sumi/bcast.cc:57-172 | after any sequence of events, an actor that has completed holds the root's data |
| DenseRanks.TreeFindIs | sumi/dense_rank_map.cc:137-173 | the binary search fails exactly on failed ranks and otherwise subtracts the number of smaller ones |
| DenseRanks.DenseRankMap.LinearFindRank | sumi/dense_rank_map.cc:99-108 | the linear search agrees on live ranks; on a failed rank it subtracts that rank too |
| DenseRanks.DenseRankMap.DenseRank | sumi/dense_rank_map.cc:124-135 | the dense number of a live rank; for a failed one an error above four failures and otherwise the number below |
| DenseRanks.DenseRankMap.SparseRank | sumi/dense_rank_map.cc:110-122 | the live rank with a given dense number |
| DenseRanks.DenseGrows | sumi/dense_rank_map.cc:124-135 | live ranks are numbered in order without repetition |
| DenseRanks.DenseRange | sumi/dense_rank_map.cc:110-135 | live ranks of a range correspond to an initial segment, and only they |
| DenseRanks.SparseIsInverse | sumi/dense_rank_map.cc:110-135 | equal dense numbers mean the same live rank, so the two directions undo each other |

## Left out

- Scan, scatter, direct all-to-all(v), ring allgather, and the empty or aborting actors (gatherv, scatterv, reduce-scatter).
- Engine.DagCollectiveActor.AddDependency: ranks of the communicator are resolved; resolve actions and rank callbacks are not modelled.
- Engine.DagCollectiveActor.DataRecved: the actor's buffers are one function from cells to elements, replaced as a value; copying on arrays is in `slicer.dfy`, `alltoallbuffers.dfy`, `bruckdag.dfy` and `gatherdag.dfy`. Aliased buffer pointers are equal buffer numbers.
- BruckDag.InitBuffers: where memcpy is called on overlapping ranges, the model reads before it writes, as memmove does. The same holds for AlltoallBuffers.InitBuffers.
- Launches.Launch: the reference counts set up by initActors are not modelled, nor in the Build methods of the same module.
- Engine.DagCollectiveActor.AddAlone: ranks of the communicator are resolved, as for AddDependency.
- CollectiveEngines.CollectiveEngine.StartCollective: as in Incoming and Finish, tags of live collectives are distinct; one actor per rank; no adding of actors to a live collective, no subsequent collectives, no persistent collectives, no reference counts.
- DenseRanks.DenseRankMap.LinearFindRank: the array is given in ascending order; the sort in init and the translation through a communicator are not modelled.
- Reductions.ReduceResult: the operator is exactly associative and commutative, so floating-point rounding is not modelled.
- SMP-hierarchical collectives (smpComm, ownerComm) and single-rank collectives, which never build a DAG.
- Non-contiguous slicers, null buffers, and workspace allocation.
- Integer widths other than that of action ids: ranks, offsets and lengths are unbounded.
- Simulated time, delay logging, QoS, completion queues, and the network: the model takes as given that each message is delivered once, that the NIC reads a send's data between the posting of the transfer and its acknowledgement, and that an RDMA payload is in memory before its completion is polled.
- The MPI API layer above SUMI.
