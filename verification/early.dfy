// Messages that have left the network and wait in the engines of ranks that have
// not called the collective yet, as part of the system's network.
module EarlyMessages {
  import opened Actions
  import opened Protocol
  import opened LocalSteps
  import opened Engine
  import opened EngineRuns

  function Just<E(==,!new)>(m: Msg<E>): Net<E> {
    match m
    case EagerMsg(p) => NoMsgs<E>().(pays := multiset{p})
    case HeaderMsg(c) => NoMsgs<E>().(hdrs := multiset{c})
    case RdmaMsg(p) => NoMsgs()
    case AckMsg(c) => NoMsgs<E>().(acks := multiset{c})
  }

  function Of<E(==,!new)>(msgs: seq<Msg<E>>): Net<E> {
    if msgs == [] then NoMsgs() else Plus(Of(msgs[..|msgs| - 1]), Just(msgs[|msgs| - 1]))
  }

  // All that is kept, rank by rank.
  function Total<E(==,!new)>(early: seq<seq<Msg<E>>>): Net<E> {
    if early == [] then NoMsgs() else Plus(Total(early[..|early| - 1]), Of(early[|early| - 1]))
  }

  lemma PlusSwap<E(!new)>(a: Net<E>, b: Net<E>, c: Net<E>)
    ensures Plus(Plus(a, b), c) == Plus(Plus(a, c), b)
  {
  }

  // Taking a message out of the network and keeping it leaves the sum as it was.
  lemma KeepOne<E(!new)>(x: Net<E>, t: Net<E>, m: Msg<E>)
    requires InNet(x, m)
    ensures Plus(Without(x, m), Plus(t, Just(m))) == Plus(x, t)
  {
    NoneAdded(t);
    match m {
      case EagerMsg(p) => MoveOne(x.pays, t.pays, p);
      case HeaderMsg(c) => MoveOne(x.hdrs, t.hdrs, c);
      case RdmaMsg(p) =>
      case AckMsg(c) => MoveOne(x.acks, t.acks, c);
    }
  }

  lemma MoveOne<T>(a: multiset<T>, b: multiset<T>, x: T)
    requires x in a
    ensures a - multiset{x} + (b + multiset{x}) == a + b
  {
  }

  lemma OneOut<E(!new)>(x: Net<E>, m: Msg<E>)
    requires !m.RdmaMsg?
    ensures InNet(Plus(x, Just(m)), m) && Without(Plus(x, Just(m)), m) == x
  {
    match m {
      case EagerMsg(p) => assert x.pays + multiset{p} - multiset{p} == x.pays;
      case HeaderMsg(c) => assert x.hdrs + multiset{c} - multiset{c} == x.hdrs;
      case AckMsg(c) => assert x.acks + multiset{c} - multiset{c} == x.acks;
    }
    NoneAdded(x);
  }

  lemma NoneAdded<E(!new)>(x: Net<E>)
    ensures Plus(x, NoMsgs()) == x
  {
    PlusAssoc(x, x, x);
  }

  // Messages that are in the network can be taken out one by one.
  lemma {:induction false} TakeAll<E(!new)>(x: Net<E>, msgs: seq<Msg<E>>)
    requires forall m :: m in msgs ==> !m.RdmaMsg?
    ensures AllIn(Plus(x, Of(msgs)), msgs) && Minus(Plus(x, Of(msgs)), msgs) == x
    decreases |msgs|
  {
    hide Plus, Just, InNet, Without, NoMsgs;
    if msgs == [] {
      NoneAdded(x);
    } else {
      var front, m := msgs[..|msgs| - 1], msgs[|msgs| - 1];
      PlusSwap(x, Of(front), Just(m));
      PlusAssoc(x, Of(front), Just(m));
      TakeAll(Plus(x, Just(m)), front);
      OneOut(x, m);
    }
  }

  // One rank's share of what is kept.
  lemma {:induction false} Share<E(!new)>(early: seq<seq<Msg<E>>>, r: nat)
    requires r < |early|
    ensures Total(early) == Plus(Total(early[r := []]), Of(early[r]))
    decreases |early|
  {
    hide Plus, Of, NoMsgs;
    var n := |early| - 1;
    var rest := early[r := []];
    if r == n {
      assert rest[..n] == early[..n];
      OfNone<E>();
      NoneAdded(Total(early[..n]));
    } else {
      Share(early[..n], r);
      assert rest[..n] == early[..n][r := []];
      PlusSwap(Total(rest[..n]), Of(early[r]), Of(early[n]));
    }
  }

  lemma OfNone<E(!new)>()
    ensures Of<E>([]) == NoMsgs()
  {
  }

  lemma OfMore<E(!new)>(msgs: seq<Msg<E>>, m: Msg<E>)
    ensures Of(msgs + [m]) == Plus(Of(msgs), Just(m))
  {
    var all := msgs + [m];
    assert all[..|all| - 1] == msgs && all[|all| - 1] == m;
  }

  lemma KeepMore<E(!new)>(early: seq<seq<Msg<E>>>, r: nat, m: Msg<E>)
    requires r < |early|
    ensures Total(early[r := early[r] + [m]]) == Plus(Total(early), Just(m))
  {
    hide Plus, Of, Just, NoMsgs, Total;
    var more := early[r := early[r] + [m]];
    Share(early, r);
    Share(more, r);
    assert more[r := []] == early[r := []];
    OfMore(early[r], m);
    PlusAssoc(Total(early[r := []]), Of(early[r]), Just(m));
  }

  // What is kept at the start is nothing.
  lemma {:induction false} NothingKept<E(!new)>(early: seq<seq<Msg<E>>>)
    requires forall r :: 0 <= r < |early| ==> early[r] == []
    ensures Total(early) == NoMsgs()
    decreases |early|
  {
    if early != [] { NothingKept(early[..|early| - 1]); }
  }

  // Whatever is in the sum is kept for some rank.
  lemma {:induction false} InOf<E(!new)>(msgs: seq<Msg<E>>, m: Msg<E>)
    requires InNet(Of(msgs), m)
    ensures m in msgs
    decreases |msgs|
  {
    if msgs != [] {
      var n := |msgs| - 1;
      if InNet(Of(msgs[..n]), m) { InOf(msgs[..n], m); } else { assert m == msgs[n]; }
    }
  }

  lemma {:induction false} InTotal<E(!new)>(early: seq<seq<Msg<E>>>, m: Msg<E>) returns (r: nat)
    requires InNet(Total(early), m)
    ensures r < |early| && m in early[r]
    decreases |early|
  {
    var n := |early| - 1;
    if InNet(Total(early[..n]), m) {
      r := InTotal(early[..n], m);
    } else {
      r := n;
      InOf(early[n], m);
    }
  }

  lemma {:induction false} NoReqsOf<E(!new)>(msgs: seq<Msg<E>>)
    ensures Of(msgs).reqs == multiset{}
    decreases |msgs|
  {
    if msgs != [] { NoReqsOf(msgs[..|msgs| - 1]); }
  }

  lemma {:induction false} NoReqs<E(!new)>(early: seq<seq<Msg<E>>>)
    ensures Total(early).reqs == multiset{}
    decreases |early|
  {
    if early != [] {
      NoReqs(early[..|early| - 1]);
      NoReqsOf(early[|early| - 1]);
    }
  }
}
