// How many messages a schedule has, round by round.
module Counting {
  import opened Actions
  import opened Protocol
  import opened Schedule
  import opened Liveness

  // A numbering without repetition has as many values as numbers.
  lemma {:induction false} ImageSize(f: int -> Chan, a: int, b: int, cs: set<Chan>)
    requires a <= b && forall c :: c in cs <==> exists v :: a <= v < b && f(v) == c
    requires forall v, w :: a <= v < w < b ==> f(v) != f(w)
    ensures |cs| == b - a
    decreases b - a
  {
    if a == b {
      assert cs == {};
    } else {
      var last := f(b - 1);
      assert last in cs;
      forall c ensures c in cs - {last} <==> exists v :: a <= v < b - 1 && f(v) == c {
        if c in cs {
          var v :| a <= v < b && f(v) == c;
        }
      }
      ImageSize(f, a, b - 1, cs - {last});
    }
  }

  // The messages whose send has time stamp t.
  ghost function MessagesAt<E(!new)>(cfg: Config<E>, t: nat): set<Chan>
    requires Shaped(cfg)
  {
    set c | c in Messages(cfg) && cfg.notes.time(c.src, SendKey(c)) == t
  }

  ghost function MessagesBefore<E(!new)>(cfg: Config<E>, t: nat): set<Chan>
    requires Shaped(cfg)
  {
    set c | c in Messages(cfg) && cfg.notes.time(c.src, SendKey(c)) < t
  }

  lemma {:induction false} CountBefore<E(!new)>(cfg: Config<E>, w: nat -> nat, t: nat)
    requires Shaped(cfg) && forall s: nat :: s < t ==> |MessagesAt(cfg, s)| == w(s)
    ensures |MessagesBefore(cfg, t)| == Sum(w, t)
  {
    hide Messages, Shaped;
    if t == 0 {
      assert MessagesBefore(cfg, 0) == {};
    } else {
      CountBefore(cfg, w, t - 1);
      var a, b := MessagesBefore(cfg, t - 1), MessagesAt(cfg, t - 1);
      assert MessagesBefore(cfg, t) == a + b && a * b == {};
    }
  }

  // The messages of all rounds together.
  lemma CountAll<E(!new)>(cfg: Config<E>, w: nat -> nat)
    requires Basic(cfg) && Timed(cfg) && forall s: nat :: s < cfg.notes.horizon ==> |MessagesAt(cfg, s)| == w(s)
    ensures |Messages(cfg)| == Sum(w, cfg.notes.horizon)
  {
    hide Matched;
    CountBefore(cfg, w, cfg.notes.horizon);
    forall c | c in Messages(cfg) ensures cfg.notes.time(c.src, SendKey(c)) < cfg.notes.horizon {
      var r: nat, k :| r < cfg.n && k in cfg.dag[r].acts && k.kind == Send && c == ChanOf(r, k);
      assert SendKey(c) == k && c.src == r;
    }
    assert MessagesBefore(cfg, cfg.notes.horizon) == Messages(cfg);
  }
}
