/** The timer sweep of loop.c over the sockets of a context: its handlers may link and unlink any of them (context.c),
  * and every socket they leave alone is looked at once and treated as it should be. */
module TimerSweep {
  import opened Bytes
  import opened IntrusiveList
  import opened TimerWheel

  /** What a handler, or anybody else, may do to the sockets of a context. */
  datatype Action =
    | Link(s: Node)
    | Close(s: Node)
    | Timeout(s: Node, seconds: nat)
    | LongTimeout(s: Node, minutes: nat)
    | Upgrade(s: Node, idleTimeout: nat, pings: bool, lifetime: nat)
    | Active(s: Node)

  datatype Event = Event(s: Node, long: bool, tick: nat)

  function Times(events: seq<Event>, s: Node, long: bool, tick: nat): nat
  {
    multiset(events)[Event(s, long, tick)]
  }

  /** A handler was called `k` sweeps on, once, if and only if that is its time. */
  ghost predicate RangOnlyAt(events: seq<Event>, s: Node, long: bool, tick: nat, k: nat, time: nat)
  {
    Times(events, s, long, tick + k) == Once(k == time)
  }

  function Once(b: bool): nat { if b then 1 else 0 }

  // ---------- Sweeps as values ----------

  /** What a sweep depends on, and handlers can change. */
  datatype View = View(chain: seq<Node>, rest: seq<Node>, socks: map<Node, Sock>, gone: set<Node>, touched: set<Node>)

  /** Sockets never come back among those a sweep has still to see, and leave them only when closed. */
  ghost predicate Forward(v: View, w: View, s: Node)
  {
    && (s in v.gone ==> s in w.gone) && (s in v.touched ==> s in w.touched) && (s in w.rest ==> s in v.rest)
    && (s in v.chain && s !in w.gone ==> s in w.chain) && (s in v.rest && s !in w.gone ==> s in w.rest)
    && (s !in v.chain && s !in w.touched ==> s !in w.chain)
  }

  /** A socket has become what it should, unless a handler has touched it. */
  ghost predicate Becomes(v: View, w: View, s: Node, o: Option<Sock>)
  {
    s in v.chain && s !in w.touched ==>
      match o
      case None => s !in w.chain
      case Some(k) => s in w.chain && s in w.socks && w.socks[s] == k && (s in v.rest ==> s in w.rest)
  }

  ghost predicate Spared(v: View, w: View, s: Node)
  {
    Forward(v, w, s) && (s in v.socks ==> Becomes(v, w, s, Some(v.socks[s])))
  }

  /** The sweep does not go back: if the next socket is still there, it is still the next one. */
  ghost predicate Shorter(v: View, w: View)
  {
    && |w.rest| <= |v.rest|
    && (|v.rest| > 0 ==> if v.rest[0] in w.rest then w.rest[0] == v.rest[0] else |w.rest| < |v.rest|)
  }

  ghost predicate AllSpared(v: View, w: View)
  {
    Shorter(v, w) && forall s :: Spared(v, w, s)
  }

  /** One socket has been treated, and all the others spared. */
  ghost predicate Moves(v: View, w: View, s: Node, o: Option<Sock>)
  {
    Shorter(v, w) && Forward(v, w, s) && Becomes(v, w, s, o) && forall x | x != s :: Spared(v, w, x)
  }

  ghost predicate Kept(v: View) { forall s | s in v.chain :: s in v.socks }

  lemma ShorterTwice(u: View, v: View, w: View)
    requires Shorter(u, v) && Shorter(v, w) && forall s :: Forward(u, v, s) && Forward(v, w, s)
    ensures Shorter(u, w)
  {
    if |u.rest| > 0 {
      assert Forward(u, v, u.rest[0]) && Forward(v, w, u.rest[0]);
    }
  }

  lemma OneTwice(u: View, v: View, w: View, s: Node, o: Option<Sock>)
    requires Forward(u, v, s) && Becomes(u, v, s, o) && Spared(v, w, s) && (s in v.chain ==> s in v.socks)
    ensures Forward(u, w, s) && Becomes(u, w, s, o)
  {
  }

  lemma SparedTwice(u: View, v: View, w: View)
    requires AllSpared(u, v) && AllSpared(v, w) && Kept(u) && Kept(v)
    ensures AllSpared(u, w)
  {
    hide Forward, Becomes, Shorter;
    forall s ensures Spared(u, w, s) {
      assert Spared(u, v, s) && Spared(v, w, s);
      if s in u.socks {
        OneTwice(u, v, w, s, Some(u.socks[s]));
      } else {
        ForwardTwice(u, v, w, s);
      }
    }
    forall s ensures Forward(u, v, s) && Forward(v, w, s) {
      assert Spared(u, v, s) && Spared(v, w, s);
    }
    ShorterTwice(u, v, w);
  }

  lemma ForwardTwice(u: View, v: View, w: View, s: Node)
    requires Forward(u, v, s) && Forward(v, w, s)
    ensures Forward(u, w, s)
  {
  }

  lemma SparedSelf(v: View)
    requires Kept(v)
    ensures AllSpared(v, v)
  {
  }

  /** What handlers do once a socket has been treated does not change that it was. */
  lemma MovesThen(u: View, v: View, w: View, s: Node, o: Option<Sock>)
    requires Moves(u, v, s, o) && AllSpared(v, w) && Kept(u) && Kept(v)
    ensures Moves(u, w, s, o)
  {
    hide Forward, Becomes, Shorter;
    assert Spared(v, w, s);
    OneTwice(u, v, w, s, o);
    forall x | x != s ensures Spared(u, w, x) {
      assert Spared(u, v, x) && Spared(v, w, x);
      if x in u.socks {
        OneTwice(u, v, w, x, Some(u.socks[x]));
      } else {
        ForwardTwice(u, v, w, x);
      }
    }
    forall x ensures Forward(u, v, x) && Forward(v, w, x) {
      assert x != s ==> Spared(u, v, x);
      assert Spared(v, w, x);
    }
    ShorterTwice(u, v, w);
  }

  /** A socket's short timeout has been seen to, and then its long one, if it is still there. */
  lemma MovesTwice(u: View, v: View, w: View, s: Node, o: Sock, p: Option<Sock>)
    requires Moves(u, v, s, Some(o)) && Moves(v, w, s, p) && Kept(u) && Kept(v)
    ensures Moves(u, w, s, p)
  {
    hide Shorter;
    forall x | x != s ensures Spared(u, w, x) {
      assert Spared(u, v, x) && Spared(v, w, x);
      if x in u.socks {
        OneTwice(u, v, w, x, Some(u.socks[x]));
      }
    }
    forall x ensures Forward(u, v, x) && Forward(v, w, x) {
      assert x != s ==> Spared(u, v, x) && Spared(v, w, x);
    }
    ShorterTwice(u, v, w);
  }

  /** A socket is given other timeouts. */
  lemma SockMoves(v: View, w: View, s: Node)
    requires s in v.chain && Kept(v) && s in w.socks && w == v.(socks := v.socks[s := w.socks[s]])
    ensures Moves(v, w, s, Some(w.socks[s]))
  {
  }

  lemma ListedKept(v: View, w: View, s: Node)
    requires Kept(v) && s in w.socks && w == v.(socks := v.socks[s := w.socks[s]])
    ensures Kept(w)
  {
  }

  /** Who is touched may have become anything. */
  lemma TouchedSpares(v: View, w: View, s: Node)
    requires Kept(v) && s in v.chain
    requires (s in w.socks && w == v.(socks := v.socks[s := w.socks[s]])) || Moves(v, w, s, None)
    ensures AllSpared(v, w.(touched := w.touched + {s}))
  {
    hide Shorter;
    var o := if Moves(v, w, s, None) then None else Some(w.socks[s]);
    if o.Some? {
      SockMoves(v, w, s);
    }
    assert Moves(v, w, s, o);
    forall x ensures Spared(v, w.(touched := w.touched + {s}), x) {
      assert x != s ==> Spared(v, w, x);
    }
    assert Shorter(v, w) ==>
             Shorter(v, w.(touched := w.touched + {s})) by { SameRest(v, w, w.(touched := w.touched + {s})); }
  }

  lemma SameRest(v: View, w: View, u: View)
    requires u.rest == w.rest
    ensures Shorter(v, w) ==> Shorter(v, u)
  {
  }

  lemma MovesAny(v: View, w: View, s: Node, o: Option<Sock>, p: Option<Sock>)
    requires Moves(v, w, s, o) && s in w.touched
    ensures Moves(v, w, s, p)
  {
  }

  /** Where the sweep goes on. */
  function Passed(u: View, s: Node): View
  {
    if |u.rest| > 0 && u.rest[0] == s then u.(rest := u.rest[1..]) else u
  }

  /** What the slow path of a sweep does for the socket it stops at. */
  ghost predicate Fired(v: View, w: View, events: seq<Event>, tick: nat, s: Node)
  {
    && (forall x | x != s :: Spared(v, w, x)) && s !in w.rest
    && (s in v.gone ==> s in w.gone) && (s in v.touched ==> s in w.touched)
    && (s in v.chain && s !in w.gone ==> s in w.chain)
    && (s in v.chain && s in v.socks && s !in w.touched ==>
          Ends(w, s, React(v.socks[s], tick)) && Rung(events, s, v.socks[s], tick))
    && forall e | e in events :: e.s == s && e.tick == tick
  }

  ghost predicate Ends(w: View, s: Node, o: Option<Sock>)
  {
    match o
    case None => s !in w.chain
    case Some(k) => s in w.chain && s in w.socks && w.socks[s] == k
  }

  /** The handlers of a socket were called once each if it was time, and else not at all. */
  ghost predicate Rung(events: seq<Event>, s: Node, v: Sock, tick: nat)
  {
    Times(events, s, false, tick) == Once(Rings(v, tick, false))
      && Times(events, s, true, tick) == Once(Rings(v, tick, true))
  }

  lemma FiredBy(v: View, u: View, events: seq<Event>, tick: nat, s: Node)
    requires |v.rest| > 0 && v.rest[0] == s && s in v.chain && s in v.socks && Distinct(u.rest)
    requires Moves(v, u, s, React(v.socks[s], tick))
    requires s !in u.touched ==> Rung(events, s, v.socks[s], tick)
    requires forall e | e in events :: e.s == s && e.tick == tick
    ensures Fired(v, Passed(u, s), events, tick, s) && |Passed(u, s).rest| < |v.rest|
  {
    hide Rung, React;
    assert |u.rest| > 0 && u.rest[0] == s ==> u.rest == [s] + u.rest[1..];
    forall x | x != s ensures Spared(v, Passed(u, s), x) {
      assert Spared(v, u, x);
    }
  }

  /** How far a sweep has come with a socket. */
  ghost predicate Swept(v: View, w: View, events: seq<Event>, checked: seq<Node>, tick: nat, s: Node)
  {
    && (s in w.rest ==> s in v.chain && s !in checked) && (s in checked ==> s in v.chain)
    && (s in v.gone ==> s in w.gone) && (s in v.touched ==> s in w.touched)
    && (s in v.chain && s !in w.gone ==> s in w.chain && (s in checked || s in w.rest))
    && (s !in v.chain && s !in w.touched ==> s !in w.chain)
    && (s in v.chain && s in v.socks && s !in w.touched ==>
          if s in checked then Ends(w, s, React(v.socks[s], tick)) && Rung(events, s, v.socks[s], tick)
          else s in w.rest && Ends(w, s, Some(v.socks[s])))
    && (s !in checked ==> Times(events, s, false, tick) == Times(events, s, true, tick) == 0)
  }

  ghost predicate AllSwept(v: View, w: View, events: seq<Event>, checked: seq<Node>, tick: nat)
  {
    && Distinct(checked) && (forall e | e in events :: e.tick == tick)
    && forall s :: Swept(v, w, events, checked, tick, s)
  }

  lemma SweepBegins(v: View, w: View, tick: nat)
    requires w == v.(rest := v.chain) && Kept(v)
    ensures AllSwept(v, w, [], [], tick)
  {
  }

  /** A socket whose time it is not is passed. */
  lemma SweepPasses(v: View, w: View, events: seq<Event>, checked: seq<Node>, tick: nat, s: Node)
    requires AllSwept(v, w, events, checked, tick) && |w.rest| > 0 && w.rest[0] == s && Distinct(w.rest)
    requires s in w.socks && !IsShort(w.socks[s], tick) && !IsLong(w.socks[s], tick)
    ensures AllSwept(v, w.(rest := w.rest[1..]), events, checked + [s], tick)
  {
    hide Times, IsShort, IsLong;
    assert Swept(v, w, events, checked, tick, s);
    assert s in w.rest && w.rest == [s] + w.rest[1..];
    forall x ensures Swept(v, w.(rest := w.rest[1..]), events, checked + [s], tick, x) {
      assert Swept(v, w, events, checked, tick, x);
    }
  }

  lemma TimesConcat(a: seq<Event>, b: seq<Event>, s: Node, long: bool, tick: nat)
    ensures Times(a + b, s, long, tick) == Times(a, s, long, tick) + Times(b, s, long, tick)
    ensures (forall e | e in b :: e.s != s || e.tick != tick) ==> Times(b, s, long, tick) == 0
  {
  }

  /** A socket whose time it is has been seen to. */
  lemma SweepFires(v: View, w: View, u: View, events: seq<Event>, more: seq<Event>, checked: seq<Node>, tick: nat,
                   s: Node)
    requires AllSwept(v, w, events, checked, tick) && Fired(w, u, more, tick, s) && s in w.rest && s in w.chain
    requires s in w.socks
    requires Kept(w)
    ensures AllSwept(v, u, events + more, checked + [s], tick)
  {
    hide Times, React, Rings, Spared, Ends, Rung, Forward;
    assert Swept(v, w, events, checked, tick, s);
    forall x ensures Swept(v, u, events + more, checked + [s], tick, x) {
      assert Swept(v, w, events, checked, tick, x);
      TimesConcat(events, more, x, false, tick);
      TimesConcat(events, more, x, true, tick);
      if x == s {
        if s in v.socks {
          EndsSame(v, w, s);
        }
        RungMore(events, more, s, w.socks[s], tick);
      } else {
        SweptStill(v, w, u, events, more, checked, tick, s, x);
      }
    }
  }

  lemma EndsSame(v: View, w: View, s: Node)
    requires s in v.socks && s in w.socks
    ensures Ends(w, s, Some(v.socks[s])) ==> w.socks[s] == v.socks[s]
  {
  }

  lemma RungMore(events: seq<Event>, more: seq<Event>, s: Node, v: Sock, tick: nat)
    requires Times(events, s, false, tick) == Times(events, s, true, tick) == 0
    ensures Rung(more, s, v, tick) ==> Rung(events + more, s, v, tick)
  {
    hide Rings;
  }

  lemma SweptStill(v: View, w: View, u: View, events: seq<Event>, more: seq<Event>, checked: seq<Node>, tick: nat,
                   s: Node, x: Node)
    requires Swept(v, w, events, checked, tick, x) && Spared(w, u, x) && x != s && (x in w.chain ==> x in w.socks)
    requires forall e | e in more :: e.s == s && e.tick == tick
    ensures Swept(v, u, events + more, checked + [s], tick, x)
  {
    hide React, Rings;
    TimesConcat(events, more, x, false, tick);
    TimesConcat(events, more, x, true, tick);
  }

  predicate There(w: View, s: Node) { |w.rest| > 0 && w.rest[0] == s }

  /** The long timeout was seen to if the socket was still there. */
  ghost predicate LongRung(w: View, u: View, tick: nat, s: Node)
  {
    if There(w, s) then s in w.socks && Moves(w, u, s, Some(LongReact(w.socks[s], tick))) else u == w
  }

  function LongEvents(w: View, tick: nat, s: Node): seq<Event>
  {
    if There(w, s) && s in w.socks && IsLong(w.socks[s], tick) then [Event(s, true, tick)] else []
  }

  /** Both timeouts, each seen to if the socket was still there. */
  lemma BothRung(v: View, w: View, u: View, events: seq<Event>, tick: nat, s: Node)
    requires There(v, s) && s in v.chain && s in v.socks && Kept(v) && Kept(w) && forall x | x in w.rest :: x in w.chain
    requires Moves(v, w, s, ShortReact(v.socks[s], tick)) && LongRung(w, u, tick, s)
    requires events == (if IsShort(v.socks[s], tick) then [Event(s, false, tick)] else []) + LongEvents(w, tick, s)
    ensures Moves(v, u, s, React(v.socks[s], tick))
    ensures s !in u.touched ==> Rung(events, s, v.socks[s], tick)
    ensures forall e | e in events :: e.s == s && e.tick == tick
  {
    hide IsShort, IsLong, TimedOut, EndOf, ShortReact, LongReact;
    var o, there := ShortReact(v.socks[s], tick), There(w, s);
    assert there ==> w.rest[0] in w.chain;
    if s in w.touched {
      MovesAny(v, w, s, o, Some(v.socks[s]));
      MovesAny(v, w, s, o, React(v.socks[s], tick));
      if there {
        MovesTwice(v, w, u, s, v.socks[s], Some(LongReact(w.socks[s], tick)));
        assert s in u.touched;
        MovesAny(v, u, s, Some(LongReact(w.socks[s], tick)), React(v.socks[s], tick));
      }
    } else {
      assert there <==> o.Some?;
      if there {
        MovesTwice(v, w, u, s, o.value, Some(LongReact(w.socks[s], tick)));
      }
    }
  }

  /** What a number of sweeps make of a socket nobody touches. */
  ghost predicate ManyOf(v: View, w: View, events: seq<Event>, tick: nat, n: nat, s: Node)
  {
    s in v.chain && s in v.socks && s !in w.touched ==>
      && Ends(w, s, StateAt(v.socks[s], tick, n))
      && forall k: nat, long | 0 < k <= n ::
        Times(events, s, long, tick + k) == Once(RingsAt(v.socks[s], tick, k, long))
  }

  ghost predicate ManySwept(v: View, w: View, events: seq<Event>, tick: nat, n: nat)
  {
    (forall e | e in events :: tick < e.tick <= tick + n) && forall s :: ManyOf(v, w, events, tick, n, s)
  }

  lemma ManyBegins(v: View, tick: nat)
    requires Kept(v)
    ensures ManySwept(v, v, [], tick, 0)
  {
  }

  /** It does not matter what was touched before. */
  lemma SameBeginning(u: View, v: View, w: View, events: seq<Event>, tick: nat, n: nat)
    requires ManySwept(v, w, events, tick, n) && u.chain == v.chain && u.socks == v.socks
    ensures ManySwept(u, w, events, tick, n)
  {
    forall s ensures ManyOf(u, w, events, tick, n, s) {
      assert ManyOf(v, w, events, tick, n, s);
    }
  }

  lemma ManyMore(v: View, w: View, u: View, events: seq<Event>, more: seq<Event>, checked: seq<Node>, tick: nat, n: nat)
    requires ManySwept(v, w, events, tick, n) && AllSwept(w, u, more, checked, tick + n + 1) && Kept(w) && u.rest == []
    ensures ManySwept(v, u, events + more, tick, n + 1)
  {
    hide Swept, Times, Rung, Ends, StateAt, RingsAt, React;
    var all, m := events + more, n + 1;
    forall s ensures ManyOf(v, u, all, tick, m, s) {
      assert Swept(w, u, more, checked, tick + n + 1, s) && ManyOf(v, w, events, tick, n, s);
      MoreOf(v, w, u, events, more, checked, tick, n, s);
    }
  }

  lemma MoreOf(v: View, w: View, u: View, events: seq<Event>, more: seq<Event>, checked: seq<Node>, tick: nat,
               n: nat, s: Node)
    requires ManyOf(v, w, events, tick, n, s) && Swept(w, u, more, checked, tick + n + 1, s)
    requires (s in w.chain ==> s in w.socks)
    requires (forall e | e in events :: e.tick <= tick + n) && (forall e | e in more :: e.tick == tick + n + 1)
    requires u.rest == []
    ensures ManyOf(v, u, events + more, tick, n + 1, s)
  {
    hide Times, React, Rings;
    if s in v.chain && s in v.socks && s !in u.touched {
      StateNext(v.socks[s], tick, n, false);
      StateNext(v.socks[s], tick, n, true);
      forall k: nat, long | 0 < k <= n + 1
        ensures Times(events + more, s, long, tick + k) == Once(RingsAt(v.socks[s], tick, k, long))
      {
        TimesConcat(events, more, s, long, tick + k);
        NoTimes(events, s, long, tick + n + 1);
      }
    }
  }

  lemma NoTimes(events: seq<Event>, s: Node, long: bool, tick: nat)
    requires forall e | e in events :: e.tick != tick
    ensures Times(events, s, long, tick) == 0
  {
  }

  lemma StateNext(v: Sock, tick: nat, n: nat, long: bool)
    ensures match StateAt(v, tick, n)
            case None => StateAt(v, tick, n + 1) == None && !RingsAt(v, tick, n + 1, long)
            case Some(w) =>
              && StateAt(v, tick, n + 1) == React(w, tick + n + 1)
              && RingsAt(v, tick, n + 1, long) == Rings(w, tick + n + 1, long)
  {
  }

  // ---------- The context ----------

  /** The sockets that callbacks to come will link, close, or give a timeout. */
  ghost function Named(script: seq<seq<Action>>): set<Node>
  {
    set i, j | 0 <= i < |script| && 0 <= j < |script[i]| :: script[i][j].s
  }

  lemma NamedNext(script: seq<seq<Action>>)
    requires |script| > 0
    ensures Named(script[1..]) <= Named(script) && forall j | 0 <= j < |script[0]| :: script[0][j].s in Named(script)
  {
    forall s | s in Named(script[1..])
      ensures s in Named(script)
    {
      var i, j :| 0 <= i < |script[1..]| && 0 <= j < |script[1..][i]| && script[1..][i][j].s == s;
      assert script[i + 1][j].s == s;
    }
  }

  class SocketContext {
    var head: Option<Node>
    var next: map<Node, Option<Node>>
    var prev: map<Node, Option<Node>>
    var closedHead: Option<Node>
    var open: set<Node>
    var socks: map<Node, Sock>
    var globalTick: nat
    var timestamp: nat
    var longTimestamp: nat
    var iterator_: Option<Node>
    /** The handlers called, and what the callbacks they make will do. */
    var events: seq<Event>
    var script: seq<seq<Action>>
    /** The list the pointers stand for, and what of it a sweep has still to see. */
    ghost var chain: seq<Node>
    ghost var rest: seq<Node>
    /** The sockets closed, and those linked, closed or given a timeout by anybody but the handlers of timeouts. */
    ghost var gone: set<Node>
    ghost var touched: set<Node>
    /** The sockets the last sweep has looked at. */
    ghost var checked: seq<Node>

    ghost function Pointers(): Links
      reads `chain, `head, `next, `prev
    {
      Links(chain, head, next, prev)
    }

    ghost function Sight(): View
      reads `chain, `rest, `socks, `gone, `touched
    {
      View(chain, rest, socks, gone, touched)
    }

    ghost predicate Listed()
      reads `chain, `head, `next, `prev, `open, `socks
    {
      Linked(Pointers()) && (forall s :: s in open <==> s in chain) && forall s | s in chain :: s in socks
    }

    /** What is left to see is the end of the list. */
    ghost predicate Ahead()
      reads `chain, `rest
    {
      |rest| <= |chain| && rest == chain[|chain| - |rest|..]
    }

    /** And when handlers run, the iterator stands at its beginning. */
    ghost predicate AtRest()
      reads `chain, `rest, `iterator_
    {
      Ahead() && iterator_ == At(rest, 0)
    }

    ghost predicate Clock()
      reads `globalTick, `timestamp, `longTimestamp
    {
      timestamp == globalTick % WHEEL && longTimestamp == (globalTick / TICKS_PER_MINUTE) % WHEEL
    }

    ghost predicate Valid()
      reads this
    {
      Listed() && AtRest() && Clock()
    }

    /** No socket has been touched but those named by the callbacks there were to come. */
    twostate predicate Within()
      reads `touched, `script
    {
      touched <= old(touched) + old(Named(script)) && Named(script) <= old(Named(script))
    }

    lemma ListedParts()
      requires Listed()
      ensures Linked(Pointers()) && head == At(chain, 0) && Distinct(chain) && Kept(Sight())
    {
    }

    constructor (script: seq<seq<Action>>)
      ensures Valid() && chain == rest == [] && events == [] && globalTick == 0 && this.script == script
    {
      head, next, prev, closedHead, open, socks := None, map[], map[], None, {}, map[];
      globalTick, timestamp, longTimestamp, iterator_, events := 0, 0, 0, None, [];
      this.script := script;
      chain, rest, gone, touched, checked := [], [], {}, {}, [];
    }

    // ---------- The list ----------

    /** `us_internal_socket_context_link_socket` */
    method PushSocket(s: Node)
      requires Linked(Pointers()) && s !in chain
      modifies `head, `next, `prev, `chain
      ensures Linked(Pointers()) && chain == [s] + old(chain)
    {
      hide Linked;
      PushKeeps(Pointers(), s);
      next, prev := next[s := head], prev[s := None];
      if head.Some? {
        prev := prev[head.value := Some(s)];
      }
      head := Some(s);
      chain := [s] + chain;
      assert Pointers() == Push(old(Pointers()), s);
    }

    /** `us_internal_socket_context_unlink_socket` */
    method UnlinkSocket(s: Node, ghost p: nat)
      requires Linked(Pointers()) && p < |chain| && chain[p] == s
      modifies `head, `next, `prev, `iterator_, `chain
      ensures NodeLinked(old(Pointers()), p) && Pointers() == Unlink(old(Pointers()), p)
      ensures iterator_ == if old(iterator_) == Some(s) then At(old(chain), p + 1) else old(iterator_)
    {
      hide Linked;
      ghost var l := Pointers();
      EndsMeet(l, p);
      HeadAt(l, p);
      if iterator_ == Some(s) {
        iterator_ := next[s];
      }
      if prev[s] == next[s] {
        head := None;
      } else {
        var before, after := prev[s], next[s];
        if before.Some? {
          next := next[before.value := after];
        } else {
          head := after;
        }
        if after.Some? {
          prev := prev[after.value := before];
        }
      }
      chain := Without(chain, p);
    }

    /** A socket leaves the list, whether or not a sweep has still to see it. */
    method LeaveList(s: Node)
      requires Linked(Pointers()) && AtRest() && s in chain
      modifies `head, `next, `prev, `iterator_, `chain, `rest
      ensures Linked(Pointers()) && AtRest()
      ensures forall x :: x in chain <==> x in old(chain) && x != s
      ensures forall x :: x in rest <==> x in old(rest) && x != s
      ensures |rest| == |old(rest)| - if s in old(rest) then 1 else 0
      ensures |old(rest)| > 0 && old(rest)[0] != s ==> |rest| > 0 && rest[0] == old(rest)[0]
    {
      hide Linked, NodeLinked, Without;
      ghost var p: nat :| p < |chain| && chain[p] == s;
      ghost var k := |chain| - |rest|;
      LinkedParts(Pointers(), p);
      UnlinkKeeps(Pointers(), p);
      WithoutAt(chain, p);
      RestWithout(chain, k, p);
      assert rest == chain[k..] && At(rest, 0) == At(chain, k);
      UnlinkSocket(s, p);
      rest := chain[if p < k then k - 1 else k..];
    }

    /** A new socket goes in front, where no sweep comes any more. */
    method LinkSocket(s: Node)
      requires Valid() && s !in open
      modifies `head, `next, `prev, `open, `socks, `chain, `touched
      ensures Valid() && AllSpared(old(Sight()), Sight()) && touched == old(touched) + {s} && s in chain
    {
      hide Linked, Clock;
      ListedParts();
      ghost var v := Sight();
      PushSocket(s);
      assert rest == chain[|chain| - |rest|..];
      open, socks, touched := open + {s}, socks[s := Sock(NEVER, NEVER, None)], touched + {s};
    }

    /** A socket leaves the list and joins those to be freed. */
    method CloseSocket(s: Node)
      requires Valid() && s in open
      modifies `head, `next, `prev, `closedHead, `open, `iterator_, `chain, `rest, `gone
      ensures Valid() && Moves(old(Sight()), Sight(), s, None)
    {
      hide Linked, AtRest, Ahead, Clock;
      LeaveList(s);
      ElsewhereLinked(Pointers(), s, closedHead, None);
      next, prev, closedHead := next[s := closedHead], prev[s := None], Some(s);
      open, gone := open - {s}, gone + {s};
    }

    // ---------- Timeouts ----------

    /** `us_socket_timeout` */
    method SetTimeout(s: Node, seconds: nat)
      requires Valid() && s in open
      modifies `socks
      ensures Valid() && s in chain && s in old(socks)
      ensures socks == old(socks)[s := old(socks)[s].(timeout := ShortValue(globalTick, seconds))]
    {
      hide Linked, AtRest;
      socks := socks[s := socks[s].(timeout := if seconds > 0 then (timestamp + (seconds + 3) / 4) % WHEEL else NEVER)];
    }

    /** `us_socket_long_timeout` */
    method SetLongTimeout(s: Node, minutes: nat)
      requires Valid() && s in open
      modifies `socks
      ensures Valid() && s in chain && s in old(socks)
      ensures socks == old(socks)[s := old(socks)[s].(longTimeout := LongValue(globalTick, minutes))]
    {
      hide Linked, AtRest;
      socks := socks[s := socks[s].(longTimeout := if minutes > 0 then (longTimestamp + minutes) % WHEEL else NEVER)];
    }

    method SetIdle(s: Node, idle: Option<Idle>)
      requires Valid() && s in open
      modifies `socks
      ensures Valid() && s in chain && s in old(socks) && socks == old(socks)[s := old(socks)[s].(idle := idle)]
    {
      hide Linked, AtRest, Clock;
      socks := socks[s := socks[s].(idle := idle)];
    }

    /** One thing a handler does. */
    method Act(a: Action)
      requires Valid()
      modifies `head, `next, `prev, `closedHead, `open, `socks, `iterator_, `chain, `rest, `gone, `touched
      ensures Valid() && AllSpared(old(Sight()), Sight()) && touched <= old(touched) + {a.s}
    {
      hide Linked, AtRest, Ahead, Clock, AllSpared, Moves, ShortValue, LongValue, Components;
      ghost var v := Sight();
      ListedParts();
      SparedSelf(v);
      if a.s in open && !a.Link? {
        match a {
          case Close(s) => CloseSocket(s);
          case Timeout(s, seconds) => SetTimeout(s, seconds);
          case LongTimeout(s, minutes) => SetLongTimeout(s, minutes);
          case Upgrade(s, idleTimeout, pings, lifetime) => UpgradeSocket(s, idleTimeout % 0x10000, pings, lifetime);
          case Active(s) => HeardOf(s);
        }
        TouchedSpares(v, Sight(), a.s);
        touched := touched + {a.s};
      } else if a.s !in open && a.Link? {
        LinkSocket(a.s);
      }
    }

    /** A socket becomes a WebSocket: its timeouts are set. */
    method UpgradeSocket(s: Node, idleTimeout: nat, pings: bool, lifetime: nat)
      requires Valid() && s in open && idleTimeout < 0x10000
      modifies `socks
      ensures Valid() && s in chain && s in socks && s in old(socks) && socks == old(socks)[s := socks[s]]
      ensures lifetime == 0 ==> socks[s] == Fresh(globalTick, idleTimeout, pings)
      ensures socks[s].longTimeout == LongValue(globalTick, lifetime)
    {
      hide Linked, AtRest, Clock, ShortValue, Components;
      var first, second := IdleTimeoutComponents(idleTimeout, pings);
      SetIdle(s, Some(Idle(first, second, pings, false, false)));
      SetLongTimeout(s, lifetime);
      SetTimeout(s, first);
    }

    /** Data has come, or gone: the idle timeout begins anew. */
    method HeardOf(s: Node)
      requires Valid() && s in open
      modifies `socks
      ensures Valid() && s in chain && s in socks && s in old(socks) && socks == old(socks)[s := socks[s]]
      ensures var v := old(socks)[s];
              socks[s] == if v.idle == None then v
                          else v.(timeout := ShortValue(globalTick, v.idle.value.first), idle :=
                            Some(v.idle.value.(timedOut := false)))
    {
      hide Linked, AtRest, Clock, ShortValue;
      if socks[s].idle.Some? {
        SetTimeout(s, socks[s].idle.value.first);
        SetIdle(s, Some(socks[s].idle.value.(timedOut := false)));
      }
    }

    /** What the callbacks of a handler do. */
    method RunScript()
      requires Valid()
      modifies `head, `next, `prev, `closedHead, `open, `socks, `iterator_, `chain, `rest, `gone, `touched, `script
      ensures Valid() && AllSpared(old(Sight()), Sight()) && Within()
    {
      hide Listed, AtRest, Clock, AllSpared, Named;
      ListedParts();
      SparedSelf(Sight());
      if |script| > 0 {
        NamedNext(script);
        var actions := script[0];
        script := script[1..];
        var i := 0;
        while i < |actions|
          invariant i <= |actions| && Valid() && AllSpared(old(Sight()), Sight()) && Within()
        {
          ghost var before := Sight();
          ListedParts();
          Act(actions[i]);
          SparedTwice(old(Sight()), before, Sight());
          i := i + 1;
        }
      }
    }

    /** `on_timeout` of WebSocketContext.h: a ping, or the end. */
    method OnTimeout(s: Node)
      requires Valid() && s in open && s in socks
      modifies `head, `next, `prev, `closedHead, `open, `socks, `iterator_, `chain, `rest, `gone
      ensures Valid() && Moves(old(Sight()), Sight(), s, TimedOut(old(socks)[s], globalTick))
    {
      hide Linked, AtRest, Ahead, Clock, Moves, ShortValue;
      ghost var v := Sight();
      ListedParts();
      var i := socks[s].idle;
      if i.Some? {
        if i.value.pings && !i.value.shuttingDown && !i.value.timedOut {
          SetIdle(s, Some(i.value.(timedOut := true)));
          SetTimeout(s, i.value.second);
          SockMoves(v, Sight(), s);
        } else {
          CloseSocket(s);
        }
      } else {
        SockMoves(v, Sight(), s);
      }
    }

    /** `on_long_timeout` of WebSocketContext.h: `end`, unless it was called before. */
    method OnLongTimeout(s: Node)
      requires Valid() && s in open && s in socks
      modifies `socks
      ensures Valid() && s in chain && socks == old(socks)[s := EndOf(old(socks)[s], globalTick)]
    {
      hide Linked, AtRest, Clock, ShortValue;
      var i := socks[s].idle;
      if i.Some? && !i.value.shuttingDown {
        SetIdle(s, Some(i.value.(shuttingDown := true)));
        SetTimeout(s, i.value.second);
      }
    }

    /** The short timeout of the socket a sweep has come to. */
    method RingShort(s: Node)
      requires Valid() && |rest| > 0 && rest[0] == s && s in socks
      modifies `head, `next, `prev, `closedHead, `open, `socks, `iterator_, `chain, `rest, `gone, `touched, `script,
                 `events
      ensures Valid() && Moves(old(Sight()), Sight(), s, ShortReact(old(socks)[s], globalTick)) && Within()
      ensures events == old(events) + if IsShort(old(socks)[s], globalTick) then [Event(s, false, globalTick)] else []
    {
      hide Linked, AllSpared, Moves, TimedOut, Named, AtRest, Ahead;
      ghost var v := Sight();
      RestParts();
      ListedParts();
      if timestamp == socks[s].timeout {
        socks := socks[s := socks[s].(timeout := NEVER)];
        events := events + [Event(s, false, globalTick)];
        ghost var cleared := Sight();
        SockMoves(v, cleared, s);
        OnTimeout(s);
        ghost var handled := Sight();
        ListedParts();
        MovesTwice(v, cleared, handled, s, cleared.socks[s], TimedOut(cleared.socks[s], globalTick));
        RunScript();
        MovesThen(v, handled, Sight(), s, TimedOut(cleared.socks[s], globalTick));
      } else {
        SockMoves(v, Sight(), s);
      }
    }

    /** What a valid context gives to reason with. */
    lemma RestParts()
      requires Valid()
      ensures Kept(Sight()) && Distinct(rest) && (forall s | s in rest :: s in chain)
      ensures forall s: Node :: iterator_ == Some(s) <==> There(Sight(), s)
    {
      DistinctFrom(chain, |chain| - |rest|);
    }

    /** The long timeout, if the socket is still the next. */
    method RingLong(s: Node)
      requires Valid()
      modifies `head, `next, `prev, `closedHead, `open, `socks, `iterator_, `chain, `rest, `gone, `touched, `script,
                 `events
      ensures Valid() && LongRung(old(Sight()), Sight(), globalTick, s) && Within()
      ensures events == old(events) + LongEvents(old(Sight()), globalTick, s)
    {
      hide Linked, AtRest, Ahead, AllSpared, Moves, EndOf, Named;
      ghost var v := Sight();
      RestParts();
      assert There(v, s) ==> v.rest[0] in v.chain;
      if iterator_ == Some(s) {
        if longTimestamp == socks[s].longTimeout {
          RingLongNow(s);
        } else {
          SockMoves(v, Sight(), s);
        }
      }
    }

    method RingLongNow(s: Node)
      requires Valid() && s in chain && s in socks && IsLong(socks[s], globalTick)
      modifies `head, `next, `prev, `closedHead, `open, `socks, `iterator_, `chain, `rest, `gone, `touched, `script,
                 `events
      ensures Valid() && Moves(old(Sight()), Sight(), s, Some(LongReact(old(socks)[s], globalTick))) && Within()
      ensures events == old(events) + [Event(s, true, globalTick)]
    {
      hide Linked, AtRest, AllSpared, Moves, EndOf;
      ghost var v := Sight();
      ListedParts();
      socks := socks[s := socks[s].(longTimeout := NEVER)];
      events := events + [Event(s, true, globalTick)];
      OnLongTimeout(s);
      ghost var handled := Sight();
      assert handled.socks == v.socks[s := handled.socks[s]];
      SockMoves(v, handled, s);
      RunScript();
      ListedKept(v, handled, s);
      MovesThen(v, handled, Sight(), s, Some(handled.socks[s]));
    }

    /** Both timeouts of the socket a sweep has come to. */
    method RingBoth(s: Node)
      requires Valid() && |rest| > 0 && rest[0] == s
      modifies `head, `next, `prev, `closedHead, `open, `socks, `iterator_, `chain, `rest, `gone, `touched, `script,
                 `events
      ensures Valid() && |old(events)| <= |events| && old(events) == events[..|old(events)|] && Within()
      ensures Fired(old(Sight()), Passed(Sight(), s), events[|old(events)|..], globalTick, s)
      ensures |Passed(Sight(), s).rest| < |old(rest)|
    {
      hide Moves, Fired, Listed, AtRest, Clock, Passed, ShortReact, LongEvents, IsShort, Rung, LongRung;
      ghost var v, seen := Sight(), |events|;
      RestParts();
      assert s in chain;
      RingShort(s);
      ghost var w := Sight();
      RestParts();
      RingLong(s);
      RestParts();
      ghost var more := events[seen..];
      assert more == (if IsShort(v.socks[s], globalTick) then [Event(s, false, globalTick)]
               else []) + LongEvents(w, globalTick, s);
      BothRung(v, w, Sight(), more, globalTick, s);
      FiredBy(v, Sight(), more, globalTick, s);
    }

    /** The slow path: the handlers of one socket are called, and the sweep goes on where the iterator is by then. */
    method Fire(s: Node) returns (to: Option<Node>)
      requires Valid() && |rest| > 0 && rest[0] == s
      modifies `head, `next, `prev, `closedHead, `open, `socks, `iterator_, `chain, `rest, `gone, `touched, `script,
                 `events
      ensures Listed() && Ahead() && to == At(rest, 0) && |rest| < |old(rest)| && Within()
      ensures |old(events)| <= |events| && old(events) == events[..|old(events)|]
      ensures Fired(old(Sight()), Sight(), events[|old(events)|..], globalTick, s)
    {
      hide Fired, Listed, Linked, Clock;
      RingBoth(s);
      ListedParts();
      if iterator_ == Some(s) {
        NextOf(Pointers(), |chain| - |rest|);
        to, rest := next[s], rest[1..];
      } else {
        to := iterator_;
      }
    }

    lemma ClockShows(v: Sock)
      requires Clock()
      ensures (timestamp == v.timeout <==> IsShort(v, globalTick))
      ensures (longTimestamp == v.longTimeout <==> IsLong(v, globalTick))
    {
    }

    /** A socket whose time it is not is passed. */
    method Pass(s: Node, ghost v: View, ghost seen: nat) returns (to: Option<Node>)
      requires Listed() && Ahead() && |rest| > 0 && rest[0] == s && s in socks
      requires !IsShort(socks[s], globalTick) && !IsLong(socks[s], globalTick)
      requires seen <= |events| && AllSwept(v, Sight(), events[seen..], checked, globalTick)
      modifies `rest, `checked
      ensures Ahead() && to == At(rest, 0) && |rest| == |old(rest)| - 1
      ensures AllSwept(v, Sight(), events[seen..], checked, globalTick)
    {
      hide AllSwept, Listed, Linked, IsShort, IsLong;
      ListedParts();
      NextOf(Pointers(), |chain| - |rest|);
      SweepPasses(v, Sight(), events[seen..], checked, globalTick, s);
      checked, rest := checked + [s], rest[1..];
      to := next[s];
    }

    /** The tightest loop: to the next socket whose time it is. */
    method Seek(from: Node, ghost v: View, ghost seen: nat) returns (s: Option<Node>)
      requires Listed() && Ahead() && Clock() && |rest| > 0 && rest[0] == from
      requires seen <= |events| && AllSwept(v, Sight(), events[seen..], checked, globalTick)
      modifies `rest, `checked
      ensures Listed() && Ahead() && s == At(rest, 0) && |rest| <= |old(rest)|
      ensures AllSwept(v, Sight(), events[seen..], checked, globalTick)
    {
      hide AllSwept, Listed, Clock, IsShort, IsLong;
      s := Some(from);
      while true
        invariant Listed() && Clock() && Ahead() && s == At(rest, 0) && |rest| <= |old(rest)| && s.Some?
        invariant AllSwept(v, Sight(), events[seen..], checked, globalTick)
        decreases |rest|
      {
        ListedParts();
        assert s.value in chain;
        ClockShows(socks[s.value]);
        if timestamp == socks[s.value].timeout || longTimestamp == socks[s.value].longTimeout {
          return;
        }
        s := Pass(s.value, v, seen);
        if s == None {
          return;
        }
      }
    }

    /** The clock of the context moves on, and the sweep begins at the head. */
    method Tick() returns (s: Option<Node>)
      requires Valid() && rest == []
      modifies `globalTick, `timestamp, `longTimestamp, `rest, `checked
      ensures Listed() && Ahead() && Clock() && s == At(rest, 0) && globalTick == old(globalTick) + 1
      ensures AllSwept(old(Sight()), Sight(), [], checked, globalTick)
    {
      hide AllSwept, Listed, Linked;
      globalTick := globalTick + 1;
      timestamp := globalTick % WHEEL;
      longTimestamp := (globalTick / TICKS_PER_MINUTE) % WHEEL;
      s := head;
      rest, checked := chain, [];
      ListedParts();
      SweepBegins(old(Sight()), Sight(), globalTick);
    }

    /** One call of the slow path, in the sweep. */
    method Visit(s: Node, ghost v: View, ghost seen: nat) returns (to: Option<Node>)
      requires Listed() && Ahead() && Clock() && |rest| > 0 && rest[0] == s
      requires seen <= |events| && AllSwept(v, Sight(), events[seen..], checked, globalTick)
      modifies `head, `next, `prev, `closedHead, `open, `socks, `iterator_, `chain, `rest, `gone, `touched, `script,
                 `events
      modifies `checked
      ensures Listed() && Ahead() && to == At(rest, 0) && |rest| < |old(rest)| && Within()
      ensures seen <= |events| && old(events)[..seen] == events[..seen]
      ensures AllSwept(v, Sight(), events[seen..], checked, globalTick)
    {
      hide AllSwept, Fired, Linked, Listed, Clock;
      iterator_ := Some(s);
      ListedParts();
      assert s in chain;
      ghost var w, count := Sight(), |events|;
      to := Fire(s);
      SweepFires(v, w, Sight(), old(events)[seen..], events[count..], checked, globalTick, s);
      assert events[seen..] == old(events)[seen..] + events[count..];
      checked := checked + [s];
    }

    /** `us_internal_timer_sweep` of one context: every socket that is not closed on the way is looked at once, and
      * those nobody touches become what `React` says, with their handlers called exactly if it is time. */
    method Sweep()
      requires Valid() && rest == []
      modifies this
      ensures Valid() && rest == [] && globalTick == old(globalTick) + 1 && Within()
      ensures |old(events)| <= |events| && old(events) == events[..|old(events)|]
      ensures AllSwept(old(Sight()), Sight(), events[|old(events)|..], checked, globalTick)
    {
      hide AllSwept, Listed, Ahead, Clock;
      ghost var v, seen := Sight(), |events|;
      var s := Tick();
      assert events[seen..] == [] && old(events) == events[..seen];
      while s.Some?
        invariant Listed() && Ahead() && Clock() && s == At(rest, 0) && globalTick == old(globalTick) + 1 && Within()
        invariant seen <= |events| && old(events) == events[..seen]
        invariant AllSwept(v, Sight(), events[seen..], checked, globalTick)
        decreases |rest|
      {
        s := Seek(s.value, v, seen);
        if s.Some? {
          s := Visit(s.value, v, seen);
        }
      }
      iterator_ := None;
      Behind();
    }

    lemma Behind()
      requires Ahead() && At(rest, 0) == None
      ensures rest == []
    {
    }

    /** Any number of sweeps: a socket no callback names has become what `StateAt` says, and its handlers were
      * called at exactly the sweeps `RingsAt` says, once each. */
    method SweepMany(n: nat)
      requires Valid() && rest == []
      modifies this
      ensures Valid() && rest == [] && globalTick == old(globalTick) + n && touched <= old(Named(script))
      ensures |old(events)| <= |events| && old(events) == events[..|old(events)|]
      ensures ManySwept(old(Sight()), Sight(), events[|old(events)|..], old(globalTick), n)
    {
      hide ManySwept, AllSwept, Listed, AtRest, Clock;
      touched := {};
      ghost var v, seen := Sight(), |events|;
      assert events[seen..] == [];
      ListedParts();
      ManyBegins(v, globalTick);
      var i := 0;
      while i < n
        invariant i <= n && Valid() && rest == [] && globalTick == old(globalTick) + i
        invariant seen <= |events| && old(events) == events[..seen]
        invariant ManySwept(v, Sight(), events[seen..], old(globalTick), i)
        invariant touched <= old(Named(script)) && Named(script) <= old(Named(script))
      {
        ghost var w, count, earlier := Sight(), |events|, events[seen..];
        ListedParts();
        Sweep();
        assert events[seen..] == earlier + events[count..];
        ManyMore(v, w, Sight(), earlier, events[count..], checked, old(globalTick), i);
        i := i + 1;
      }
      SameBeginning(old(Sight()), v, Sight(), events[seen..], old(globalTick), n);
    }

    /** A timeout of up to sixteen minutes that no callback sets again rings once, at the sweep its seconds are rounded
      * up to. */
    method RingInTime(s: Node, seconds: nat, n: nat)
      requires Valid() && rest == [] && s in open && 0 < Ticks(seconds) <= WHEEL
      requires s in socks && socks[s].idle == None
      modifies this
      ensures Valid() && |old(events)| <= |events|
      ensures s !in old(Named(script)) ==>
                forall k: nat | 0 < k <= n ::
                  RangOnlyAt(events[|old(events)|..], s, false, old(globalTick), k, Ticks(seconds))
    {
      hide Listed, AtRest, Clock, Linked, ShortValue, Ticks, StateAt, RingsAt, Times;
      SetTimeout(s, seconds);
      ghost var v := Sight();
      SweepMany(n);
      assert ManyOf(v, Sight(), events[|old(events)|..], old(globalTick), n, s);
      TicksPositive(seconds);
      RingsWhenSetIff(v.socks[s], old(globalTick), seconds);
      forall k: nat | 0 < k <= n && s !in old(Named(script))
        ensures RangOnlyAt(events[|old(events)|..], s, false, old(globalTick), k, Ticks(seconds))
      {
        assert Times(events[|old(events)|..], s, false,
                 old(globalTick) + k) == Once(RingsAt(v.socks[s], old(globalTick), k, false));
        assert RingsAt(v.socks[s], old(globalTick), k, false) <==> k == Ticks(seconds);
      }
    }

    /** A WebSocket no callback hears of is closed by the sweep its idle timeout is rounded up to, and is there until
      * then. */
    method CloseInTime(s: Node, idleTimeout: nat, pings: bool, n: nat)
      requires Valid() && rest == [] && s in open
      requires if pings then 4 < idleTimeout <= 976 else 0 < idleTimeout <= 960
      modifies this
      ensures Valid() && (s !in old(Named(script)) ==> (s in chain <==> n < Ticks(idleTimeout)))
    {
      hide Listed, AtRest, Clock, Linked, ShortValue, Ticks, StateAt, RingsAt, Times, Fresh;
      UpgradeSocket(s, idleTimeout, pings, 0);
      ghost var v := Sight();
      SweepMany(n);
      assert ManyOf(v, Sight(), events[|old(events)|..], old(globalTick), n, s);
      IdleWebSocketClosesIff(old(globalTick), idleTimeout, pings);
      assert ClosedBy(v.socks[s], old(globalTick), n) <==> n >= Ticks(idleTimeout);
    }
  }

  lemma NextOf(l: Links, k: nat)
    requires Linked(l) && k < |l.chain|
    ensures l.chain[k] in l.next && l.next[l.chain[k]] == At(l.chain, k + 1) && Distinct(l.chain[k..])
  {
    assert NodeLinked(l, k);
    DistinctFrom(l.chain, k);
  }

  lemma LinkedParts(l: Links, p: nat)
    requires Linked(l) && p < |l.chain|
    ensures Distinct(l.chain) && NodeLinked(l, p)
    ensures forall i, j | 0 <= i < |l.chain| && 0 <= j < |l.chain| && l.chain[i] == l.chain[j] :: i == j
  {
    assert NodeLinked(l, p);
  }

  /** A node between equal neighbours is alone. */
  lemma EndsMeet(l: Links, p: nat)
    requires Linked(l) && p < |l.chain|
    ensures NodeLinked(l, p)
    ensures l.prev[l.chain[p]] == l.next[l.chain[p]] ==>
              |l.chain| == 1 && Unlink(l, p) == Links([], None, l.next, l.prev)
  {
    assert NodeLinked(l, p);
  }

  lemma HeadAt(l: Links, p: nat)
    requires Linked(l) && p < |l.chain|
    ensures NodeLinked(l, p) && (l.head == Some(l.chain[p]) <==> p == 0) && (l.prev[l.chain[p]] == None <==> p == 0)
  {
    assert NodeLinked(l, p);
  }

  lemma RestWithout(chain: seq<Node>, k: nat, p: nat)
    requires Distinct(chain) && k <= |chain| && p < |chain|
    ensures var rest := Without(chain, p)[if p < k then k - 1 else k..];
            && (forall x :: x in rest <==> x in chain[k..] && x != chain[p])
            && At(rest, 0) == (if p == k then At(chain, k + 1) else At(chain, k))
            && |rest| == |chain| - k - (if chain[p] in chain[k..] then 1 else 0)
  {
    WithoutAt(chain, p);
    if p >= k {
      DistinctFrom(chain, k);
      assert chain[k..][p - k] == chain[p];
      assert Without(chain, p)[k..] == Without(chain[k..], p - k);
      forall x ensures x in Without(chain[k..], p - k) <==> x in chain[k..] && x != chain[k..][p - k] {
        WithoutIn(chain[k..], p - k, x);
      }
    } else {
      assert Without(chain, p)[k - 1..] == chain[k..];
    }
  }

  lemma DistinctFrom(chain: seq<Node>, k: nat)
    requires Distinct(chain) && k <= |chain|
    ensures Distinct(chain[k..])
  {
  }

  /** What becomes of the pointers of a node that is on no list does not matter. */
  lemma ElsewhereLinked(l: Links, s: Node, next: Option<Node>, prev: Option<Node>)
    requires Linked(l) && s !in l.chain
    ensures Linked(l.(next := l.next[s := next], prev := l.prev[s := prev]))
  {
    var m := l.(next := l.next[s := next], prev := l.prev[s := prev]);
    forall i | 0 <= i < |m.chain| ensures NodeLinked(m, i) {
      assert NodeLinked(l, i) && l.chain[i] in l.chain;
    }
  }
}
