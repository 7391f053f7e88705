/** Outbound connection attempts of connect.c as values: requests, the lists of their contexts, lookups, attempt
  * sockets and timers, and what has been told to the owners. */
module ConnectState {
  import opened Bytes
  import opened IntrusiveList

  type Id = nat
  type Addr = nat

  datatype Phase = Resolving | Connecting | Handshaking | Done | Cancelled

  /** `us_connect_request_t`; a cancelled one only waits for its lookup to come back. */
  datatype Request = Request(context: Option<Id>, phase: Phase, attempt: Option<Id>, timer: Option<Id>,
                             results: seq<Addr>, cursor: nat, deadline: bool)

  datatype Timer = Timer(request: Id, armed: bool)

  /** `Opened`, `Failed`, `TimedOut`: on_open, on_connect_error and on_socket_timeout; the others are calls of the
    * owner, after which a request is nothing to it any more. */
  datatype Kind = Opened | Failed(code: int) | TimedOut | WasCancelled | WasReleased | WasOrphaned
  {
    predicate Final() { Failed? || WasCancelled? || WasReleased? || WasOrphaned? }
  }

  datatype Event = Event(request: Id, kind: Kind)

  // ---------------------------------------------------------------- the lists of all contexts

  /** `head_connect_requests` of every live context, and the pointers of the requests. */
  datatype Lists = Lists(heads: map<Id, Option<Id>>, next: map<Id, Option<Id>>, prev: map<Id, Option<Id>>,
                         chains: map<Id, seq<Id>>)

  function LinksOf(l: Lists, c: Id): Links
    requires c in l.heads && c in l.chains
  {
    Links(l.chains[c], l.heads[c], l.next, l.prev)
  }

  ghost predicate ListsOk(l: Lists)
  {
    && l.heads.Keys == l.chains.Keys
    && (forall c :: c in l.heads ==> Linked(LinksOf(l, c)))
    && forall c, d, r :: c in l.chains && d in l.chains && r in l.chains[c] && r in l.chains[d] ==> c == d
  }

  ghost function Position(chain: seq<Id>, r: Id): (p: nat)
    requires r in chain
    ensures p < |chain| && chain[p] == r
  {
    var p :| 0 <= p < |chain| && chain[p] == r;
    p
  }

  /** The pointers after `unlink_request`. */
  ghost function Delink(l: Lists, c: Id, r: Id): Lists
    requires c in l.heads && c in l.chains && r in l.chains[c] && Linked(LinksOf(l, c))
  {
    var p := Position(l.chains[c], r);
    assert NodeLinked(LinksOf(l, c), p);
    var u := Unlink(LinksOf(l, c), p);
    Lists(l.heads[c := u.head], u.next[r := None], u.prev[r := None], l.chains[c := u.chain])
  }

  /** The pointers after `link_request`. */
  function Enlink(l: Lists, c: Id, r: Id): Lists
    requires c in l.heads && c in l.chains
  {
    var u := Push(LinksOf(l, c), r);
    Lists(l.heads[c := u.head], u.next, u.prev, l.chains[c := u.chain])
  }

  lemma LinkedFrame(l: Links, l': Links)
    requires Linked(l) && l'.chain == l.chain && l'.head == l.head
    requires forall x :: x in l.chain && x in l.next && x in l.prev ==>
               x in l'.next && x in l'.prev && l'.next[x] == l.next[x] && l'.prev[x] == l.prev[x]
    ensures Linked(l')
  {
    forall i | 0 <= i < |l.chain|
      ensures NodeLinked(l', i)
    {
      assert NodeLinked(l, i);
    }
  }

  lemma DelinkKeeps(l: Lists, c: Id, r: Id)
    requires ListsOk(l) && c in l.heads && r in l.chains[c]
    ensures ListsOk(Delink(l, c, r))
    ensures forall d, x :: d in l.chains ==> (x in Delink(l, c, r).chains[d] <==> x in l.chains[d] && x != r)
  {
    hide Linked, Unlink;
    var p := Position(l.chains[c], r);
    UnlinkKeeps(LinksOf(l, c), p);
    var l' := Delink(l, c, r);
    forall d | d in l'.heads
      ensures Linked(LinksOf(l', d))
    {
      UnlinkTouches(LinksOf(l, c), p);
      if d == c {
        LinkedFrame(Unlink(LinksOf(l, c), p), LinksOf(l', c));
      } else {
        LinkedFrame(LinksOf(l, d), LinksOf(l', d));
      }
    }
  }

  /** Only members of the list have their pointers changed. */
  lemma UnlinkTouches(l: Links, p: nat)
    requires Linked(l) && p < |l.chain|
    ensures NodeLinked(l, p)
    ensures var u := Unlink(l, p);
            && u.next.Keys == l.next.Keys && u.prev.Keys == l.prev.Keys
            && (forall x :: x in l.next && x !in l.chain ==> u.next[x] == l.next[x])
            && (forall x :: x in l.prev && x !in l.chain ==> u.prev[x] == l.prev[x])
  {
    hide Without;
    assert NodeLinked(l, p);
    if p > 0 { assert NodeLinked(l, p - 1); }
    if p + 1 < |l.chain| { assert NodeLinked(l, p + 1); }
  }

  lemma EnlinkKeeps(l: Lists, c: Id, r: Id)
    requires ListsOk(l) && c in l.heads && forall d :: d in l.chains ==> r !in l.chains[d]
    ensures ListsOk(Enlink(l, c, r))
    ensures forall d, x :: d in l.chains ==>
              (x in Enlink(l, c, r).chains[d] <==> x in l.chains[d] || (d == c && x == r))
  {
    hide Linked;
    PushKeeps(LinksOf(l, c), r);
    var l' := Enlink(l, c, r);
    forall d | d in l'.heads
      ensures Linked(LinksOf(l', d))
    {
      if d != c {
        HeadInChain(LinksOf(l, c));
        LinkedFrame(LinksOf(l, d), LinksOf(l', d));
      }
    }
  }

  lemma HeadInChain(l: Links)
    requires Linked(l)
    ensures l.head.Some? ==> l.head.value in l.chain
  {
  }

  // ---------------------------------------------------------------- the log

  ghost predicate Told(log: seq<Event>, r: Id, kind: Kind)
  {
    exists i :: 0 <= i < |log| && log[i] == Event(r, kind)
  }

  ghost predicate Ended(log: seq<Event>, r: Id)
  {
    exists i :: 0 <= i < |log| && log[i].request == r && log[i].kind.Final()
  }

  /** Nothing follows what ends a request; it opens at most once, and does not fail after it has opened. */
  ghost predicate LogOk(log: seq<Event>)
  {
    forall i, j :: 0 <= i < j < |log| && log[i].request == log[j].request ==>
      && !log[i].kind.Final()
      && !(log[i].kind.Opened? && (log[j].kind.Opened? || log[j].kind.Failed?))
      && !(log[i].kind.TimedOut? && log[j].kind.TimedOut?)
  }

  lemma LogGrows(log: seq<Event>, e: Event)
    requires LogOk(log) && !Ended(log, e.request)
    requires e.kind.Opened? || e.kind.Failed? ==> !Told(log, e.request, Opened)
    requires e.kind.TimedOut? ==> !Told(log, e.request, TimedOut)
    ensures LogOk(log + [e])
    ensures forall r :: Ended(log + [e], r) <==> Ended(log, r) || (r == e.request && e.kind.Final())
    ensures forall r, k :: Told(log + [e], r, k) <==> Told(log, r, k) || Event(r, k) == e
  {
    var log' := log + [e];
    forall r
      ensures Ended(log', r) <==> Ended(log, r) || (r == e.request && e.kind.Final())
    {
      if Ended(log, r) {
        var i :| 0 <= i < |log| && log[i].request == r && log[i].kind.Final();
        assert log'[i] == log[i];
      }
      assert log'[|log|] == e;
    }
    forall r, k
      ensures Told(log', r, k) <==> Told(log, r, k) || Event(r, k) == e
    {
      if Told(log, r, k) {
        var i :| 0 <= i < |log| && log[i] == Event(r, k);
        assert log'[i] == log[i];
      }
      assert log'[|log|] == e;
    }
    forall i, j | 0 <= i < j < |log'| && log'[i].request == log'[j].request
      ensures && !log'[i].kind.Final()
              && !(log'[i].kind.Opened? && (log'[j].kind.Opened? || log'[j].kind.Failed?))
              && !(log'[i].kind.TimedOut? && log'[j].kind.TimedOut?)
    {
      assert log'[i] == log[i];
      if j == |log| {
        assert log[i].kind.Opened? ==> Told(log, e.request, Opened);
        assert log[i].kind.TimedOut? ==> Told(log, e.request, TimedOut);
      }
    }
  }

  // ---------------------------------------------------------------- the whole

  /** `semi`: attempt sockets polled for writability, with the request stashed in them.  `lookups`: requests whose
    * uv_getaddrinfo has not come back.  `busy`: the requests that are being failed or torn
    * down, which their owners leave alone. */
  datatype World = World(requests: map<Id, Request>, lists: Lists, semi: map<Id, Id>, timers: map<Id, Timer>,
                         lookups: set<Id>, pendingResolves: int, log: seq<Event>, nextId: nat, busy: set<Id>)

  /** On its context's list: alive and not cancelled. */
  predicate Listed(w: World, r: Id)
  {
    r in w.requests && !w.requests[r].phase.Cancelled?
  }

  ghost predicate Lookups(w: World)
  {
    && w.pendingResolves == |w.lookups|
    && (forall r: Id :: r in w.lookups ==>
      r in w.requests && (w.requests[r].phase.Resolving? || w.requests[r].phase.Cancelled?))
    && (forall r: Id ::
          r in w.requests && (w.requests[r].phase.Cancelled? || (w.requests[r].phase.Resolving? && r !in w.busy)) ==>
            r in w.lookups)
  }

  /** A request is on the list of its context exactly while it is alive and not cancelled; `loose` are those of a
    * context that is being freed. */
  ghost predicate OnLists(w: World, loose: set<Id>)
  {
    && ListsOk(w.lists)
    && (forall r: Id :: Listed(w, r) && r !in loose ==>
          w.requests[r].context.Some? && w.requests[r].context.value in w.lists.chains
            && r in w.lists.chains[w.requests[r].context.value])
    && (forall c: Id, r: Id :: c in w.lists.chains && r in w.lists.chains[c] ==>
      Listed(w, r) && w.requests[r].context == Some(c) && r !in loose)
    && (forall r: Id :: r in loose ==> Listed(w, r) && r !in w.busy)
  }

  /** An attempt socket leads to the request that made it, and to no freed one. */
  ghost predicate Sockets(w: World)
  {
    && (forall s: Id :: s in w.semi ==>
      w.semi[s] in w.requests && w.requests[w.semi[s]].phase.Connecting? && w.requests[w.semi[s]].attempt == Some(s))
    && (forall r: Id :: r in w.requests && w.requests[r].phase.Connecting? && w.requests[r].attempt.Some? ==>
          w.requests[r].attempt.value in w.semi && w.semi[w.requests[r].attempt.value] == r)
  }

  /** A timer leads to the request that owns it, and an armed one to a request with a deadline ahead. */
  ghost predicate Timers(w: World)
  {
    && (forall t: Id :: t in w.timers ==>
      w.timers[t].request in w.requests && w.requests[w.timers[t].request].timer == Some(t)
                                          && (w.timers[t].armed ==> !w.requests[w.timers[t].request].phase.Done?))
    && (forall r: Id :: r in w.requests && w.requests[r].timer.Some? ==>
          w.requests[r].timer.value in w.timers && w.timers[w.requests[r].timer.value].request == r)
  }

  ghost predicate RequestOk(q: Request, busy: bool)
  {
    match q.phase
    case Resolving => q.attempt.None? && q.results == []
    case Connecting => busy || (q.attempt.Some? && q.cursor < |q.results|)
    case Handshaking => q.results == []
    case Done => q.results == []
    case Cancelled => q.attempt.None? && q.timer.None? && q.results == []
  }

  ghost predicate Requests(w: World)
  {
    && (forall r: Id :: r in w.requests ==> r < w.nextId && RequestOk(w.requests[r], r in w.busy))
    && (forall c: Id :: c in w.lists.heads ==> c < w.nextId)
    && (forall s: Id :: s in w.semi ==> s < w.nextId) && (forall t: Id :: t in w.timers ==> t < w.nextId)
    && (forall r: Id :: r in w.busy ==> Listed(w, r))
  }

  /** What the owners were told matches where the requests are. */
  ghost predicate Logged(w: World)
  {
    && LogOk(w.log) && (forall i :: 0 <= i < |w.log| ==> w.log[i].request < w.nextId)
    && (forall r: Id :: Listed(w, r) && r !in w.busy ==> !Ended(w.log, r))
    && (forall r: Id :: Listed(w, r) ==>
          && (Told(w.log, r, Opened) <==> w.requests[r].phase.Handshaking? || w.requests[r].phase.Done?)
          && (Told(w.log, r, TimedOut) <==> w.requests[r].phase.Done?))
  }

  ghost predicate InvBut(w: World, loose: set<Id>)
  {
    Lookups(w) && OnLists(w, loose) && Sockets(w) && Timers(w) && Requests(w) && Logged(w)
  }

  /** What every step keeps. */
  ghost predicate Inv(w: World)
  {
    InvBut(w, {})
  }

  // ---------------------------------------------------------------- steps

  /** The owner is told something, or tells something, that ends the request; it is busy until it is torn down. */
  function Say(w: World, r: Id, kind: Kind): World
  {
    w.(log := w.log + [Event(r, kind)], busy := if kind.Final() then w.busy + {r} else w.busy)
  }

  function TimersWithout(timers: map<Id, Timer>, q: Request): map<Id, Timer>
  {
    if q.timer.Some? then timers - {q.timer.value} else timers
  }

  function SemiWithout(semi: map<Id, Id>, q: Request): map<Id, Id>
  {
    if q.phase.Connecting? && q.attempt.Some? then semi - {q.attempt.value} else semi
  }

  /** Timer, attempt, results and place on the list are given up, and the request is freed. */
  ghost function Torn(w: World, r: Id): World
    requires InvBut(w, {}) && Listed(w, r)
  {
    var c := w.requests[r].context.value;
    w.(requests := w.requests - {r}, lists := Delink(w.lists, c, r), semi :=
      SemiWithout(w.semi, w.requests[r]), timers := TimersWithout(w.timers, w.requests[r]), busy := w.busy - {r})
  }

  /** The same, but a lookup is still out: the request stays until it comes back. */
  ghost function Muted(w: World, r: Id): World
    requires InvBut(w, {}) && Listed(w, r)
  {
    var q := w.requests[r];
    w.(requests := w.requests[r := q.(phase := Cancelled, timer := None)], lists := Delink(w.lists, q.context.value, r),
       timers := TimersWithout(w.timers, w.requests[r]), busy := w.busy - {r})
  }

  /** Orphaned by the freeing of its context, whose list is already gone. */
  function Orphaned(w: World, r: Id): World
    requires r in w.requests
  {
    var q := w.requests[r];
    var told := w.(log := w.log + [Event(r, WasOrphaned)], timers := TimersWithout(w.timers, w.requests[r]));
    if q.phase.Resolving? then
      told.(requests := w.requests[r := q.(phase := Cancelled, timer := None, context := None)])
    else told.(requests := w.requests - {r}, semi := SemiWithout(w.semi, w.requests[r]))
  }

  lemma SayLogged(w: World, r: Id, kind: Kind)
    requires Logged(w) && Listed(w, r) && !Ended(w.log, r) && kind.Final() && r < w.nextId
    requires kind.Failed? ==> !w.requests[r].phase.Handshaking? && !w.requests[r].phase.Done?
    ensures Logged(Say(w, r, kind)) && Ended(Say(w, r, kind).log, r)
  {
    hide LogOk, Ended, Told;
    LogGrows(w.log, Event(r, kind));
  }

  /** Parts of the invariant that only a change of `busy` could touch. */
  lemma BusyKeeps(w: World, y: World, r: Id)
    requires Lookups(w) && OnLists(w, {}) && Requests(w) && Listed(w, r)
    requires y == w.(log := y.log, busy := w.busy + {r})
    ensures Lookups(y) && OnLists(y, {}) && Requests(y)
  {
    hide ListsOk;
  }

  lemma SayKeeps(w: World, r: Id, kind: Kind)
    requires Inv(w) && Listed(w, r) && !Ended(w.log, r) && kind.Final()
    requires kind.Failed? ==> !w.requests[r].phase.Handshaking? && !w.requests[r].phase.Done?
    ensures Inv(Say(w, r, kind)) && Ended(Say(w, r, kind).log, r)
  {
    hide ListsOk, Logged, Ended, Told, Lookups, OnLists, RequestOk;
    var y := Say(w, r, kind);
    SayLogged(w, r, kind);
    BusyKeeps(w, y, r);
    SameSockets(w, y);
  }

  lemma SameSockets(w: World, y: World)
    requires y.requests == w.requests && y.semi == w.semi && y.timers == w.timers
    ensures Sockets(w) ==> Sockets(y)
    ensures Timers(w) ==> Timers(y)
  {
  }

  /** The request is gone, or only waits for its lookup. */
  ghost predicate Removed(w: World, y: World, r: Id)
  {
    && (forall u: Id :: u != r ==>
      (u in y.requests <==> u in w.requests) && (u in w.requests ==> y.requests[u] == w.requests[u]))
    && (r in y.requests ==> r in w.requests && RequestOk(y.requests[r], false) && y.requests[r].phase.Cancelled?)
  }

  lemma SocketsAfter(w: World, y: World, r: Id)
    requires Sockets(w) && r in w.requests && Removed(w, y, r) && y.semi == SemiWithout(w.semi, w.requests[r])
    ensures Sockets(y)
  {
  }

  lemma TimersAfter(w: World, y: World, r: Id)
    requires Timers(w) && r in w.requests && Removed(w, y, r) && y.timers == TimersWithout(w.timers, w.requests[r])
    ensures Timers(y)
  {
  }

  lemma LookupsAfter(w: World, y: World, r: Id)
    requires Lookups(w) && Removed(w, y, r) && y.lookups == w.lookups && y.pendingResolves == w.pendingResolves
    requires y.busy == w.busy - {r}
    requires r in w.lookups <==> r in y.requests
    ensures Lookups(y)
  {
  }

  lemma RequestsAfter(w: World, y: World, r: Id)
    requires Requests(w) && Removed(w, y, r) && y.lists.heads.Keys == w.lists.heads.Keys && y.nextId == w.nextId
    requires r in w.requests
    requires y.busy == w.busy - {r}
    requires y.semi == SemiWithout(w.semi, w.requests[r]) && y.timers == TimersWithout(w.timers, w.requests[r])
    ensures Requests(y)
  {
    hide RequestOk;
    BusyOk();
  }

  lemma BusyOk()
    ensures forall q :: RequestOk(q, false) ==> RequestOk(q, true)
  {
  }

  lemma TornLists(w: World, r: Id)
    requires OnLists(w, {}) && Listed(w, r)
    ensures w.requests[r].context.Some? && w.requests[r].context.value in w.lists.heads
    ensures r in w.lists.chains[w.requests[r].context.value]
    ensures Linked(LinksOf(w.lists, w.requests[r].context.value))
    ensures ListsOk(Delink(w.lists, w.requests[r].context.value, r))
    ensures Delink(w.lists, w.requests[r].context.value, r).chains.Keys == w.lists.chains.Keys
    ensures Delink(w.lists, w.requests[r].context.value, r).heads.Keys == w.lists.heads.Keys
    ensures forall d: Id, x: Id :: d in w.lists.chains ==>
              (x in Delink(w.lists, w.requests[r].context.value, r).chains[d] <==> x in w.lists.chains[d] && x != r)
  {
    hide Linked;
    DelinkKeeps(w.lists, w.requests[r].context.value, r);
  }

  lemma TornOnLists(w: World, r: Id)
    requires Inv(w) && Listed(w, r)
    ensures OnLists(Torn(w, r), {})
  {
    hide ListsOk, Linked, Delink, Logged, Lookups, Sockets, Timers, Requests;
    TornLists(w, r);
  }

  lemma TornRest(w: World, r: Id)
    requires Inv(w) && Listed(w, r) && r !in w.lookups
    ensures var y := Torn(w, r); Lookups(y) && Sockets(y) && Timers(y) && Requests(y)
  {
    hide ListsOk, Linked, Delink, Logged, Lookups, Sockets, Timers, Requests;
    TornLists(w, r);
    var y := Torn(w, r);
    SocketsAfter(w, y, r);
    TimersAfter(w, y, r);
    LookupsAfter(w, y, r);
    RequestsAfter(w, y, r);
  }

  lemma TornLogged(w: World, r: Id)
    requires Inv(w) && Listed(w, r)
    ensures Logged(Torn(w, r))
  {
    hide ListsOk, Linked, Delink, LogOk, Ended, Told, Lookups, OnLists, Sockets, Timers, Requests;
  }

  lemma TornKeeps(w: World, r: Id)
    requires Inv(w) && Listed(w, r) && r !in w.lookups
    ensures Inv(Torn(w, r))
  {
    hide OnLists, Lookups, Sockets, Timers, Requests, Logged;
    TornOnLists(w, r);
    TornRest(w, r);
    TornLogged(w, r);
  }

  lemma MutedOnLists(w: World, r: Id)
    requires Inv(w) && Listed(w, r)
    ensures OnLists(Muted(w, r), {})
  {
    hide ListsOk, Linked, Delink, Logged, Lookups, Sockets, Timers, Requests;
    TornLists(w, r);
  }

  lemma MutedRest(w: World, r: Id)
    requires Inv(w) && Listed(w, r) && r in w.lookups && r in w.busy && RequestOk(w.requests[r], true)
    requires w.requests[r].phase.Resolving?
    ensures var y := Muted(w, r); Lookups(y) && Sockets(y) && Timers(y) && Requests(y)
  {
    hide ListsOk, Linked, Delink, Logged, Lookups, Sockets, Timers, Requests;
    TornLists(w, r);
    var y := Muted(w, r);
    SocketsAfter(w, y, r);
    TimersAfter(w, y, r);
    LookupsAfter(w, y, r);
    RequestsAfter(w, y, r);
  }

  lemma MutedLogged(w: World, r: Id)
    requires Inv(w) && Listed(w, r) && r in w.busy
    ensures Logged(Muted(w, r))
  {
    hide ListsOk, Linked, Delink, LogOk, Ended, Told, Lookups, OnLists, Sockets, Timers, Requests;
  }

  lemma MutedKeeps(w: World, r: Id)
    requires Inv(w) && Listed(w, r) && r in w.lookups && r in w.busy && w.requests[r].phase.Resolving?
    ensures Inv(Muted(w, r))
  {
    hide OnLists, Lookups, Sockets, Timers, Logged;
    MutedOnLists(w, r);
    MutedRest(w, r);
    MutedLogged(w, r);
  }

  lemma OrphanedLogged(w: World, r: Id)
    requires Logged(w) && Listed(w, r) && r !in w.busy && r < w.nextId
    ensures Logged(Orphaned(w, r))
  {
    hide LogOk, Ended, Told;
    LogGrows(w.log, Event(r, WasOrphaned));
  }

  lemma OrphanedOnLists(w: World, r: Id, loose: set<Id>)
    requires OnLists(w, loose) && r in loose
    ensures OnLists(Orphaned(w, r), loose - {r})
  {
    hide ListsOk;
    var y := Orphaned(w, r);
    forall c: Id, u: Id | c in y.lists.chains && u in y.lists.chains[c]
      ensures Listed(y, u) && y.requests[u].context == Some(c) && u !in loose - {r}
    {
      assert Listed(w, u) && w.requests[u].context == Some(c) && u !in loose;
    }
    forall u: Id | Listed(y, u) && u !in loose - {r}
      ensures y.requests[u].context.Some? && y.requests[u].context.value in y.lists.chains
      ensures u in y.lists.chains[y.requests[u].context.value]
    {
      assert u != r && Listed(w, u) && u !in loose;
    }
    forall u: Id | u in loose - {r}
      ensures Listed(y, u) && u !in y.busy
    {
      assert Listed(w, u) && u !in w.busy;
    }
  }

  lemma OrphanedRest(w: World, r: Id)
    requires Lookups(w) && Sockets(w) && Timers(w) && Requests(w) && Listed(w, r) && r !in w.busy
    requires RequestOk(w.requests[r], false)
    requires r in w.lookups <==> w.requests[r].phase.Resolving?
    ensures var y := Orphaned(w, r); Lookups(y) && Sockets(y) && Timers(y) && Requests(y)
  {
    hide ListsOk, Linked, Delink, Logged, Lookups, Sockets, Timers, Requests;
    var y := Orphaned(w, r);
    SocketsAfter(w, y, r);
    TimersAfter(w, y, r);
    LookupsAfter(w, y, r);
    RequestsAfter(w, y, r);
  }

  lemma OrphanedKeeps(w: World, r: Id, loose: set<Id>)
    requires InvBut(w, loose) && r in loose
    ensures InvBut(Orphaned(w, r), loose - {r})
  {
    hide Sockets, Timers, Logged, ListsOk;
    OrphanedLogged(w, r);
    OrphanedOnLists(w, r, loose);
    OrphanedRest(w, r);
  }

  // ---------------------------------------------------------------- steps that keep the request

  /** Nothing but `r` changes among the requests. */
  ghost predicate Changed(w: World, y: World, r: Id)
  {
    && r in y.requests
    && (forall u: Id :: u != r ==>
      (u in y.requests <==> u in w.requests) && (u in w.requests ==> y.requests[u] == w.requests[u]))
  }

  lemma SocketsChanged(w: World, y: World, r: Id)
    requires Sockets(w) && Changed(w, y, r)
    requires forall s: Id :: (s in y.semi && y.semi[s] != r) <==> (s in w.semi && w.semi[s] != r)
    requires forall s: Id :: s in y.semi && y.semi[s] != r ==> y.semi[s] == w.semi[s]
    requires forall s: Id :: s in y.semi && y.semi[s] == r ==>
               y.requests[r].phase.Connecting? && y.requests[r].attempt == Some(s)
    requires y.requests[r].phase.Connecting? && y.requests[r].attempt.Some? ==>
               y.requests[r].attempt.value in y.semi && y.semi[y.requests[r].attempt.value] == r
    ensures Sockets(y)
  {
    forall u: Id | u in y.requests && y.requests[u].phase.Connecting? && y.requests[u].attempt.Some?
      ensures y.requests[u].attempt.value in y.semi && y.semi[y.requests[u].attempt.value] == u
    {
      if u != r {
        var s := w.requests[u].attempt.value;
        assert s in w.semi && w.semi[s] == u;
      }
    }
  }

  lemma TimersChanged(w: World, y: World, r: Id)
    requires Timers(w) && Changed(w, y, r)
    requires forall t: Id :: (t in y.timers && y.timers[t].request != r) <==>
               (t in w.timers && w.timers[t].request != r)
    requires forall t: Id :: t in y.timers && y.timers[t].request != r ==> y.timers[t] == w.timers[t]
    requires forall t: Id :: t in y.timers && y.timers[t].request == r ==>
               y.requests[r].timer == Some(t) && (y.timers[t].armed ==> !y.requests[r].phase.Done?)
    requires y.requests[r].timer.Some? ==>
               y.requests[r].timer.value in y.timers && y.timers[y.requests[r].timer.value].request == r
    ensures Timers(y)
  {
    forall u: Id | u in y.requests && y.requests[u].timer.Some?
      ensures y.requests[u].timer.value in y.timers && y.timers[y.requests[u].timer.value].request == u
    {
      if u != r {
        var t := w.requests[u].timer.value;
        assert t in w.timers && w.timers[t].request == u;
      }
    }
  }

  lemma LookupsChanged(w: World, y: World, r: Id)
    requires Lookups(w) && Changed(w, y, r)
    requires y.lookups == w.lookups - {r} || y.lookups == w.lookups + {r}
    requires y.pendingResolves == w.pendingResolves + |y.lookups| - |w.lookups|
    requires r in y.lookups ==> y.requests[r].phase.Resolving? || y.requests[r].phase.Cancelled?
    requires y.requests[r].phase.Cancelled? || (y.requests[r].phase.Resolving? && r !in y.busy) ==> r in y.lookups
    requires forall u: Id :: u != r ==> (u in y.busy <==> u in w.busy)
    ensures Lookups(y)
  {
  }

  lemma OnListsChanged(w: World, y: World, r: Id)
    requires OnLists(w, {}) && Changed(w, y, r) && y.lists == w.lists
    requires Listed(w, r) && Listed(y, r) && y.requests[r].context == w.requests[r].context
    ensures OnLists(y, {})
  {
    hide ListsOk;
    forall u: Id | Listed(y, u)
      ensures y.requests[u].context.Some? && y.requests[u].context.value in y.lists.chains
      ensures u in y.lists.chains[y.requests[u].context.value]
    {
      assert Listed(w, u);
    }
    forall c: Id, u: Id | c in y.lists.chains && u in y.lists.chains[c]
      ensures Listed(y, u) && y.requests[u].context == Some(c)
    {
      assert Listed(w, u) && w.requests[u].context == Some(c);
    }
  }

  lemma RequestsChanged(w: World, y: World, r: Id)
    requires Requests(w) && Changed(w, y, r) && w.nextId <= y.nextId && r < y.nextId
    requires RequestOk(y.requests[r], r in y.busy)
    requires y.lists.heads.Keys == w.lists.heads.Keys
    requires (forall s: Id :: s in y.semi ==> s < y.nextId) && (forall t: Id :: t in y.timers ==> t < y.nextId)
    requires forall u: Id :: u != r ==> (u in y.busy <==> u in w.busy)
    requires r in y.busy ==> Listed(y, r)
    ensures Requests(y)
  {
    hide RequestOk;
    BusyOk();
  }

  /** The log stays, or says one more thing of `r` that is not final. */
  lemma LoggedChanged(w: World, y: World, r: Id)
    requires Logged(w) && Changed(w, y, r) && w.nextId <= y.nextId && y.log == w.log
    requires forall u: Id :: u != r ==> (u in y.busy <==> u in w.busy)
    requires Listed(y, r) ==>
               && (r !in y.busy ==> !Ended(w.log, r))
               && (Told(w.log, r, Opened) <==> y.requests[r].phase.Handshaking? || y.requests[r].phase.Done?)
               && (Told(w.log, r, TimedOut) <==> y.requests[r].phase.Done?)
    ensures Logged(y)
  {
    hide LogOk, Ended, Told;
  }

  lemma LoggedMore(w: World, y: World, r: Id, kind: Kind)
    requires Logged(w) && Changed(w, y, r) && w.nextId <= y.nextId && y.log == w.log + [Event(r, kind)] && r < w.nextId
    requires y.busy == w.busy && r !in w.busy && Listed(w, r) && Listed(y, r)
    requires if kind.Opened? then !(w.requests[r].phase.Handshaking? || w.requests[r].phase.Done?)
               && y.requests[r].phase.Handshaking?
             else kind.TimedOut? && w.requests[r].phase.Handshaking? && y.requests[r].phase.Done?
    ensures Logged(y)
  {
    hide LogOk, Ended, Told;
    LogGrows(w.log, Event(r, kind));
  }

  // ---------------------------------------------------------------- the steps themselves

  /** A request for a new connection, with its lookup under way. */
  function Begun(w: World, c: Id, timed: bool, armed: bool, deadline: bool): World
    requires c in w.lists.heads && c in w.lists.chains
  {
    var r, t := w.nextId, w.nextId + 1;
    w.(requests := w.requests[r := Request(Some(c), Resolving, None, if timed then Some(t) else None, [], 0, deadline)],
       lists := Enlink(w.lists, c, r), timers := if timed then w.timers[t := Timer(r, armed)] else w.timers,
       lookups := w.lookups + {r}, pendingResolves := w.pendingResolves + 1, nextId := w.nextId + 2)
  }

  lemma BegunOnLists(w: World, c: Id, timed: bool, armed: bool, deadline: bool)
    requires Inv(w) && c in w.lists.heads
    ensures OnLists(Begun(w, c, timed, armed, deadline), {})
    ensures Begun(w, c, timed, armed, deadline).lists.heads.Keys == w.lists.heads.Keys
  {
    hide ListsOk, Linked, Enlink, Lookups, Sockets, Timers, Logged, Requests;
    Fresh(w);
    var r := w.nextId;
    ListsParts(w);
    EnlinkKeeps(w.lists, c, r);
    EnlinkKeys(w.lists, c, r);
    var y := Begun(w, c, timed, armed, deadline);
    assert y.lists.chains.Keys == w.lists.chains.Keys;
  }

  lemma ListsParts(w: World)
    requires OnLists(w, {})
    ensures ListsOk(w.lists) && w.lists.heads.Keys == w.lists.chains.Keys
  {
    hide Linked;
  }

  /** A new id is nobody's. */
  lemma Fresh(w: World)
    requires Inv(w)
    ensures w.nextId !in w.requests && w.nextId !in w.semi && w.nextId !in w.timers && w.nextId + 1 !in w.timers
    ensures w.nextId !in w.lookups
    ensures forall c :: c in w.lists.chains ==> w.nextId !in w.lists.chains[c]
    ensures w.nextId !in w.lists.heads
    ensures w.nextId !in w.busy
    ensures forall s: Id :: s in w.semi ==> w.semi[s] in w.requests
    ensures forall t: Id :: t in w.timers ==> w.timers[t].request in w.requests
    ensures (forall s: Id :: s in w.semi ==> s < w.nextId) && (forall t: Id :: t in w.timers ==> t < w.nextId)
  {
    hide Logged, ListsOk, RequestOk;
  }

  lemma BegunRest(w: World, c: Id, timed: bool, armed: bool, deadline: bool)
    requires Inv(w) && c in w.lists.heads && c in w.lists.chains
    ensures var y := Begun(w, c, timed, armed, deadline); Lookups(y) && Sockets(y) && Timers(y) && Requests(y)
  {
    hide ListsOk, Linked, Logged, Lookups, Sockets, Timers, OnLists, Enlink, Requests;
    var y, r := Begun(w, c, timed, armed, deadline), w.nextId;
    Fresh(w);
    SocketsChanged(w, y, r);
    TimersChanged(w, y, r);
    LookupsChanged(w, y, r);
    BegunOnLists(w, c, timed, armed, deadline);
    RequestsChanged(w, y, r);
  }

  lemma NotTold(w: World, r: Id)
    requires Logged(w) && r >= w.nextId
    ensures !Ended(w.log, r) && forall k :: !Told(w.log, r, k)
  {
    hide LogOk;
  }

  lemma BegunKeeps(w: World, c: Id, timed: bool, armed: bool, deadline: bool)
    requires Inv(w) && c in w.lists.heads && c in w.lists.chains
    ensures Inv(Begun(w, c, timed, armed, deadline)) && Listed(Begun(w, c, timed, armed, deadline), w.nextId)
  {
    hide ListsOk, Logged, Lookups, Sockets, Timers, OnLists, Requests, Enlink;
    var y := Begun(w, c, timed, armed, deadline);
    BegunOnLists(w, c, timed, armed, deadline);
    BegunRest(w, c, timed, armed, deadline);
    NotTold(w, w.nextId);
    Fresh(w);
    LoggedChanged(w, y, w.nextId);
  }

  /** A lookup has come back to a request that still wants it; until an attempt is made the request is busy. */
  function Arrived(w: World, r: Id): World
  {
    w.(lookups := w.lookups - {r}, pendingResolves := w.pendingResolves - 1, busy := w.busy + {r})
  }

  lemma ArrivedKeeps(w: World, r: Id)
    requires Inv(w) && Listed(w, r) && r in w.lookups && r !in w.busy
    ensures Inv(Arrived(w, r)) && w.requests[r].phase.Resolving? && !Ended(w.log, r)
  {
    hide ListsOk, LogOk, Ended, Told, Logged, Sockets, Timers, Requests, OnLists;
    var y := Arrived(w, r);
    LookupsChanged(w, y, r);
    OnListsChanged(w, y, r);
    SameSockets(w, y);
    LoggedPhase(w, r);
    LoggedChanged(w, y, r);
    RequestHeld(w, r);
    RequestsChanged(w, y, r);
  }

  lemma RequestHeld(w: World, r: Id)
    requires Requests(w) && r in w.requests
    ensures RequestOk(w.requests[r], true) && r < w.nextId
    ensures (forall s: Id :: s in w.semi ==> s < w.nextId) && (forall t: Id :: t in w.timers ==> t < w.nextId)
  {
    BusyOk();
  }

  /** A lookup has come back to a request nobody wants any more. */
  function Reaped(w: World, r: Id): World
  {
    w.(requests := w.requests - {r}, lookups := w.lookups - {r}, pendingResolves := w.pendingResolves - 1)
  }

  lemma ReapedKeeps(w: World, r: Id)
    requires Inv(w) && r in w.requests && w.requests[r].phase.Cancelled? && r in w.lookups
    ensures Inv(Reaped(w, r))
  {
    hide ListsOk, LogOk, Ended, Told, RequestOk, Sockets, Timers, Requests, OnLists;
    CancelledHasNothing(w, r);
    var y := Reaped(w, r);
    SocketsAfter(w, y, r);
    TimersAfter(w, y, r);
    RequestsAfter(w, y, r);
    ReapedOnLists(w, r);
  }

  lemma ReapedOnLists(w: World, r: Id)
    requires OnLists(w, {}) && r in w.requests && w.requests[r].phase.Cancelled?
    ensures OnLists(Reaped(w, r), {})
  {
    hide ListsOk;
    var y := Reaped(w, r);
    assert forall u: Id :: Listed(y, u) <==> Listed(w, u);
  }

  lemma CancelledHasNothing(w: World, r: Id)
    requires Requests(w) && r in w.requests && w.requests[r].phase.Cancelled?
    ensures w.requests[r].attempt.None? && w.requests[r].timer.None? && r !in w.busy
  {
  }

  /** The addresses are there, and none has been tried; or one has failed and the next is due. */
  function Moved(w: World, r: Id, results: seq<Addr>, cursor: nat): World
    requires r in w.requests
  {
    w.(requests := w.requests[r :=
      w.requests[r].(phase := Connecting, attempt := None, results := results, cursor := cursor)],
       semi := SemiWithout(w.semi, w.requests[r]), busy := w.busy + {r})
  }

  lemma MovedKeeps(w: World, r: Id, results: seq<Addr>, cursor: nat)
    requires Inv(w) && Listed(w, r) && r !in w.lookups && !Ended(w.log, r)
    requires w.requests[r].phase.Resolving? || w.requests[r].phase.Connecting?
    ensures Inv(Moved(w, r, results, cursor))
  {
    hide ListsOk, Linked, Delink, Enlink, LogOk, Ended, Told, Logged, Lookups, Timers, OnLists, Sockets, Requests;
    Bounds(w, r);
    var y := Moved(w, r, results, cursor);
    SocketsOwn(w, r);
    SocketsChanged(w, y, r);
    LookupsChanged(w, y, r);
    OnListsChanged(w, y, r);
    LoggedPhase(w, r);
    LoggedChanged(w, y, r);
    TimersHeld(w, r);
    TimersChanged(w, y, r);
    RequestsChanged(w, y, r);
  }

  lemma LoggedPhase(w: World, r: Id)
    requires Logged(w) && Listed(w, r)
    ensures Told(w.log, r, Opened) <==> w.requests[r].phase.Handshaking? || w.requests[r].phase.Done?
    ensures Told(w.log, r, TimedOut) <==> w.requests[r].phase.Done?
    ensures r !in w.busy ==> !Ended(w.log, r)
  {
    hide LogOk, Ended, Told;
  }

  lemma TimersHeld(w: World, r: Id)
    requires Timers(w) && r in w.requests
    ensures forall t: Id :: t in w.timers && w.timers[t].request == r ==> w.requests[r].timer == Some(t)
    ensures w.requests[r].timer.Some? ==>
              w.requests[r].timer.value in w.timers && w.timers[w.requests[r].timer.value].request == r
  {
  }

  /** An attempt socket for the address at the cursor. */
  function Attempted(w: World, r: Id): World
    requires r in w.requests
  {
    var s := w.nextId;
    w.(requests := w.requests[r := w.requests[r].(attempt := Some(s))], semi := w.semi[s := r], nextId :=
      s + 1, busy := w.busy - {r})
  }

  lemma AttemptedKeeps(w: World, r: Id)
    requires Inv(w) && Listed(w, r) && r !in w.lookups && r in w.busy && !Ended(w.log, r)
    requires w.requests[r].phase.Connecting? && w.requests[r].attempt.None?
    requires w.requests[r].cursor < |w.requests[r].results|
    ensures Inv(Attempted(w, r))
  {
    hide ListsOk, Linked, Delink, Enlink, LogOk, Ended, Told, Logged, Lookups, Timers, OnLists, Sockets, Requests;
    Bounds(w, r);
    var y := Attempted(w, r);
    Fresh(w);
    SocketsOwn(w, r);
    SocketsChanged(w, y, r);
    LookupsChanged(w, y, r);
    OnListsChanged(w, y, r);
    LoggedPhase(w, r);
    LoggedChanged(w, y, r);
    TimersHeld(w, r);
    TimersChanged(w, y, r);
    RequestsChanged(w, y, r);
  }

  /** The attempt has become a connection: the timer is set again for the handshake, or closed. */
  function Promoted(w: World, r: Id): World
    requires r in w.requests
  {
    var q := w.requests[r];
    var keep := q.timer.Some? && q.deadline;
    w.(requests := w.requests[r :=
      q.(phase := Handshaking, results := [], cursor := 0, timer := if keep then q.timer else None)],
       semi := SemiWithout(w.semi, w.requests[r]),
       timers := if keep then w.timers[q.timer.value := Timer(r, true)] else TimersWithout(w.timers, w.requests[r]),
       log := w.log + [Event(r, Opened)])
  }

  lemma PromotedKeeps(w: World, r: Id)
    requires Inv(w) && Listed(w, r) && r !in w.busy && w.requests[r].phase.Connecting?
    ensures Inv(Promoted(w, r))
  {
    hide ListsOk, Linked, Delink, Enlink, LogOk, Ended, Told, Logged, Lookups, Timers, OnLists, Sockets, Requests;
    Bounds(w, r);
    var y := Promoted(w, r);
    NoLookup(w, r);
    SocketsOwn(w, r);
    SocketsChanged(w, y, r);
    LookupsChanged(w, y, r);
    OnListsChanged(w, y, r);
    LoggedMore(w, y, r, Opened);
    TimersHeld(w, r);
    TimersChanged(w, y, r);
    RequestsChanged(w, y, r);
  }

  lemma NoLookup(w: World, r: Id)
    requires Lookups(w) && r in w.requests && !w.requests[r].phase.Resolving? && !w.requests[r].phase.Cancelled?
    ensures r !in w.lookups
  {
  }

  /** The deadline of the handshake has passed. */
  function Expired(w: World, r: Id): World
    requires r in w.requests && w.requests[r].timer.Some?
  {
    w.(requests := w.requests[r := w.requests[r].(phase := Done)],
       timers := w.timers[w.requests[r].timer.value := Timer(r, false)], log := w.log + [Event(r, TimedOut)])
  }

  lemma ExpiredKeeps(w: World, r: Id)
    requires Inv(w) && Listed(w, r) && r !in w.busy && w.requests[r].phase.Handshaking? && w.requests[r].timer.Some?
    ensures Inv(Expired(w, r))
  {
    hide ListsOk, Linked, Delink, Enlink, LogOk, Ended, Told, Logged, Lookups, Timers, OnLists, Sockets, Requests;
    Bounds(w, r);
    var y := Expired(w, r);
    NoLookup(w, r);
    SocketsOwn(w, r);
    SocketsChanged(w, y, r);
    LookupsChanged(w, y, r);
    OnListsChanged(w, y, r);
    LoggedMore(w, y, r, TimedOut);
    TimersHeld(w, r);
    TimersChanged(w, y, r);
    RequestsChanged(w, y, r);
  }

  /** The socket of a request has moved to another context. */
  ghost function Rebound(w: World, r: Id, s: Id, c: Id): World
    requires Inv(w) && Listed(w, r) && c in w.lists.heads
  {
    var q := w.requests[r];
    ReboundLists(w, r, c);
    w.(requests := w.requests[r := q.(attempt := Some(s), context := Some(c))], lists :=
      Enlink(Delink(w.lists, q.context.value, r), c, r))
  }

  lemma ReboundLists(w: World, r: Id, c: Id)
    requires Inv(w) && Listed(w, r) && c in w.lists.heads
    ensures w.requests[r].context.Some? && w.requests[r].context.value in w.lists.heads
    ensures w.requests[r].context.value in w.lists.chains && r in w.lists.chains[w.requests[r].context.value]
    ensures Linked(LinksOf(w.lists, w.requests[r].context.value))
    ensures var d := Delink(w.lists, w.requests[r].context.value, r);
            && c in d.heads && c in d.chains && ListsOk(d) && d.heads.Keys == w.lists.heads.Keys
            && d.chains.Keys == w.lists.chains.Keys
            && (forall e: Id, x: Id :: e in d.chains ==> (x in d.chains[e] <==> x in w.lists.chains[e] && x != r))
  {
    hide Linked, Delink, Lookups, Sockets, Timers, Requests, Logged;
    TornLists(w, r);
    ListsParts(w);
  }

  lemma ReboundOnLists(w: World, r: Id, s: Id, c: Id)
    requires Inv(w) && Listed(w, r) && c in w.lists.heads && r !in w.busy
    ensures OnLists(Rebound(w, r, s, c), {}) && Rebound(w, r, s, c).lists.heads.Keys == w.lists.heads.Keys
  {
    hide Linked, Delink, ListsOk, Enlink, Lookups, Sockets, Timers, Requests, Logged, OnLists;
    ReboundLists(w, r, c);
    var d := Delink(w.lists, w.requests[r].context.value, r);
    EnlinkKeeps(d, c, r);
    EnlinkKeys(d, c, r);
    MovedOnLists(w, Rebound(w, r, s, c), r, c);
  }

  /** One request has moved to the list of another context. */
  lemma MovedOnLists(w: World, y: World, r: Id, c: Id)
    requires OnLists(w, {}) && Listed(w, r) && r in y.requests && ListsOk(y.lists)
    requires y.requests == w.requests[r := y.requests[r]] && y.requests[r].phase == w.requests[r].phase
    requires y.requests[r].context == Some(c) && y.busy == w.busy
    requires c in y.lists.chains && y.lists.chains.Keys == w.lists.chains.Keys
    requires forall e: Id, x: Id :: e in y.lists.chains ==>
               (x in y.lists.chains[e] <==> (x in w.lists.chains[e] && x != r) || (e == c && x == r))
    ensures OnLists(y, {})
  {
    hide ListsOk;
  }

  lemma EnlinkKeys(l: Lists, c: Id, r: Id)
    requires c in l.heads && c in l.chains
    ensures Enlink(l, c, r).heads.Keys == l.heads.Keys && Enlink(l, c, r).chains.Keys == l.chains.Keys
  {
  }

  lemma ReboundKeeps(w: World, r: Id, s: Id, c: Id)
    requires Inv(w) && Listed(w, r) && c in w.lists.heads && r !in w.busy
    requires (w.requests[r].phase.Handshaking? || w.requests[r].phase.Done?)
    ensures Inv(Rebound(w, r, s, c))
  {
    hide ListsOk, Linked, Delink, Enlink, LogOk, Ended, Told, Logged, Lookups, Timers, OnLists, Sockets, Requests;
    Bounds(w, r);
    var y := Rebound(w, r, s, c);
    ReboundOnLists(w, r, s, c);
    NoLookup(w, r);
    SocketsOwn(w, r);
    SocketsChanged(w, y, r);
    LookupsChanged(w, y, r);
    LoggedPhase(w, r);
    LoggedChanged(w, y, r);
    TimersHeld(w, r);
    TimersPhase(w, r);
    TimersChanged(w, y, r);
    RequestsChanged(w, y, r);
  }

  lemma Bounds(w: World, r: Id)
    requires Requests(w) && r in w.requests
    ensures r < w.nextId && (forall s: Id :: s in w.semi ==> s < w.nextId)
    ensures (forall t: Id :: t in w.timers ==> t < w.nextId)
    ensures RequestOk(w.requests[r], r in w.busy) && (forall r: Id :: r in w.busy ==> Listed(w, r))
  {
    hide RequestOk;
  }

  lemma SocketsOwn(w: World, r: Id)
    requires Sockets(w) && r in w.requests
    ensures w.requests[r].phase.Connecting? && w.requests[r].attempt.Some? ==>
              w.requests[r].attempt.value in w.semi && w.semi[w.requests[r].attempt.value] == r
    ensures forall s: Id :: s in w.semi && w.semi[s] == r ==>
              w.requests[r].phase.Connecting? && w.requests[r].attempt == Some(s)
  {
  }

  lemma TimersPhase(w: World, r: Id)
    requires Timers(w) && r in w.requests
    ensures forall t: Id :: t in w.timers && w.timers[t].request == r && w.timers[t].armed ==>
              !w.requests[r].phase.Done?
  {
  }

  function ContextMade(w: World): World
  {
    w.(lists := w.lists.(heads := w.lists.heads[w.nextId := None], chains := w.lists.chains[w.nextId := []]),
      nextId := w.nextId + 1)
  }

  /** A change of the lists alone. */
  lemma SameButLists(w: World, y: World)
    requires y == w.(lists := y.lists, nextId := y.nextId) && w.nextId <= y.nextId
    requires (forall c: Id :: c in y.lists.heads ==> c < y.nextId)
    ensures Lookups(w) ==> Lookups(y)
    ensures Sockets(w) ==> Sockets(y)
    ensures Timers(w) ==> Timers(y)
    ensures Requests(w) ==> Requests(y)
    ensures Logged(w) ==> Logged(y)
  {
    hide LogOk, Ended, Told, RequestOk;
  }

  lemma ContextMadeLists(w: World)
    requires OnLists(w, {}) && w.nextId !in w.lists.heads
    ensures OnLists(ContextMade(w), {})
  {
    hide Linked;
    var y := ContextMade(w);
    forall c | c in y.lists.heads
      ensures Linked(LinksOf(y.lists, c))
    {
      if c == w.nextId { EmptyLinked(LinksOf(y.lists, c)); }
        else { LinkedFrame(LinksOf(w.lists, c), LinksOf(y.lists, c)); }
    }
  }

  lemma ContextMadeKeeps(w: World)
    requires Inv(w)
    ensures Inv(ContextMade(w))
  {
    hide OnLists, Lookups, Sockets, Timers, Logged;
    Fresh(w);
    ContextMadeLists(w);
    SameButLists(w, ContextMade(w));
  }

  lemma EmptyLinked(l: Links)
    requires l.chain == [] && l.head == None
    ensures Linked(l)
  {
  }

  /** The list of a context that is being freed; its requests are yet to be orphaned. */
  function ContextGone(w: World, c: Id): World
    requires c in w.lists.heads
  {
    w.(lists := w.lists.(heads := w.lists.heads - {c}, chains := w.lists.chains - {c}))
  }

  function Members(chain: seq<Id>): set<Id>
  {
    set r | r in chain
  }

  lemma ContextGoneLists(w: World, c: Id)
    requires OnLists(w, {}) && c in w.lists.heads && c in w.lists.chains
    requires (forall u :: u in w.busy ==> u !in w.lists.chains[c])
    ensures OnLists(ContextGone(w, c), Members(w.lists.chains[c]))
  {
    hide Linked;
    var y := ContextGone(w, c);
    forall d | d in y.lists.heads
      ensures Linked(LinksOf(y.lists, d))
    {
      LinkedFrame(LinksOf(w.lists, d), LinksOf(y.lists, d));
    }
    var loose := Members(w.lists.chains[c]);
    assert ListsOk(y.lists);
    forall u: Id | u in loose
      ensures Listed(y, u) && u !in y.busy
    {
      assert u in w.lists.chains[c];
      assert Listed(w, u);
    }
    forall d: Id, u: Id | d in y.lists.chains && u in y.lists.chains[d]
      ensures Listed(y, u) && y.requests[u].context == Some(d) && u !in loose
    {
      assert u in w.lists.chains[d];
      assert Listed(w, u) && w.requests[u].context == Some(d);
    }
  }

  lemma ContextGoneKeeps(w: World, c: Id)
    requires Inv(w) && c in w.lists.heads && c in w.lists.chains
    requires (forall u :: u in w.busy ==> u !in w.lists.chains[c])
    ensures InvBut(ContextGone(w, c), Members(w.lists.chains[c]))
  {
    hide OnLists, Lookups, Sockets, Timers, Logged;
    ContextGoneLists(w, c);
    SameButLists(w, ContextGone(w, c));
  }
}
