/** The connect requests of connect.c: resolver, address fallback, timer, cancel, re-binding, release and the freeing of
  * a context, in any order.  What the kernel and the resolver answer are arguments; what an owner does inside a
  * callback is the next entry of `script`. */
module ConnectRequests {
  import opened Bytes
  import opened IntrusiveList
  import opened ConnectState

  datatype Action =
    | DoConnect(context: Id, timeout: bool, handshakeTimeout: bool, started: bool)
    | DoCancel(request: Id)
    | DoRelease(request: Id)
    | DoRebind(request: Id, socket: Id, context: Id)
    | DoCreateContext
    | DoFreeContext(context: Id)

  /** What owners and the loop bring about: a call, a lookup that comes back, an attempt that becomes writable, a
    * timer. */
  datatype Input =
    | Calls(action: Action)
    | LooksUp(request: Id, status: int, results: seq<Addr>, sockets: seq<Option<int>>)
    | Writable(socket: Id, err: int, sockets: seq<Option<int>>)
    | Fires(timer: Id)

  const ECONNREFUSED: int := 111
  const ETIMEDOUT: int := 110

  /** What an owner may do with a request: one it has not been told the end of, nor ended itself, and that is not the
    * one it is being called about. */
  ghost predicate Owned(w: World, r: Id)
  {
    Listed(w, r) && r !in w.busy
  }

  /** What is left alone of the requests that are being failed while their owners are called. */
  ghost predicate Spared(a: World, b: World)
  {
    && b.busy == a.busy && a.log <= b.log
    && forall r: Id :: r in a.busy ==>
         && (r in b.requests <==> r in a.requests) && (r in a.requests ==> b.requests[r] == a.requests[r])
         && (r in b.lookups <==> r in a.lookups)
  }

  lemma SparedTrans(a: World, b: World, c: World)
    requires Spared(a, b) && Spared(b, c)
    ensures Spared(a, c)
  {
  }

  class Connector {
    var requests: map<Id, Request>
    var heads: map<Id, Option<Id>>
    var next: map<Id, Option<Id>>
    var prev: map<Id, Option<Id>>
    /** Attempt sockets, with the request in their first octets. */
    var semi: map<Id, Id>
    var timers: map<Id, Timer>
    var pendingResolves: int
    var log: seq<Event>
    var nextId: nat
    var script: seq<seq<Action>>
    /** The requests whose owners are being called about their failure. */
    var busy: set<Id>
    ghost var chains: map<Id, seq<Id>>
    ghost var lookups: set<Id>

    ghost function AllLists(): Lists
      reads this`heads, this`next, this`prev, this`chains
    {
      Lists(heads, next, prev, chains)
    }

    ghost function Now(): World
      reads this
    {
      World(requests, AllLists(), semi, timers, lookups, pendingResolves, log, nextId, busy)
    }

    constructor (script: seq<seq<Action>>)
      ensures Inv(Now()) && busy == {} && log == [] && requests == map[] && this.script == script
    {
      requests, heads, next, prev, chains := map[], map[], map[], map[], map[];
      semi, timers, lookups, pendingResolves, log, nextId, busy := map[], map[], {}, 0, [], 0, {};
      this.script := script;
    }

    // -------------------------------------------------------------- the helpers of connect.c

    method LinkRequest(c: Id, r: Id)
      requires c in heads && c in chains
      modifies this`heads, this`next, this`prev, this`chains
      ensures AllLists() == Enlink(old(AllLists()), c, r)
    {
      next := next[r := heads[c]];
      prev := prev[r := None];
      if heads[c].Some? {
        prev := prev[heads[c].value := Some(r)];
      }
      heads := heads[c := Some(r)];
      chains := chains[c := [r] + chains[c]];
    }

    method UnlinkRequest(c: Id, r: Id)
      requires var l := AllLists(); c in l.heads && c in l.chains && r in l.chains[c] && Linked(LinksOf(l, c))
      modifies this`heads, this`next, this`prev, this`chains
      ensures AllLists() == Delink(old(AllLists()), c, r)
    {
      ghost var l, p := LinksOf(AllLists(), c), Position(chains[c], r);
      assert NodeLinked(l, p);
      if p > 0 { assert NodeLinked(l, p - 1); }
      if p + 1 < |l.chain| { assert NodeLinked(l, p + 1); }
      var before, after := prev[r], next[r];
      if before.Some? {
        next := next[before.value := after];
      } else if heads[c] == Some(r) {
        heads := heads[c := after];
      }
      if after.Some? {
        prev := prev[after.value := before];
      }
      prev, next := prev[r := None], next[r := None];
      chains := chains[c := Without(chains[c], p)];
    }

    method CloseTimer(r: Id)
      requires r in requests
      modifies this`timers
      ensures timers == old(TimersWithout(timers, requests[r]))
    {
      if requests[r].timer.Some? {
        timers := timers - {requests[r].timer.value};
      }
    }

    /** `us_socket_close_connecting`, for an attempt that is still connecting. */
    method CloseAttempt(r: Id)
      requires r in requests
      modifies this`semi
      ensures semi == old(SemiWithout(semi, requests[r]))
    {
      var q := requests[r];
      if q.phase.Connecting? && q.attempt.Some? {
        semi := semi - {q.attempt.value};
      }
    }

    /** What every way to the end has in common: timer, attempt, results and place on the list are given up, then the
      * request is freed. */
    method TearDown(r: Id)
      requires Inv(Now()) && Listed(Now(), r) && r !in lookups
      modifies this`requests, this`heads, this`next, this`prev, this`chains, this`semi, this`timers, this`busy
      ensures Now() == Torn(old(Now()), r) && Inv(Now())
    {
      hide Inv, InvBut, AllLists, SemiWithout, TimersWithout, Linked, Delink;
      ghost var w := Now();
      TornKeeps(w, r);
      Places(w, r);
      CloseTimer(r);
      CloseAttempt(r);
      UnlinkRequest(requests[r].context.value, r);
      requests := requests - {r};
      busy := busy - {r};
    }

    /** The same while the lookup is still out: the request stays until it comes back. */
    method Mute(r: Id)
      requires Inv(Now()) && Listed(Now(), r) && r in lookups && r in busy && requests[r].phase.Resolving?
      modifies this`requests, this`heads, this`next, this`prev, this`chains, this`timers, this`busy
      ensures Now() == Muted(old(Now()), r) && Inv(Now())
    {
      hide Inv, InvBut, AllLists, TimersWithout, Linked, Delink;
      ghost var w := Now();
      MutedKeeps(w, r);
      Places(w, r);
      CloseTimer(r);
      UnlinkRequest(requests[r].context.value, r);
      requests := requests[r := requests[r].(phase := Cancelled, timer := None)];
      busy := busy - {r};
    }

    method Record(r: Id, kind: Kind)
      requires Inv(Now()) && Listed(Now(), r) && !Ended(log, r) && kind.Final()
      requires kind.Failed? ==> !requests[r].phase.Handshaking? && !requests[r].phase.Done?
      modifies this`log, this`busy
      ensures Now() == Say(old(Now()), r, kind) && Inv(Now()) && Ended(log, r)
    {
      hide Inv, InvBut, AllLists, Ended;
      SayKeeps(Now(), r, kind);
      log := log + [Event(r, kind)];
      busy := busy + {r};
    }

    // -------------------------------------------------------------- what an owner may call

    /** `us_internal_socket_context_connect`, with arguments that are in order.  When the resolver cannot be started
      * the request and its timer are taken back before anyone sees them. */
    method Connect(c: Id, timeout: bool, handshakeTimeout: bool, started: bool) returns (r: Option<Id>)
      requires Inv(Now()) && c in AllLists().heads && c in AllLists().chains
      modifies this
      ensures Inv(Now()) && Spared(old(Now()), Now()) && script == old(script)
      ensures started ==>
                r == Some(old(nextId))
                && Now() == Begun(old(Now()), c, timeout || handshakeTimeout, timeout, handshakeTimeout)
      ensures !started ==> r == None && Now() == old(Now())
    {
      hide Inv, AllLists, Begun, Spared;
      ghost var w := Now();
      SparedSelf(w);
      if !started {
        return None;
      }
      BegunKeeps(w, c, timeout || handshakeTimeout, timeout, handshakeTimeout);
      BegunSpares(w, c, timeout || handshakeTimeout, timeout, handshakeTimeout);
      r := Some(nextId);
      Begin(c, timeout, handshakeTimeout);
    }

    method Begin(c: Id, timeout: bool, handshakeTimeout: bool)
      requires c in AllLists().heads && c in AllLists().chains
      modifies this`requests, this`heads, this`next, this`prev, this`chains, this`timers, this`lookups,
                 this`pendingResolves, this`nextId
      ensures Now() == Begun(old(Now()), c, timeout || handshakeTimeout, timeout, handshakeTimeout)
    {
      hide AllLists, Enlink;
      var id, t := nextId, nextId + 1;
      nextId := nextId + 2;
      var timer := None;
      if timeout || handshakeTimeout {
        timers := timers[t := Timer(id, timeout)];
        timer := Some(t);
      }
      requests := requests[id := Request(Some(c), Resolving, None, timer, [], 0, handshakeTimeout)];
      LinkRequestTo(c, id);
      lookups := lookups + {id};
      pendingResolves := pendingResolves + 1;
    }

    /** `us_connect_request_cancel`: nothing more is heard of the request. */
    method Cancel(r: Id)
      requires Inv(Now()) && Owned(Now(), r)
      modifies this
      ensures Inv(Now()) && Now() == Finished(old(Now()), r, WasCancelled) && Spared(old(Now()), Now())
      ensures script == old(script)
    {
      hide Inv, Finished, Spared;
      FinishedBy(Now(), r, WasCancelled);
      Finish(r, WasCancelled);
    }

    /** `us_connect_request_release`, by the owner of the socket. */
    method Release(r: Id)
      requires Inv(Now()) && Owned(Now(), r) && !requests[r].phase.Resolving?
      modifies this
      ensures Inv(Now()) && Now() == Finished(old(Now()), r, WasReleased) && Spared(old(Now()), Now())
      ensures script == old(script)
    {
      hide Inv, Finished, Spared;
      FinishedBy(Now(), r, WasReleased);
      Finish(r, WasReleased);
    }

    method Finish(r: Id, kind: Kind)
      requires Inv(Now()) && Owned(Now(), r) && (kind == WasCancelled || kind == WasReleased)
      modifies this
      ensures Now() == Finished(old(Now()), r, kind) && script == old(script)
    {
      hide Inv, Torn, Muted;
      FinishedBy(Now(), r, kind);
      var resolving := requests[r].phase.Resolving?;
      Record(r, kind);
      if resolving {
        Mute(r);
      } else {
        TearDown(r);
      }
    }

    /** `us_connect_request_rebind`: the socket, and with it the request, has moved to another context. */
    method Rebind(r: Id, s: Id, c: Id)
      requires Inv(Now()) && Owned(Now(), r) && c in AllLists().heads
      requires (requests[r].phase.Handshaking? || requests[r].phase.Done?)
      modifies this
      ensures Inv(Now()) && Now() == Rebound(old(Now()), r, s, c) && Spared(old(Now()), Now()) && script == old(script)
    {
      hide Inv, AllLists, Enlink, Delink, Linked;
      ghost var w := Now();
      ReboundKeeps(w, r, s, c);
      ReboundLists(w, r, c);
      Places(w, r);
      UnlinkRequest(requests[r].context.value, r);
      LinkRequestTo(c, r);
      requests := requests[r := requests[r].(attempt := Some(s), context := Some(c))];
    }

    method LinkRequestTo(c: Id, r: Id)
      requires c in AllLists().heads && c in AllLists().chains
      modifies this`heads, this`next, this`prev, this`chains
      ensures AllLists() == Enlink(old(AllLists()), c, r)
    {
      LinkRequest(c, r);
    }

    method CreateContext() returns (c: Id)
      requires Inv(Now())
      modifies this
      ensures Inv(Now()) && c == old(nextId) && Now() == ContextMade(old(Now())) && Spared(old(Now()), Now())
      ensures script == old(script)
    {
      hide Inv;
      ContextMadeKeeps(Now());
      c := nextId;
      heads, chains := heads[c := None], chains[c := []];
      nextId := nextId + 1;
    }

    /** `us_socket_context_free`: every request of the context is orphaned; one whose lookup is still out stays, with no
      * context, until the lookup comes back. */
    method FreeContext(c: Id)
      requires Inv(Now()) && c in heads && forall r :: r in busy ==> r in requests && requests[r].context != Some(c)
      modifies this
      ensures Inv(Now()) && Spared(old(Now()), Now()) && script == old(script) && c !in heads
      ensures OrphanedAll(old(Now()), Now(), c)
    {
      hide Inv, InvBut, Spared, OrphanedAll, Orphaned, Orphaning;
      ghost var w := Now();
      FreeingStarts(w, c);
      var r := heads[c];
      ghost var chain, k := chains[c], 0;
      heads, chains := heads - {c}, chains - {c};
      assert Now() == GoneWorld(w, c);
      while r.Some?
        invariant Orphaning(w, Now(), c, chain, k, r) && k <= |chain| && script == old(script)
        decreases |chain| - k
      {
        ghost var y := Now();
        OrphaningStep(w, y, c, chain, k, r);
        var following := next[r.value];
        Orphan(r.value);
        r, k := following, k + 1;
      }
      OrphaningEnds(w, Now(), c, chain, k);
    }

    /** `us_internal_connect_request_orphan` */
    method Orphan(r: Id)
      requires r in requests
      modifies this`requests, this`semi, this`timers, this`log
      ensures Now() == Orphaned(old(Now()), r)
    {
      hide AllLists, SemiWithout, TimersWithout;
      var q := requests[r];
      log := log + [Event(r, WasOrphaned)];
      CloseTimer(r);
      if q.phase.Resolving? {
        requests := requests[r := q.(phase := Cancelled, timer := None, context := None)];
      } else {
        CloseAttempt(r);
        requests := requests - {r};
      }
    }

    // -------------------------------------------------------------- callbacks

    /** What the owner does inside a callback, as far as it may. */
    method Callback()
      requires Inv(Now())
      modifies this
      ensures Inv(Now()) && Spared(old(Now()), Now())
    {
      hide Inv, Spared, AllLists;
      ghost var w := Now();
      SparedSelf(w);
      if |script| > 0 {
        var actions := script[0];
        script := script[1..];
        for i := 0 to |actions|
          invariant Inv(Now()) && Spared(w, Now())
        {
          ghost var y := Now();
          Act(actions[i]);
          SparedTrans(w, y, Now());
        }
      }
    }

    method Act(action: Action)
      requires Inv(Now())
      modifies this
      ensures Inv(Now()) && Spared(old(Now()), Now())
    {
      hide Inv, Spared, OrphanedAll, Finished, Rebound, Begun, ContextMade;
      SparedSelf(Now());
      HeadsAndChains(Now());
      match action {
        case DoConnect(c, timeout, handshakeTimeout, started) =>
          if c in heads {
            var _ := Connect(c, timeout, handshakeTimeout, started);
          }
        case DoCancel(r) =>
          if r in requests && !requests[r].phase.Cancelled? && r !in busy {
            Cancel(r);
          }
        case DoRelease(r) =>
          if r in requests && !requests[r].phase.Cancelled? && r !in busy && !requests[r].phase.Resolving? {
            Release(r);
          }
        case DoRebind(r, s, c) =>
          if r in requests && r !in busy && (requests[r].phase.Handshaking? || requests[r].phase.Done?) && c in heads {
            Rebind(r, s, c);
          }
        case DoCreateContext =>
          var _ := CreateContext();
        case DoFreeContext(c) =>
          if c in heads && forall r :: r in busy ==> r in requests && requests[r].context != Some(c) {
            FreeContext(c);
          }
      }
    }

    // -------------------------------------------------------------- failures

    /** `connect_fail`: the owner is told, then the request is freed. */
    method ConnectFail(r: Id, code: int)
      requires Inv(Now()) && Listed(Now(), r) && r !in lookups && !Ended(log, r)
      requires requests[r].phase.Resolving? || requests[r].phase.Connecting?
      modifies this
      ensures Inv(Now()) && r !in requests && busy == old(busy) - {r} && Told(log, r, Failed(code))
    {
      hide Inv, Spared, AllLists, Ended, Torn, Told;
      Record(r, Failed(code));
      ghost var w := Now();
      assert w.log[|w.log| - 1] == Event(r, Failed(code));
      Callback();
      StillBusy(w, Now(), r);
      SaidStays(w, Now(), Event(r, Failed(code)));
      TornGone(Now(), r);
      TearDown(r);
    }

    /** `try_next`: the addresses from the cursor on are tried until a socket can be made for one.  `sockets` are the
      * outcomes: an error number, 0 if there is none, or no error. */
    method TryNext(r: Id, failCode: int, sockets: seq<Option<int>>)
      requires Inv(Now()) && Listed(Now(), r) && r !in lookups && !Ended(log, r) && r in busy
      requires requests[r].phase.Connecting? && requests[r].attempt.None?
      modifies this
      ensures Inv(Now()) && busy == old(busy) - {r}
      ensures var q := old(requests[r]);
              var tried := Tries(|q.results| - q.cursor, sockets);
              if q.cursor + tried < |q.results| then
                r in requests && requests[r] == q.(cursor := q.cursor + tried, attempt := Some(old(nextId)))
              else r !in requests && Told(log, r, Failed(LastError(failCode, sockets, tried)))
    {
      hide Inv, AllLists, Ended, Moved, Attempted, Spared, Told;
      ghost var w, n := Now(), |requests[r].results| - requests[r].cursor;
      var code, i := failCode, 0;
      while requests[r].cursor < |requests[r].results| && i < |sockets| && sockets[i].Some?
        invariant Inv(Now()) && Listed(Now(), r) && r !in lookups && !Ended(log, r) && busy == w.busy
        invariant nextId == w.nextId
        invariant i <= |sockets| && i <= Tries(n, sockets) && code == LastError(failCode, sockets, i)
        invariant requests[r] == w.requests[r].(cursor := w.requests[r].cursor + i)
        decreases |requests[r].results| - requests[r].cursor
      {
        if sockets[i].value != 0 {
          code := sockets[i].value;
        }
        TriesMore(n, sockets, i);
        MovedKeeps(Now(), r, requests[r].results, requests[r].cursor + 1);
        Advance(r, requests[r].cursor + 1);
        i := i + 1;
      }
      TriesEnd(n, sockets, i);
      if requests[r].cursor < |requests[r].results| {
        AttemptedKeeps(Now(), r);
        MakeAttempt(r);
      } else {
        ConnectFail(r, code);
      }
    }

    method Advance(r: Id, cursor: nat)
      requires r in requests && r in busy && requests[r].phase.Connecting? && requests[r].attempt.None?
      modifies this`requests
      ensures Now() == Moved(old(Now()), r, old(requests[r].results), cursor)
      ensures r in requests && requests[r] == old(requests[r]).(cursor := cursor)
    {
      hide AllLists;
      requests := requests[r := requests[r].(cursor := cursor)];
      assert busy + {r} == busy;
    }

    method MakeAttempt(r: Id)
      requires r in requests
      modifies this`requests, this`semi, this`nextId, this`busy
      ensures Now() == Attempted(old(Now()), r)
      ensures r in requests && requests[r] == old(requests[r]).(attempt := Some(old(nextId))) && busy == old(busy) - {r}
    {
      hide AllLists;
      var s := nextId;
      nextId := nextId + 1;
      semi := semi[s := r];
      requests := requests[r := requests[r].(attempt := Some(s))];
      busy := busy - {r};
    }

    // -------------------------------------------------------------- events of the loop

    /** `connect_gai_cb`: a lookup has come back, with `status` below zero for a failure.  An orphaned or cancelled
      * request is only freed. */
    method LookupDone(r: Id, status: int, results: seq<Addr>, sockets: seq<Option<int>>)
      requires Inv(Now()) && r in lookups && busy == {}
      modifies this
      ensures Inv(Now()) && busy == {}
      ensures r in old(requests)
      ensures old(requests[r].phase.Cancelled?) ==> r !in requests && log == old(log)
      ensures old(requests[r].phase.Resolving?) && status < 0 ==> r !in requests && Told(log, r, Failed(status))
      ensures old(requests[r].phase.Resolving?) && status >= 0 ==>
                var tried := Tries(|results|, sockets);
                if tried < |results| then
                  r in requests && requests[r].phase.Connecting? && requests[r].results == results
                    && requests[r].cursor == tried
                else r !in requests && Told(log, r, Failed(LastError(ECONNREFUSED, sockets, tried)))
    {
      hide Inv, AllLists, Ended, Told, Moved, Arrived, Reaped;
      ghost var w := Now();
      LookupParts(w, r);
      if requests[r].phase.Cancelled? {
        ReapedKeeps(w, r);
        Reap(r);
        return;
      }
      ArrivedKeeps(w, r);
      Arrive(r);
      if status < 0 {
        ConnectFail(r, status);
        return;
      }
      ghost var y := Now();
      MovedKeeps(y, r, results, 0);
      StartTrying(r, results);
      TryNext(r, ECONNREFUSED, sockets);
    }

    method Reap(r: Id)
      modifies this`requests, this`lookups, this`pendingResolves
      ensures Now() == Reaped(old(Now()), r) && r !in requests
    {
      hide AllLists;
      pendingResolves := pendingResolves - 1;
      lookups := lookups - {r};
      requests := requests - {r};
    }

    method Arrive(r: Id)
      modifies this`lookups, this`pendingResolves, this`busy
      ensures Now() == Arrived(old(Now()), r) && r !in lookups && busy == old(busy) + {r}
    {
      hide AllLists;
      pendingResolves := pendingResolves - 1;
      lookups := lookups - {r};
      busy := busy + {r};
    }

    method StartTrying(r: Id, results: seq<Addr>)
      requires r in requests && r in busy && requests[r].phase.Resolving? && requests[r].attempt.None?
      modifies this`requests
      ensures Now() == Moved(old(Now()), r, results, 0)
      ensures r in requests && requests[r] == old(requests[r]).(phase := Connecting, results := results, cursor := 0)
    {
      hide AllLists;
      requests := requests[r := requests[r].(phase := Connecting, results := results, cursor := 0)];
      assert busy + {r} == busy;
    }

    /** `us_internal_socket_connect_ready`: an attempt socket is writable, with `err` not zero if it failed. */
    method ConnectReady(s: Id, err: int, sockets: seq<Option<int>>)
      requires Inv(Now()) && s in semi && busy == {}
      modifies this
      ensures Inv(Now()) && busy == {}
      ensures var r := old(semi[s]);
              r in old(requests) && if err == 0 then Told(log, r, Opened) else
                var q := old(requests[r]);
                var tried := Tries(|q.results| - (q.cursor + 1), sockets);
                if q.cursor + 1 + tried < |q.results| then
                  r in requests && requests[r].phase.Connecting? && requests[r].results == q.results
                    && requests[r].cursor == q.cursor + 1 + tried
                else r !in requests && Told(log, r, Failed(LastError(err, sockets, tried)))
    {
      hide Inv, AllLists, Ended, Told, Moved, Promoted, Spared;
      ghost var w := Now();
      SocketParts(w, s);
      var r := semi[s];
      if err != 0 {
        MovedKeeps(w, r, requests[r].results, requests[r].cursor + 1);
        DropAttempt(r);
        TryNext(r, err, sockets);
      } else {
        PromotedKeeps(w, r);
        Promote(r);
        ghost var y := Now();
        Callback();
        SaidStays(y, Now(), Event(r, Opened));
        StaysFree(y, Now());
      }
    }

    method DropAttempt(r: Id)
      requires r in requests && requests[r].phase.Connecting?
      modifies this`requests, this`semi, this`busy
      ensures Now() == Moved(old(Now()), r, old(requests[r].results), old(requests[r].cursor) + 1)
      ensures r in requests
      ensures requests[r] == old(requests[r]).(attempt := None, cursor := old(requests[r].cursor) + 1)
      ensures busy == old(busy) + {r}
    {
      hide AllLists, SemiWithout;
      CloseAttempt(r);
      requests := requests[r := requests[r].(attempt := None, cursor := requests[r].cursor + 1)];
      busy := busy + {r};
    }

    /** The attempt socket becomes a connection. */
    method Promote(r: Id)
      requires r in requests
      modifies this`requests, this`semi, this`timers, this`log
      ensures Now() == Promoted(old(Now()), r) && log == old(log) + [Event(r, Opened)] && busy == old(busy)
    {
      hide AllLists, SemiWithout, TimersWithout;
      var q := requests[r];
      CloseAttempt(r);
      if q.timer.Some? && q.deadline {
        timers := timers[q.timer.value := Timer(r, true)];
        requests := requests[r := q.(phase := Handshaking, results := [], cursor := 0)];
      } else {
        CloseTimer(r);
        requests := requests[r := q.(phase := Handshaking, results := [], cursor := 0, timer := None)];
      }
      log := log + [Event(r, Opened)];
    }

    /** `connect_timer_cb`: the handshake has timed out, or the lookup or connect has. */
    method TimerFired(t: Id)
      requires Inv(Now()) && t in timers && timers[t].armed && busy == {}
      modifies this
      ensures Inv(Now()) && busy == {}
      ensures var r := old(timers[t].request);
              r in old(requests) && if old(requests[r].phase.Handshaking?) then Told(log, r, TimedOut)
                                    else !Listed(Now(), r) && Told(log, r, Failed(ETIMEDOUT))
    {
      hide Inv, AllLists, Ended, Told, Expired, Spared, Torn, Muted;
      ghost var w := Now();
      TimerParts(w, t);
      var r := timers[t].request;
      if requests[r].phase.Handshaking? {
        ExpiredKeeps(w, r);
        Expire(r, t);
        ghost var y := Now();
        Callback();
        SaidStays(y, Now(), Event(r, TimedOut));
        StaysFree(y, Now());
      } else {
        var resolving := requests[r].phase.Resolving?;
        Record(r, Failed(ETIMEDOUT));
        ghost var y := Now();
        Callback();
        StillBusy(y, Now(), r);
        SaidStays(y, Now(), Event(r, Failed(ETIMEDOUT)));
        TornGone(Now(), r);
        MutedGone(Now(), r);
        if resolving {
          Mute(r);
        } else {
          TearDown(r);
        }
      }
    }

    method Expire(r: Id, t: Id)
      requires r in requests && requests[r].timer == Some(t)
      modifies this`requests, this`timers, this`log
      ensures Now() == Expired(old(Now()), r) && log == old(log) + [Event(r, TimedOut)] && busy == old(busy)
    {
      hide AllLists;
      timers := timers[t := Timer(r, false)];
      requests := requests[r := requests[r].(phase := Done)];
      log := log + [Event(r, TimedOut)];
    }

    /** One input, if it can come: only what is out comes back. */
    method Take(input: Input)
      requires Inv(Now()) && busy == {}
      modifies this
      ensures Inv(Now()) && busy == {}
    {
      hide Inv, Spared, AllLists;
      ghost var w := Now();
      match input {
        case Calls(action) =>
          Act(action);
          StaysFree(w, Now());
        case LooksUp(r, status, results, sockets) =>
          if r in requests && (requests[r].phase.Resolving? || requests[r].phase.Cancelled?) {
            LookupOut(w, r);
            LookupDone(r, status, results, sockets);
          }
        case Writable(s, err, sockets) =>
          if s in semi {
            ConnectReady(s, err, sockets);
          }
        case Fires(t) =>
          if t in timers && timers[t].armed {
            TimerFired(t);
          }
      }
    }
  }

  lemma LookupOut(w: World, r: Id)
    requires Inv(w) && w.busy == {} && r in w.requests
    requires w.requests[r].phase.Resolving? || w.requests[r].phase.Cancelled?
    ensures r in w.lookups
  {
    hide OnLists, Sockets, Timers, Requests, Logged;
  }

  /** Everything that may be relied on at any moment. */
  ghost predicate Reliable(w: World)
  {
    && (forall i, j :: 0 <= i < j < |w.log| && w.log[i].request == w.log[j].request ==>
      !w.log[i].kind.Final() && (w.log[i].kind.Opened? ==> !w.log[j].kind.Opened? && !w.log[j].kind.Failed?))
    && (forall c: Id, r: Id :: c in w.lists.chains ==>
          (r in w.lists.chains[c] <==>
            r in w.requests && !w.requests[r].phase.Cancelled? && w.requests[r].context == Some(c)))
    && w.pendingResolves == |w.lookups| && (forall r: Id :: r in w.lookups ==> r in w.requests)
    && (forall s: Id :: s in w.semi ==> w.semi[s] in w.requests && w.requests[w.semi[s]].attempt == Some(s))
    && (forall t: Id :: t in w.timers ==>
          w.timers[t].request in w.requests && w.requests[w.timers[t].request].timer == Some(t))
  }

  lemma IsReliable(w: World)
    requires Inv(w)
    ensures Reliable(w)
  {
    hide Inv;
    forall i, j | 0 <= i < j < |w.log| && w.log[i].request == w.log[j].request
      ensures !w.log[i].kind.Final() && (w.log[i].kind.Opened? ==> !w.log[j].kind.Opened? && !w.log[j].kind.Failed?)
    {
      OneOutcome(w, i, j);
    }
    forall c: Id, r: Id | c in w.lists.chains
      ensures r in w.lists.chains[c] <==>
              r in w.requests && !w.requests[r].phase.Cancelled? && w.requests[r].context == Some(c)
    {
      ListedIff(w, c, r);
    }
    NothingDangles(w);
  }

  /** Any run, from nothing: whatever is called, comes back or fires, and whatever owners do when they are told. */
  method Play(script: seq<seq<Action>>, inputs: seq<Input>) returns (connector: Connector)
    ensures fresh(connector) && Inv(connector.Now()) && Reliable(connector.Now())
  {
    hide Inv, Reliable;
    connector := new Connector(script);
    for i := 0 to |inputs|
      invariant fresh(connector) && Inv(connector.Now()) && connector.busy == {}
    {
      connector.Take(inputs[i]);
    }
    IsReliable(connector.Now());
  }

  lemma SparedSelf(w: World)
    ensures Spared(w, w)
  {
  }

  lemma BegunSpares(w: World, c: Id, timed: bool, armed: bool, deadline: bool)
    requires Inv(w) && c in w.lists.heads && c in w.lists.chains
    ensures Spared(w, Begun(w, c, timed, armed, deadline))
  {
    hide Enlink, OnLists, Lookups, Sockets, Timers, Requests, Logged;
    Fresh(w);
  }

  /** The end of a request that its owner brings about. */
  ghost function Finished(w: World, r: Id, kind: Kind): World
    requires Inv(w) && Owned(w, r) && (kind == WasCancelled || kind == WasReleased)
  {
    OwnedParts(w, r);
    SayKeeps(w, r, kind);
    if w.requests[r].phase.Resolving? then Muted(Say(w, r, kind), r) else Torn(Say(w, r, kind), r)
  }

  lemma OwnedParts(w: World, r: Id)
    requires Inv(w) && Owned(w, r)
    ensures !Ended(w.log, r) && (r in w.lookups <==> w.requests[r].phase.Resolving?)
  {
    hide Ended, OnLists, Sockets, Timers, Requests;
  }

  lemma FinishedBy(w: World, r: Id, kind: Kind)
    requires Inv(w) && Owned(w, r) && (kind == WasCancelled || kind == WasReleased)
    ensures !Ended(w.log, r) && (r in w.lookups <==> w.requests[r].phase.Resolving?)
    ensures Inv(Finished(w, r, kind)) && Spared(w, Finished(w, r, kind))
  {
    hide InvBut, Delink;
    OwnedParts(w, r);
    SayKeeps(w, r, kind);
    if w.requests[r].phase.Resolving? {
      MutedKeeps(Say(w, r, kind), r);
    } else {
      TornKeeps(Say(w, r, kind), r);
    }
  }

  function GoneWorld(w: World, c: Id): World
  {
    w.(lists := w.lists.(heads := w.lists.heads - {c}, chains := w.lists.chains - {c}))
  }

  /** The loop of `us_socket_context_free`: the first `k` requests of the list have been orphaned. */
  ghost predicate Orphaning(w: World, y: World, c: Id, chain: seq<Id>, k: nat, cursor: Option<Id>)
  {
    && k <= |chain| && Distinct(chain) && cursor == At(chain, k)
    && InvBut(y, Members(chain[k..])) && Spared(w, y) && y.lists == GoneWorld(w, c).lists
    && (forall i :: 0 <= i < |chain| ==> chain[i] in w.lists.next && w.lists.next[chain[i]] == At(chain, i + 1))
    && OthersSame(w, y, chain, k)
    && (forall i :: 0 <= i < k ==> OrphanedOne(w, y, chain[i]))
  }

  ghost predicate OthersSame(w: World, y: World, chain: seq<Id>, k: nat)
    requires k <= |chain|
  {
    forall r: Id :: r !in chain[..k] ==>
      (r in y.requests <==> r in w.requests) && (r in w.requests ==> y.requests[r] == w.requests[r])
  }

  lemma OthersStaySame(w: World, y: World, chain: seq<Id>, k: nat)
    requires k < |chain| && Distinct(chain) && OthersSame(w, y, chain, k) && chain[k] in y.requests
    ensures chain[k] in w.requests && y.requests[chain[k]] == w.requests[chain[k]]
    ensures OthersSame(w, Orphaned(y, chain[k]), chain, k + 1)
  {
    NotBefore(chain, k);
    assert chain[..k + 1] == chain[..k] + [chain[k]];
  }

  ghost predicate OrphanedOne(w: World, y: World, r: Id)
  {
    && r in w.requests && Told(y.log, r, WasOrphaned)
    && if w.requests[r].phase.Resolving? then r in y.requests && y.requests[r].phase.Cancelled?
      && y.requests[r].context == None
       else r !in y.requests
  }

  lemma NextOnList(w: World, c: Id)
    requires Inv(w) && c in w.lists.heads
    ensures c in w.lists.chains && Distinct(w.lists.chains[c]) && w.lists.heads[c] == At(w.lists.chains[c], 0)
    ensures forall i :: 0 <= i < |w.lists.chains[c]| ==>
              w.lists.chains[c][i] in w.lists.next && w.lists.next[w.lists.chains[c][i]] == At(w.lists.chains[c], i + 1)
  {
    hide Lookups, Sockets, Timers, Requests, Logged;
    var chain := w.lists.chains[c];
    assert Linked(LinksOf(w.lists, c));
    forall i | 0 <= i < |chain|
      ensures chain[i] in w.lists.next && w.lists.next[chain[i]] == At(chain, i + 1)
    {
      assert NodeLinked(LinksOf(w.lists, c), i);
    }
  }

  lemma FreeingStarts(w: World, c: Id)
    requires Inv(w) && c in w.lists.heads
    requires forall r :: r in w.busy ==> r in w.requests && w.requests[r].context != Some(c)
    ensures c in w.lists.chains
    ensures Orphaning(w, GoneWorld(w, c), c, w.lists.chains[c], 0, w.lists.heads[c])
  {
    hide InvBut, Told, OrphanedOne, Spared, Inv;
    NextOnList(w, c);
    var chain := w.lists.chains[c];
    forall u: Id
      ensures Listed(w, u) && w.requests[u].context == Some(c) <==> u in chain
    {
      ListedOn(w, c, u);
    }
    ContextGoneKeeps(w, c);
    assert chain[0..] == chain;
    SparedSelf(w);
    GoneSpares(w, c);
  }

  lemma GoneSpares(w: World, c: Id)
    ensures Spared(w, GoneWorld(w, c))
  {
  }

  lemma LooseParts(y: World, loose: set<Id>, r: Id)
    requires InvBut(y, loose) && r in loose
    ensures Listed(y, r) && r !in y.busy
  {
    hide Lookups, Sockets, Timers, Requests, Logged, ListsOk;
  }

  lemma OrphaningLoose(y: World, chain: seq<Id>, k: nat)
    requires Distinct(chain) && k < |chain| && InvBut(y, Members(chain[k..]))
    ensures Listed(y, chain[k]) && chain[k] !in y.busy && InvBut(Orphaned(y, chain[k]), Members(chain[k + 1..]))
  {
    hide InvBut, Orphaned;
    var loose := Members(chain[k..]);
    assert chain[k] == chain[k..][0];
    LooseParts(y, loose, chain[k]);
    OrphanedKeeps(y, chain[k], loose);
    forall u
      ensures u in Members(chain[k + 1..]) <==> u in loose && u != chain[k]
    {
      RestOf(chain, k, u);
    }
    assert Members(chain[k + 1..]) == loose - {chain[k]};
  }

  lemma OrphanedMore(w: World, y: World, r: Id, u: Id)
    requires OrphanedOne(w, y, u) && u != r && r in y.requests
    ensures OrphanedOne(w, Orphaned(y, r), u)
  {
    hide Told;
    StillTold(y.log, Event(r, WasOrphaned), u, WasOrphaned);
  }

  lemma OrphanedNow(w: World, y: World, r: Id)
    requires r in y.requests && r in w.requests && y.requests[r] == w.requests[r]
    ensures OrphanedOne(w, Orphaned(y, r), r)
  {
    assert Orphaned(y, r).log[|y.log|] == Event(r, WasOrphaned);
  }

  lemma OrphanedSpares(w: World, y: World, r: Id)
    requires Spared(w, y) && r in y.requests && r !in y.busy
    ensures Spared(w, Orphaned(y, r)) && Orphaned(y, r).lists == y.lists
    ensures forall u: Id :: u != r ==>
              (u in Orphaned(y, r).requests <==> u in y.requests)
                && (u in y.requests ==> Orphaned(y, r).requests[u] == y.requests[u])
  {
  }

  lemma OrphaningStep(w: World, y: World, c: Id, chain: seq<Id>, k: nat, cursor: Option<Id>)
    requires Orphaning(w, y, c, chain, k, cursor) && cursor.Some?
    ensures k < |chain| && cursor.value in y.lists.next && cursor.value in y.requests
    ensures Orphaning(w, Orphaned(y, cursor.value), c, chain, k + 1, y.lists.next[cursor.value])
  {
    hide InvBut, Orphaned, Spared, OrphanedOne, Members, OthersSame;
    var r := chain[k];
    OrphaningLoose(y, chain, k);
    var z := Orphaned(y, r);
    OrphanedSpares(w, y, r);
    OthersStaySame(w, y, chain, k);
    OrphanedNow(w, y, r);
    forall i | 0 <= i < k + 1
      ensures OrphanedOne(w, z, chain[i])
    {
      if i < k {
        assert OrphanedOne(w, y, chain[i]) && chain[i] != r;
        OrphanedMore(w, y, r, chain[i]);
      }
    }
  }

  lemma StillTold(log: seq<Event>, e: Event, r: Id, kind: Kind)
    requires Told(log, r, kind)
    ensures Told(log + [e], r, kind)
  {
    var i :| 0 <= i < |log| && log[i] == Event(r, kind);
    assert (log + [e])[i] == log[i];
  }

  lemma NotBefore(chain: seq<Id>, k: nat)
    requires Distinct(chain) && k < |chain|
    ensures chain[k] !in chain[..k]
  {
  }

  lemma RestOf(chain: seq<Id>, k: nat, u: Id)
    requires Distinct(chain) && k < |chain|
    ensures u in chain[k + 1..] <==> u in chain[k..] && u != chain[k]
  {
    if u in chain[k..] && u != chain[k] {
      var i :| 0 <= i < |chain[k..]| && chain[k..][i] == u;
      assert chain[k + 1..][i - 1] == u;
    }
    if u in chain[k + 1..] {
      var i :| 0 <= i < |chain[k + 1..]| && chain[k + 1..][i] == u;
      assert chain[k..][i + 1] == u && chain[k] != chain[k + 1 + i];
    }
  }

  lemma ListedOn(w: World, c: Id, r: Id)
    requires Inv(w) && c in w.lists.chains
    ensures Listed(w, r) && w.requests[r].context == Some(c) <==> r in w.lists.chains[c]
  {
    hide Lookups, Sockets, Timers, Requests, Logged, ListsOk;
  }

  lemma OrphaningEnds(w: World, y: World, c: Id, chain: seq<Id>, k: nat)
    requires Inv(w) && c in w.lists.heads && c in w.lists.chains && chain == w.lists.chains[c]
    requires Orphaning(w, y, c, chain, k, None)
    ensures Inv(y) && Spared(w, y) && c !in y.lists.heads && OrphanedAll(w, y, c)
  {
    hide InvBut, Spared, Told;
    assert chain[k..] == [] && chain[..k] == chain;
    assert Members([]) == {};
    forall r: Id
      ensures Listed(w, r) && w.requests[r].context == Some(c) <==> r in chain
    {
      ListedOn(w, c, r);
    }
    forall r: Id | Listed(w, r) && w.requests[r].context == Some(c)
      ensures OrphanedOne(w, y, r)
    {
      var i :| 0 <= i < |chain| && chain[i] == r;
    }
  }

  /** The context is gone; its requests are freed, or wait without a context for their lookups; nothing else changes. */
  ghost predicate OrphanedAll(a: World, b: World, c: Id)
  {
    && c !in b.lists.heads
    && (forall r: Id :: r in a.requests && !(Listed(a, r) && a.requests[r].context == Some(c)) ==>
      r in b.requests && b.requests[r] == a.requests[r])
    && (forall r: Id :: Listed(a, r) && a.requests[r].context == Some(c) ==>
          && Told(b.log, r, WasOrphaned)
          && if a.requests[r].phase.Resolving? then r in b.requests && b.requests[r].phase.Cancelled?
            && b.requests[r].context == None
             else r !in b.requests)
  }

  lemma Places(w: World, r: Id)
    requires Inv(w) && Listed(w, r)
    ensures w.requests[r].context.Some?
    ensures var c := w.requests[r].context.value;
              c in w.lists.heads && c in w.lists.chains && r in w.lists.chains[c] && Linked(LinksOf(w.lists, c))
  {
    hide Linked, Lookups, Sockets, Timers, Requests, Logged;
    ListsParts(w);
  }

  // ---------------------------------------------------------------- what follows at every moment

  /** At most one of on_open and on_connect_error, and neither after the owner cancelled, released or lost the
    * request. */
  lemma OneOutcome(w: World, i: nat, j: nat)
    requires Inv(w) && i < j < |w.log| && w.log[i].request == w.log[j].request
    ensures !w.log[i].kind.Final() && (w.log[i].kind.Opened? ==> !w.log[j].kind.Opened? && !w.log[j].kind.Failed?)
  {
    hide OnLists, Lookups, Sockets, Timers, Requests;
  }

  /** A request is on its context's list exactly while it is alive and not cancelled, and on no other. */
  lemma ListedIff(w: World, c: Id, r: Id)
    requires Inv(w) && c in w.lists.chains
    ensures r in w.lists.chains[c] <==>
              r in w.requests && !w.requests[r].phase.Cancelled? && w.requests[r].context == Some(c)
  {
    ListedOn(w, c, r);
  }

  /** Whatever may still come back, a lookup, a writable socket or a timer, leads to a request that has not been freed,
    * and `pending_resolves` counts the lookups. */
  lemma NothingDangles(w: World)
    requires Inv(w)
    ensures w.pendingResolves == |w.lookups| && forall r: Id :: r in w.lookups ==> r in w.requests
    ensures forall s: Id :: s in w.semi ==> w.semi[s] in w.requests && w.requests[w.semi[s]].attempt == Some(s)
    ensures forall t: Id :: t in w.timers ==>
              w.timers[t].request in w.requests && w.requests[w.timers[t].request].timer == Some(t)
  {
    hide OnLists, Logged, Requests;
  }

  lemma HeadsAndChains(w: World)
    requires Inv(w)
    ensures w.lists.heads.Keys == w.lists.chains.Keys
  {
    hide Lookups, Sockets, Timers, Requests, Logged;
    ListsParts(w);
  }

  lemma StillBusy(a: World, b: World, r: Id)
    requires Inv(b) && Spared(a, b) && r in a.busy && r in a.requests && !a.requests[r].phase.Cancelled?
    ensures b.busy == a.busy && r in b.requests && b.requests[r] == a.requests[r] && Listed(b, r)
    ensures (r in b.lookups <==> r in a.lookups)
  {
    hide Inv;
  }

  lemma TornGone(w: World, r: Id)
    requires Inv(w) && Listed(w, r)
    ensures r !in Torn(w, r).requests && Torn(w, r).busy == w.busy - {r} && Torn(w, r).log == w.log
  {
    hide InvBut, Delink;
  }

  lemma SaidStays(a: World, b: World, e: Event)
    requires Spared(a, b) && |a.log| > 0 && a.log[|a.log| - 1] == e
    ensures Told(b.log, e.request, e.kind)
  {
    assert b.log[|a.log| - 1] == e;
  }

  /** The error of the last failure that had one, or the one known before. */
  function LastError(failCode: int, sockets: seq<Option<int>>, n: nat): int
    requires n <= |sockets|
  {
    if n == 0 then failCode
    else if sockets[n - 1].Some? && sockets[n - 1].value != 0 then sockets[n - 1].value
    else LastError(failCode, sockets, n - 1)
  }

  /** How many of `n` addresses fail to get a socket before one does. */
  function Tries(n: int, sockets: seq<Option<int>>): (k: nat)
    ensures (n >= 0 ==> k <= n) && k <= |sockets|
  {
    if n <= 0 || sockets == [] || sockets[0].None? then 0 else 1 + Tries(n - 1, sockets[1..])
  }

  lemma {:induction false} TriesMore(n: int, sockets: seq<Option<int>>, i: nat)
    requires i < n && i < |sockets| && i <= Tries(n, sockets) && sockets[i].Some?
    ensures i + 1 <= Tries(n, sockets)
    decreases i
  {
    if i > 0 {
      TriesMore(n - 1, sockets[1..], i - 1);
    }
  }

  lemma {:induction false} TriesEnd(n: int, sockets: seq<Option<int>>, i: nat)
    requires i <= Tries(n, sockets) && (i >= n || i >= |sockets| || sockets[i].None?)
    ensures i == Tries(n, sockets)
    decreases i
  {
    if i > 0 {
      TriesEnd(n - 1, sockets[1..], i - 1);
    }
  }

  lemma LookupParts(w: World, r: Id)
    requires Inv(w) && r in w.lookups
    ensures r in w.requests && (w.requests[r].phase.Resolving? || w.requests[r].phase.Cancelled?)
    ensures w.requests[r].attempt.None?
  {
    hide OnLists, Sockets, Timers, Logged;
  }

  lemma SocketParts(w: World, s: Id)
    requires Inv(w) && s in w.semi && w.busy == {}
    ensures var r := w.semi[s];
            r in w.requests && w.requests[r].phase.Connecting? && w.requests[r].attempt == Some(s) && r !in w.lookups
              && !Ended(w.log, r)
            && w.requests[r].cursor < |w.requests[r].results|
  {
    hide OnLists, Timers, Ended, Told, LogOk;
  }

  lemma TimerParts(w: World, t: Id)
    requires Inv(w) && t in w.timers && w.timers[t].armed && w.busy == {}
    ensures var r := w.timers[t].request;
            && Listed(w, r) && w.requests[r].timer == Some(t) && !w.requests[r].phase.Done? && !Ended(w.log, r)
            && (r in w.lookups <==> w.requests[r].phase.Resolving?)
  {
    hide OnLists, Sockets, Ended, Told, LogOk;
  }

  lemma StaysFree(a: World, b: World)
    requires Spared(a, b) && a.busy == {}
    ensures b.busy == {}
  {
  }

  lemma MutedGone(w: World, r: Id)
    requires Inv(w) && Listed(w, r)
    ensures !Listed(Muted(w, r), r) && Muted(w, r).busy == w.busy - {r} && Muted(w, r).log == w.log
  {
    hide InvBut, Delink;
  }
}
