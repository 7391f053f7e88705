/** The publish/subscribe tree of TopicTree.h.  Handlers called while messages are delivered may subscribe, leave,
  * publish and free; what they may not do at once is queued and replayed.
  *
  * The handlers are a script: each call takes the next reaction from it.  Reactions that name a freed subscriber are
  * passed over.  Those that toggle a pair that still has a queued change, which would break the relation (see
  * `TopicRelation.ToggleExact`) and can only happen during a replay (`Act`), are noted and not made. */
module TopicTree {
  import opened Bytes
  import opened TopicRelation
  import opened IntrusiveList
  import opened TopicTreeState
  import opened TopicTreeStory
  import opened TopicTreeSolo
  import opened TopicTreeChain

  class TopicTree {
    var topics: map<string, TopicId>
    var names: map<TopicId, string>
    var members: map<TopicId, set<SubId>>
    var held: map<SubId, set<TopicId>>
    var indices: map<SubId, seq<nat>>
    var doomed: set<SubId>
    var drainableSubscribers: Option<SubId>
    var next: map<SubId, Option<SubId>>
    var prev: map<SubId, Option<SubId>>
    var drainingDepth: nat
    var iteratingTopic: Option<TopicId>
    var pending: bool
    var applying: bool
    var pendingFree: seq<SubId>
    var pendingOps: seq<Op>
    var outgoingMessages: seq<Payload>
    var nextId: nat
    /** How the handlers still to be called will react. */
    var script: seq<Reaction>
    /** What each subscriber's handler has been given. */
    var received: map<SubId, seq<Payload>>
    /** A topic was erased under the `publish` that had looked it up; see `MakeRoom`. */
    var fault: bool
    ghost var chain: seq<SubId>
    ghost var due: map<SubId, seq<Payload>>
    ghost var inFlight: seq<Payload>
    ghost var taker: Option<SubId>
    ghost var taking: seq<nat>
    ghost var sweeping: bool
    ghost var order: seq<SubId>
    ghost var stoppers: set<SubId>
    ghost var leaked: bool
    ghost var truncated: bool
    ghost var calls: seq<Called>
    ghost var asked: seq<Ask>
    ghost var answered: seq<Ask>
    ghost var missed: seq<Miss>

    function Relation(): Rel
      reads this`topics, this`names, this`members, this`held, this`pendingOps
    {
      Rel(topics, names, members, held, pendingOps)
    }

    ghost function Now(): Tree
      reads this
    {
      Tree(Relation(), List(), Postings(), Modes(), Lives(), script)
    }

    ghost function List(): Links
      reads this`chain, this`drainableSubscribers, this`next, this`prev
    {
      Links(chain, drainableSubscribers, next, prev)
    }

    ghost function Postings(): Post
      reads this`indices, this`outgoingMessages, this`received, this`due, this`inFlight, this`taker, this`taking,
            this`stoppers, this`leaked, this`truncated, this`calls
    {
      Post(indices, outgoingMessages, received, due, inFlight, taker, taking, stoppers, leaked, truncated, calls)
    }

    ghost function Modes(): Mode
      reads this`drainingDepth, this`iteratingTopic, this`pending, this`applying, this`sweeping, this`order
    {
      Mode(drainingDepth, iteratingTopic, pending, applying, sweeping, order)
    }

    ghost function Lives(): Life
      reads this`doomed, this`pendingFree, this`nextId, this`asked, this`answered, this`missed
    {
      Life(doomed, pendingFree, nextId, asked, answered, missed)
    }

    constructor (script: seq<Reaction>)
      ensures Inv(Now()) && Orderly(Now()) && AtEase(Now()) && !fault && Now() == Empty(script)
    {
      topics, names, members, held, indices := map[], map[], map[], map[], map[];
      doomed, drainableSubscribers, next, prev := {}, None, map[], map[];
      drainingDepth, iteratingTopic, pending, applying := 0, None, false, false;
      pendingFree, pendingOps, outgoingMessages, nextId := [], [], [], 0;
      this.script, received, fault := script, map[], false;
      chain, due, inFlight, taker, taking, sweeping, order := [], map[], [], None, [], false, [];
      stoppers, leaked, truncated, asked, answered, missed, calls := {}, false, false, [], [], [], [];
    }

    method Create() returns (s: SubId)
      modifies this`nextId, this`held, this`indices, this`received, this`due
      ensures s == old(nextId) && nextId == s + 1 && held == old(held)[s := {}] && indices == old(indices)[s := []]
      ensures received == old(received)[s := []] && due == old(due)[s := []]
    {
      s := nextId;
      nextId := nextId + 1;
      held, indices, received, due := held[s := {}], indices[s := []], received[s := []], due[s := []];
    }

    method CreateNow() returns (s: SubId)
      modifies this
      ensures fault == old(fault)
      ensures Now() == Created(old(Now())) && s == old(nextId)
    {
      s := Create();
    }

    method CreateSubscriber() returns (s: SubId)
      requires Inv(Now())
      modifies this
      ensures fault == old(fault)
      ensures Now() == Created(old(Now())) && s == old(nextId) && Inv(Now())
    {
      hide Inv, Created;
      CreatedKeeps(Now());
      s := CreateNow();
    }

    /** `numSubscribers`: at any moment, inside deliveries too, the number of subscribers that hold the topic. */
    method NumSubscribers(t: TopicId) returns (count: int)
      requires RelOk(Relation()) && t in members && (pendingOps != [] ==> pending)
      ensures count == |Holders(held, t)|
    {
      CountIsHolders(Relation(), t);
      count := |members[t]|;
      if pending {
        var i := 0;
        while i < |pendingOps|
          invariant 0 <= i <= |pendingOps| && count + Net(pendingOps[i..], t) == |members[t]| + Net(pendingOps, t)
        {
          var op := pendingOps[i];
          if op.On(t) {
            count := count + if op.SubscribeOp? then 1 else -1;
          }
          assert pendingOps[i..][1..] == pendingOps[i + 1..];
          i := i + 1;
        }
      }
    }

    method DeferOp(op: Op)
      modifies this`pendingOps, this`pending
      ensures pendingOps == old(pendingOps) + [op] && pending
    {
      pendingOps := pendingOps + [op];
      pending := true;
    }

    /** The relation's side of `subscribe`. */
    method SubscribeTopic(s: SubId, name: string) returns (topic: Option<TopicId>)
      requires Registered(Relation()) && s in held
      modifies this`topics, this`names, this`members, this`held, this`pendingOps, this`pending, this`nextId
      ensures Relation() == SubscribedRel(old(Relation()), iteratingTopic, s, name, old(nextId))
      ensures nextId == (if name in old(Relation()).topics then old(nextId) else old(nextId) + 1)
      ensures pending == (old(pending) || old(Waits(Relation(), iteratingTopic, s, name, false)))
      ensures topic == if name in old(topics) && old(topics)[name] in old(held)[s] then None else Some(topics[name])
    {
      ghost var r := Relation();
      if name !in topics {
        var t := nextId;
        nextId := nextId + 1;
        topics, names, members := topics[name := t], names[t := name], members[t := {}];
        held := held[s := held[s] + {t}];
        members := members[t := members[t] + {s}];
        assert members[t] == {s} && members == r.members[t := {s}];
        assert Relation() == NewTopic(r, name, s, t);
        return Some(t);
      }
      var t := topics[name];
      if t in held[s] {
        return None;
      }
      held := held[s := held[s] + {t}];
      topic := Some(t);
      if iteratingTopic == topic {
        DeferOp(SubscribeOp(s, t));
        return;
      }
      members := members[t := members[t] + {s}];
    }

    method SubscribeNow(s: SubId, name: string) returns (topic: Option<TopicId>)
      requires Registered(Relation()) && s in held
      modifies this
      ensures fault == old(fault)
      ensures Now() == Subscribed(old(Now()), s, name)
      ensures topic == if name in old(topics) && old(topics)[name] in old(held)[s] then None else Some(topics[name])
    {
      hide Registered, SubscribedRel, Waits, Postings, List, Relation;
      topic := SubscribeTopic(s, name);
    }

    /** `subscribe`: the topic, unless it was held already. */
    method Subscribe(s: SubId, name: string) returns (topic: Option<TopicId>)
      requires Inv(Now()) && Registered(Relation()) && Alive(Now(), s)
      requires ToggleAllowed(Relation(), iteratingTopic, s, name)
      modifies this
      ensures fault == old(fault)
      ensures Now() == Subscribed(old(Now()), s, name) && Inv(Now())
      ensures topic == if name in old(topics) && old(topics)[name] in old(held)[s] then None else Some(topics[name])
    {
      hide Inv, Stirred, Steady, ToggleAllowed, Registered, Subscribed;
      SubscribedKeeps(Now(), s, name);
      topic := SubscribeNow(s, name);
    }

    /** `subscribePending`, then `topics.erase`, of `eraseFromTopic`. */
    method EraseFromTopic(s: SubId, t: TopicId, opsFrom: nat)
      requires t in members && t in names && opsFrom <= |pendingOps| && (pendingOps != [] ==> pending)
      requires forall k | 0 <= k < opsFrom :: !(pendingOps[k].SubscribeOp? && pendingOps[k].t == t)
      modifies this`topics, this`names, this`members
      ensures var r := old(Relation()); Relation() == Tidied(r.(members := r.members[t := r.members[t] - {s}]), t)
    {
      ghost var r := Relation();
      members := members[t := members[t] - {s}];
      var subscribePending := exists k ::
        opsFrom <= k < |pendingOps| && pendingOps[k].SubscribeOp? && pendingOps[k].t == t;
      if members[t] == {} && !(pending && subscribePending) {
        topics, names, members := topics - {names[t]}, names - {t}, members - {t};
      }
    }

    /** The relation's side of `unsubscribe`. */
    method UnsubscribeTopic(s: SubId, name: string) returns (ok: bool, last: bool, count: int)
      requires RelOk(Relation()) && s in held && (pendingOps != [] ==> pending)
      modifies this`topics, this`names, this`members, this`held, this`pendingOps, this`pending
      ensures Registered(old(Relation())) && Relation() == UnsubscribedRel(old(Relation()), iteratingTopic, s, name)
      ensures pending == (old(pending) || old(Waits(Relation(), iteratingTopic, s, name, true)))
      ensures UnsubscribeResult(old(Relation()), held, iteratingTopic, s, name, ok, last, count)
    {
      hide RelOk;
      RelParts(Relation());
      ghost var r := Relation();
      if name !in topics {
        return false, false, -1;
      }
      var t := topics[name];
      if t !in held[s] {
        return false, false, -1;
      }
      held := held[s := held[s] - {t}];
      ok, last := true, held[s] == {};
      HoldersChange(r.held, s, t, t);
      if iteratingTopic == Some(t) {
        LaterKeeps(r, s, t);
        DeferOp(UnsubscribeOp(s, t));
        assert Relation() == LeaveLater(r, s, t);
        count := NumSubscribers(t);
        return;
      }
      count := |members[t]| - 1;
      if forall k :: 0 <= k < |r.ops| ==> !r.ops[k].On(t) {
        MembersHeld(r, t);
        assert s in Holders(r.held, t);
        RemoveOne(Holders(r.held, t), s);
      }
      EraseFromTopic(s, t, 0);
      assert Relation() == Tidied(Leave(r, s, t), t);
    }

    method UnsubscribeNow(s: SubId, name: string) returns (ok: bool, last: bool, count: int)
      requires RelOk(Relation()) && Registered(Relation()) && s in held && (pendingOps != [] ==> pending)
      modifies this
      ensures fault == old(fault)
      ensures Now() == Unsubscribed(old(Now()), s, name)
      ensures UnsubscribeResult(old(Relation()), held, iteratingTopic, s, name, ok, last, count)
    {
      hide RelOk, Registered, UnsubscribedRel, UnsubscribeResult, Waits, Relation, Postings, List, Lives;
      ok, last, count := UnsubscribeTopic(s, name);
    }

    /** `unsubscribe`: whether the topic was held, whether it was the last, and how many hold it now. */
    method Unsubscribe(s: SubId, name: string) returns (ok: bool, last: bool, count: int)
      requires Inv(Now()) && Registered(Relation()) && Alive(Now(), s)
      requires ToggleAllowed(Relation(), iteratingTopic, s, name)
      modifies this
      ensures fault == old(fault)
      ensures Now() == Unsubscribed(old(Now()), s, name) && Inv(Now())
      ensures UnsubscribeResult(old(Relation()), held, iteratingTopic, s, name, ok, last, count)
    {
      hide Inv, Stirred, Steady, ToggleAllowed, Registered, RelOk, Unsubscribed, UnsubscribeResult;
      InvRegistered(Now());
      UnsubscribedKeeps(Now(), s, name);
      ok, last, count := UnsubscribeNow(s, name);
    }

    method UnlinkDrainableSubscriber(s: SubId)
      requires Linked(List()) && s in chain
      modifies this`chain, this`drainableSubscribers, this`next, this`prev
      ensures List() == old(Unlinked(List(), s))
    {
      ghost var l, p := List(), Position(chain, s);
      assert NodeLinked(l, p);
      if p > 0 { assert NodeLinked(l, p - 1); }
      if p + 1 < |chain| { assert NodeLinked(l, p + 1); }
      if prev[s].Some? {
        next := next[prev[s].value := next[s]];
      }
      if next[s].Some? {
        prev := prev[next[s].value := prev[s]];
      }
      if drainableSubscribers == Some(s) {
        drainableSubscribers := next[s];
      }
      chain := Without(chain, p);
    }

    /** The list's side of `freeSubscriber`. */
    method DropIndices(s: SubId)
      requires Linked(List()) && s in Postings().indices && (|Postings().indices[s]| > 0 ==> s in List().chain)
      modifies this`chain, this`drainableSubscribers, this`next, this`prev, this`indices, this`leaked
      ensures List() == old(if |Postings().indices[s]| > 0 then Unlinked(List(), s) else List())
      ensures Postings() == old(Postings().(indices := Postings().indices[s := []], leaked := Postings().leaked
                || |Postings().indices[s]| > 0))
    {
      ghost var was := indices;
      leaked := leaked || |indices[s]| > 0;
      if |indices[s]| > 0 {
        UnlinkDrainableSubscriber(s);
        indices := indices[s := []];
      }
      assert indices == was[s := []];
    }

    method Doom(s: SubId)
      modifies this`pendingFree, this`doomed, this`pending
      ensures Lives() == old(Lives().(pendingFree := Lives().pendingFree + [s], doomed := Lives().doomed + {s}))
      ensures Modes() == old(Modes().(pending := true))
    {
      pendingFree := pendingFree + [s];
      doomed := doomed + {s};
      pending := true;
    }

    method FreeNow(s: SubId)
      requires Linked(List()) && s in Postings().indices && (|Postings().indices[s]| > 0 ==> s in List().chain)
      modifies this
      ensures fault == old(fault)
      ensures Now() == FreedLater(old(Now()), s)
    {
      hide Linked, Unlinked, Relation, Modes, Lives, Postings, List;
      DropIndices(s);
      Doom(s);
    }

    /** `freeSubscriber` while messages are delivered or changes replayed. */
    method FreeLater(s: SubId)
      requires Inv(Now()) && Linked(List()) && Alive(Now(), s) && s in indices && (|indices[s]| > 0 ==> s in chain)
      requires drainingDepth > 0 || applying
      modifies this
      ensures fault == old(fault)
      ensures Now() == FreedLater(old(Now()), s) && Inv(Now())
    {
      hide Inv, Listed, Linked, FreedLater, Stirred, Steady;
      InvListed(Now());
      FreedLaterKeeps(Now(), s);
      FreeNow(s);
    }

    /** `publish` while messages are delivered: queued, and whether anyone would have wanted it. */
    method PublishLater(sender: Option<SubId>, name: string, message: Payload) returns (wanted: bool)
      requires Inv(Now()) && drainingDepth > 0
      modifies this
      ensures fault == old(fault)
      ensures Now() == PublishedLater(old(Now()), sender, name, message) && Inv(Now())
      ensures wanted <==> WantedByAny(old(Now()), sender, name)
    {
      hide Inv, WantedByAny, Stirred, Steady, PublishedLater;
      PublishedLaterKeeps(Now(), sender, name, message);
      wanted := WantsMessage(sender, name);
      QueuePublish(sender, name, message);
    }

    method QueuePublish(sender: Option<SubId>, name: string, message: Payload)
      modifies this`pendingOps, this`pending, this`asked
      ensures Now() == PublishedLater(old(Now()), sender, name, message)
    {
      hide Postings, List;
      if name in topics {
        DeferOp(PublishOp(sender, name, message));
        asked := asked + [Ask(sender, name, message)];
      }
    }

    /** A change that would break the relation is noted, not made. */
    ghost method Miss(s: SubId, name: string, holds: bool)
      requires Inv(Now()) && s in held && !ToggleAllowed(Relation(), iteratingTopic, s, name)
      modifies this`missed
      ensures Now() == old(if Misses(Now(), s, name, holds) then Missed(Now(), s, name) else Now()) && Inv(Now())
    {
      hide Queued, Inv, Stirred, Steady;
      MissedKeeps(Now(), s, name);
      if topics[name] in held[s] <==> holds {
        missed := missed + [TopicTreeState.Miss(Relation(), s, topics[name])];
      }
    }

    /** One action of a handler, if the contract allows it; outside a replay it does. */
    method Act(a: Action)
      requires Inv(Now()) && drainingDepth > 0 && Orderly(Now())
      modifies this
      ensures fault == old(fault)
      ensures Now() == Acted(old(Now()), a) && Inv(Now())
      ensures !old(applying) ==> Now() == Freely(old(Now()), a)
    {
      hide Orderly, Inv, RelOk, Registered, Linked, Subscribed, Unsubscribed, FreedLater, PublishedLater, ToggleAllowed;
      hide Listed, Freely;
      if !applying {
        NothingPassedOver(Now(), a);
      }
      InvRegistered(Now());
      InvListed(Now());
      match a {
        case DoSubscribe(s, name) =>
          if s in held && s !in doomed {
            if ToggleAllowed(Relation(), iteratingTopic, s, name) {
              var _ := Subscribe(s, name);
            } else {
              Miss(s, name, false);
            }
          }
        case DoUnsubscribe(s, name) =>
          if s in held && s !in doomed {
            if ToggleAllowed(Relation(), iteratingTopic, s, name) {
              var _, _, _ := Unsubscribe(s, name);
            } else {
              Miss(s, name, true);
            }
          }
        case DoPublish(sender, name, message) =>
          var _ := PublishLater(sender, name, message);
        case DoFree(s) =>
          if s in held && s !in doomed {
            FreeLater(s);
          }
      }
    }

    /** The actions of one reaction. */
    method Perform(actions: seq<Action>)
      requires Inv(Now()) && drainingDepth > 0 && Orderly(Now())
      modifies this
      ensures fault == old(fault)
      ensures Now() == ActedAll(old(Now()), actions) && Inv(Now()) && Stirred(old(Now()), Now())
      ensures Steady(old(Now()), Now())
      ensures script == old(script)
    {
      hide Inv, Stirred, Steady, Acted, Orderly;
      ghost var x := Now();
      StirredSelf(x);
      assert actions[0..] == actions;
      for i := 0 to |actions|
        invariant Inv(Now()) && drainingDepth > 0 && Orderly(Now())
        invariant ActedAll(Now(), actions[i..]) == ActedAll(x, actions)
        invariant Stirred(x, Now()) && Steady(x, Now()) && script == x.script && fault == old(fault)
      {
        ghost var y := Now();
        assert actions[i..][0] == actions[i] && actions[i..][1..] == actions[i + 1..];
        ActedKeeps(y, actions[i]);
        Act(actions[i]);
        ActedDepth(y, Now());
        StirredDepth(y, Now());
        StirredTrans(x, y, Now());
        SteadyTrans(x, y, Now());
      }
    }

    /** The handler gets a message and reacts: true to cut the batch short. */
    method Callback(s: SubId, message: Payload) returns (stop: bool)
      requires s in received && Inv(Given(Now(), s, message)) && drainingDepth > 0 && Orderly(Given(Now(), s, message))
      modifies this
      ensures fault == old(fault) && CalledBack(old(Now()), s, message, stop, Now())
    {
      hide Inv, Stirred, Steady, Given, Orderly, ActedAll;
      ghost var x, was := Given(Now(), s, message), Now();
      GivenScript(was, s, message);
      Give(s, message);
      StirredSelf(x);
      stop := false;
      if |script| > 0 {
        var reaction := script[0];
        ScriptFree(x, script[1..]);
        NextReaction();
        ghost var y := Now();
        ActedDepth(x, y);
        Perform(reaction.actions);
        StirredTrans(x, y, Now());
        SteadyTrans(x, y, Now());
        stop := reaction.stop;
      }
    }

    method NextReaction()
      requires |script| > 0
      modifies this`script
      ensures Now() == old(Now().(script := script[1..]))
    {
      script := script[1..];
    }

    method Give(s: SubId, message: Payload)
      requires s in received
      modifies this`received, this`taking, this`calls
      ensures Now() == Given(old(Now()), s, message)
    {
      hide Relation, List, Modes, Lives, GivenPost;
      GiveMessage(s, message);
    }

    method GiveMessage(s: SubId, message: Payload)
      requires s in received
      modifies this`received, this`taking, this`calls
      ensures Postings() == old(GivenPost(Postings(), s, message, |script| > 0 && script[0].stop))
    {
      received := received[s := received[s] + [message]];
      taking := if taking == [] then [] else taking[1..];
      calls := calls + [Called(s, message, |script| > 0 && script[0].stop)];
    }

    /** `drainImpl`: the batch of one subscriber, until the handler stops it. */
    method DrainImpl(s: SubId)
      requires CanTake(Now(), s)
      modifies this
      ensures fault == old(fault)
      ensures Inv(Now()) && Stirred(old(Taken(Now(), s)), Now()) && Unclaimed(old(Taken(Now(), s)), Now())
      ensures taker == Some(s) && taking == [] && Spent(old(Taken(Now(), s)), Now())
      ensures |old(indices)[s]| > 0 && |old(script)| > 0 ==> Onwards(FirstReacted(old(Now()), s), Now())
      ensures |old(indices)[s]| > 1 && Stops(old(Now())) ==> Now() == Cut(FirstReacted(old(Now()), s), s)
      ensures BatchGiven(old(Now()), s, Now())
    {
      hide Inv, Stirred, Steady, Unclaimed, Taken, Spent, Orderly, Onwards, FirstReacted, Midway, Stopped, CanTake, Cut;
      hide CalledBack, BatchGiven, Lives, List;
      ghost var start := Now();
      MidwayStarts(start, s);
      var batch := indices[s];
      TakeBatch(s);
      for i := 0 to |batch|
        invariant Midway(start, s, Now(), i) && fault == old(fault)
        invariant if i == 0 then Now() == Taken(start, s) else |batch| == 1 || !Stops(start)
      {
        ghost var y := Now();
        MidwayNext(start, s, y, i);
        var stop := Callback(s, outgoingMessages[batch[i]]);
        if i == 0 && Stops(start) { FirstStops(start, s, stop, Now()); }
        MidwayStep(start, s, y, i, stop, Now());
        if stop {
          ghost var z := Now();
          if i + 1 < |batch| {
            CutBatch(s);
          }
          StoppedEnds(start, s, z, i + 1, Now());
          return;
        }
      }
      MidwayEnds(start, s, Now());
    }

    /** What is left of the batch is dropped. */
    ghost method CutBatch(s: SubId)
      modifies this`stoppers, this`taking
      ensures Now() == Cut(old(Now()), s)
    {
      stoppers := stoppers + {s};
      taking := [];
    }

    method TakeBatch(s: SubId)
      requires s in indices
      modifies this`indices, this`taker, this`taking
      ensures Now() == Taken(old(Now()), s)
    {
      hide Relation, List, Modes, Lives;
      TakeIndices(s);
    }

    method TakeIndices(s: SubId)
      requires s in indices
      modifies this`indices, this`taker, this`taking
      ensures indices == old(indices)[s := []] && taker == Some(s) && taking == old(indices)[s]
    {
      taking, taker := indices[s], Some(s);
      indices := indices[s := []];
    }

    /** The part of `drain` for one subscriber before `leaveDraining`. */
    method DrainOne(s: SubId)
      requires Inv(Now()) && s in indices && |indices[s]| > 0 && taker.None? && !sweeping && Fresh(Postings(), s)
      requires Orderly(Now())
      modifies this
      ensures fault == old(fault)
      ensures Inv(Now()) && OneDrained(old(Now()), Now(), s) && BatchGiven(old(Now()), s, Now())
      ensures CanCut(old(Now()), s) ==> Now() == OneCut(old(Now()), s)
    {
      hide Inv, Stirred, Unclaimed, OneDrained, Settled, Detached, Taken, Spent, Linked, Orderly, Onwards, FirstReacted;
      hide Cut, CanCut, OneCut, Stops, BatchGiven;
      ghost var x := Now();
      InvListed(x);
      DetachedKeeps(x, s);
      DetachedOrderly(x, s);
      if CanCut(x, s) { OneCutIs(x, s); }
      Detach(s);
      TakenParts(Now(), s);
      ghost var d := Now();
      DrainImpl(s);
      ghost var z := Now();
      StirredDepth(Taken(Detached(x, s), s), Now());
      InvListed(Now());
      OneDrainedBy(x, Now(), s);
      SettledKeeps(Now());
      Settle();
      SettledSame(z);
      BatchGivenSame(d, s, z, x, Now());
    }

    method Detach(s: SubId)
      requires Linked(List()) && s in chain
      modifies this`drainingDepth, this`chain, this`drainableSubscribers, this`next, this`prev
      ensures Now() == Detached(old(Now()), s)
    {
      hide Linked, Unlinked, Relation, Postings, Lives;
      drainingDepth := drainingDepth + 1;
      UnlinkDrainableSubscriber(s);
    }

    method Settle()
      modifies this`outgoingMessages, this`taker
      ensures Now() == Settled(old(Now()))
    {
      hide Relation, Modes, Lives;
      if drainableSubscribers.None? {
        outgoingMessages := [];
      }
      taker := None;
    }

    /** `drain` while another delivery is going on: `leaveDraining` only counts down. */
    method DrainNested(s: SubId)
      requires Inv(Now()) && s in indices && taker.None? && taking == [] && !sweeping && drainingDepth > 0
      requires Fresh(Postings(), s)
      requires Orderly(Now())
      modifies this
      ensures fault == old(fault)
      ensures Inv(Now()) && Drained(old(Now()), Now(), s)
      ensures CanCut(old(Now()), s) ==> Now() == Shallower(OneCut(old(Now()), s))
    {
      hide Inv, Drained, Fresh, Orderly, CanCut, OneCut;
      ghost var x := Now();
      if |indices[s]| > 0 {
        hide OneDrained;
        DrainOne(s);
        DrainedBack(x, Now(), s);
        ShallowerKeeps(Now());
        drainingDepth := drainingDepth - 1;
      } else {
        DrainedNothing(x, s);
        CanCutMany(x, s);
      }
    }

    /** The loop of `publish` over the members of the topic, and the message they share. */
    method FanOut(sender: Option<SubId>, t: TopicId, message: Payload)
      returns (referenced: bool, ghost reached: set<SubId>)
      requires Inv(Now()) && Ready(Now()) && t in members && (!leaked ==> |outgoingMessages| <= UINT16_MAX)
      modifies this
      ensures fault == old(fault)
      ensures Inv(Now()) && FannedOut(old(Now()), Now(), t, sender, message, reached)
      ensures referenced <==> reached != {}
      ensures forall s: SubId | OnlyVisits(old(Now()), s, t, sender, message) ::
                Now() == VisitedOnly(old(Now()), s, t, sender, message)
    {
      hide Inv, Fanning, FannedOut, Ready, FanStarted, FanEnded, Reached, Drained, Orderly, CanVisit, Visited;
      ghost var start := Now();
      FanStarts(start, t, sender, message);
      StartFan(t, message);
      ghost var x0 := Now();
      referenced, reached := false, {};
      FanningParts(x0, x0, t, sender, message, members[t], {});
      var todo := members[t];
      while todo != {}
        invariant forall s: SubId | OnlyVisits(start, s, t, sender, message) ::
                    if todo == {} then (Now(), referenced) == Visited(x0, s, t, message)
                    else todo == {s} && Now() == x0 && !referenced
        invariant Fanning(x0, Now(), t, sender, message, todo, reached) && (referenced <==> reached != {})
        invariant fault == old(fault)
        decreases todo
      {
        var s :| s in todo;
        var stored := Visit(sender, t, message, s, x0, todo, reached);
        if stored {
          referenced, reached := true, reached + {s};
        }
        todo := todo - {s};
      }
      FanningParts(x0, Now(), t, sender, message, todo, reached);
      FanEnds(x0, Now(), t, sender, message, reached);
      FannedOutBy(start, x0, Now(), t, sender, message, reached);
      EndFan(message, referenced);
    }

    /** One member: its full batch is drained first; the index is stored unless it has left meanwhile. */
    method Visit(sender: Option<SubId>, t: TopicId, message: Payload, s: SubId, ghost x0: Tree, ghost todo: set<SubId>,
                 ghost reached: set<SubId>) returns (stored: bool)
      requires Fanning(x0, Now(), t, sender, message, todo, reached) && s in todo
      modifies this
      ensures fault == old(fault)
      ensures Fanning(x0, Now(), t, sender, message, todo - {s}, if stored then reached + {s} else reached)
      ensures CanVisit(old(Now()), s, t) && Some(s) != sender ==>
                (Now(), stored) == Visited(old(Now()), s, t, message)
    {
      hide Inv, Fanning, Reached, Drained, Orderly, List, CanCut, OneCut;
      FanningParts(x0, Now(), t, sender, message, todo, reached);
      var skip := Some(s) == sender || IsDetached(s, t);
      if !skip && |indices[s]| == MAX_INDICES {
        DrainFull(sender, t, message, s, x0, todo, reached);
        skip := IsDetached(s, t);
      }
      if skip {
        FanSkip(x0, Now(), t, sender, message, todo, reached, s);
        return false;
      }
      FanReach(x0, Now(), t, sender, message, todo, reached, s);
      Reach(s, message);
      return true;
    }

    method DrainFull(sender: Option<SubId>, t: TopicId, message: Payload, s: SubId, ghost x0: Tree,
                     ghost todo: set<SubId>,
                     ghost reached: set<SubId>)
      requires Fanning(x0, Now(), t, sender, message, todo, reached) && s in todo
      requires Some(s) != sender && s in indices && |indices[s]| == MAX_INDICES
      modifies this
      ensures fault == old(fault) && Fanning(x0, Now(), t, sender, message, todo, reached)
      ensures s in indices && |indices[s]| < MAX_INDICES && s in held && s in due
      ensures !pending ==> s !in doomed
      ensures CanCut(old(Now()), s) ==> Now() == Shallower(OneCut(old(Now()), s))
    {
      hide Inv, Fanning, Drained, Orderly, Fresh, List, CanCut, OneCut;
      FanningParts(x0, Now(), t, sender, message, todo, reached);
      ghost var y := Now();
      DrainNested(s);
      FanDrain(x0, y, Now(), t, sender, message, todo, reached, s);
      FanningParts(x0, Now(), t, sender, message, todo, reached);
      DrainedParts(y, Now(), s);
    }

    /** Freed, or no longer holding the topic. */
    predicate IsDetached(s: SubId, t: TopicId)
      reads this`pending, this`doomed, this`held
    {
      pending && (s in doomed || s !in held || t !in held[s])
    }

    method StartFan(t: TopicId, message: Payload)
      modifies this`drainingDepth, this`iteratingTopic, this`inFlight, this`outgoingMessages
      ensures Now() == FanStarted(old(Now()), t, message)
    {
      hide Relation, List, Lives, Modes;
      ghost var p := Postings();
      SetIterating(Some(t), 1);
      SetInFlight([message], []);
      assert p.outgoing + [] == p.outgoing;
    }

    method SetIterating(topic: Option<TopicId>, levels: nat)
      modifies this`drainingDepth, this`iteratingTopic
      ensures Modes() == old(Modes()).(depth := old(Modes()).depth + levels, iterating := topic)
    {
      drainingDepth := drainingDepth + levels;
      iteratingTopic := topic;
    }

    method SetInFlight(messages: seq<Payload>, appended: seq<Payload>)
      modifies this`inFlight, this`outgoingMessages
      ensures Postings() == old(Postings()).(inFlight := messages, outgoing := old(Postings()).outgoing + appended)
    {
      inFlight := messages;
      outgoingMessages := outgoingMessages + appended;
    }

    method EndFan(message: Payload, referenced: bool)
      modifies this`drainingDepth, this`iteratingTopic, this`outgoingMessages, this`inFlight
      ensures Now() == FanEnded(old(Now()), message, referenced)
    {
      hide Relation, List, Lives, Modes;
      SetIterating(None, 0);
      ghost var p := Postings();
      SetInFlight([], if referenced then [message] else []);
      assert p.outgoing + [] == p.outgoing;
    }

    /** The index of the message is stored; the first one puts the subscriber on the list. */
    method Reach(s: SubId, message: Payload)
      requires s in indices && s in due
      modifies this`indices, this`due, this`truncated, this`chain, this`drainableSubscribers, this`next, this`prev
      ensures Now() == Reached(old(Now()), s, message)
    {
      hide Relation, Modes, Lives, ReachedPost, Listing;
      PutFirst(s, |indices[s]| == 0);
      StoreIndex(s, message);
    }

    method StoreIndex(s: SubId, message: Payload)
      requires s in indices && s in due
      modifies this`indices, this`due, this`truncated
      ensures Postings() == old(ReachedPost(Postings(), s, message))
    {
      indices := indices[s := indices[s] + [|outgoingMessages| % 65536]];
      due := due[s := due[s] + [message]];
      truncated := truncated || |outgoingMessages| > UINT16_MAX;
    }

    method PutFirst(s: SubId, first: bool)
      modifies this`chain, this`drainableSubscribers, this`next, this`prev
      ensures List() == old(Listing(List(), s, first))
    {
      if first {
        next := next[s := drainableSubscribers];
        prev := prev[s := None];
        if drainableSubscribers.Some? {
          prev := prev[drainableSubscribers.value := Some(s)];
        }
        drainableSubscribers := Some(s);
        chain := [s] + chain;
      }
    }

    /** The loop of `drain` over the list, which handlers may take subscribers off. */
    method Sweep()
      requires Inv(Now()) && Ready(Now()) && drainableSubscribers.Some?
      modifies this
      ensures fault == old(fault)
      ensures Inv(Now()) && Swept(old(Now()), Now()) && Sweeps(old(Now()), Now())
      ensures old(script) != [] ==> Onwards(SweepReacted(old(Now())), Now())
    {
      hide Inv, Sweeping, Swept, Ready, SweepStarted, SweepEnded, Taken, Stirred, Unclaimed, Spent, Orderly, Onwards;
      hide SweepReacted, FirstReacted, Batched, Sweeps, OneOfBatches, BatchGiven;
      ghost var start := Now();
      ghost var trees, subs: seq<SubId> := [start], [];
      SweepStarts(start);
      SweepFirst(start);
      if start.script != [] { SweepReactedIs(start); }
      StartSweep();
      ghost var x0, pos := Now(), 0;
      var s := drainableSubscribers;
      SweepingParts(x0, x0, s, pos);
      BatchesStart(start);
      while s.Some?
        invariant Sweeping(x0, Now(), s, pos) && pos <= |x0.mode.order| && fault == old(fault)
        invariant pos == 0 ==> Now() == x0 && s == start.links.head
        invariant pos > 0 && start.script != [] ==> Onwards(SweepReacted(start), Now())
        invariant Batched(start, Now(), trees, subs) && outgoingMessages == start.post.outgoing
        decreases |x0.mode.order| - pos
      {
        ghost var x := Now();
        SweepingParts(x0, x, s, pos);
        ghost var j := SweepNext(x, pos);
        var following := next[s.value];
        if s.value !in doomed {
          TakenSweepKeeps(x, s.value);
          DrainImpl(s.value);
          SweepStep(x0, x, Now(), pos, j, s.value);
          SweepReacts(start, x, Now(), s.value, pos);
          ghost var z := Now();
          ForgetTaker();
          BatchesGoOn(start, x0, x, z, s, pos, trees, subs);
          trees, subs := trees[..|subs|] + [x, z], subs + [s.value];
        } else {
          SweepSkip(x0, x, pos, j, s.value);
        }
        s, pos := following, j;
      }
      SweepEnds(start, x0, Now(), pos);
      SweepLasts(start, x0, Now(), pos);
      ghost var z := Now();
      EndSweep();
      SweepEndedSame(z);
      SweepsBy(start, z, Now(), trees, subs);
    }

    method StartSweep()
      modifies this`drainingDepth, this`sweeping, this`order
      ensures Now() == SweepStarted(old(Now()))
    {
      hide Relation, Lives, Postings;
      drainingDepth := drainingDepth + 1;
      sweeping, order := true, chain;
    }

    ghost method ForgetTaker()
      modifies this`taker
      ensures Now() == Forgotten(old(Now()))
    {
      taker := None;
    }

    method EndSweep()
      modifies this`drainableSubscribers, this`chain, this`outgoingMessages, this`sweeping
      ensures Now() == SweepEnded(old(Now()))
    {
      hide Relation, Lives, List, Postings, Modes;
      EmptyList();
      EmptyOutgoing();
      SetSweeping(false);
    }

    method EmptyList()
      modifies this`drainableSubscribers, this`chain
      ensures List() == old(List()).(chain := [], head := None)
    {
      drainableSubscribers, chain := None, [];
    }

    method EmptyOutgoing()
      modifies this`outgoingMessages
      ensures Postings() == old(Postings()).(outgoing := [])
    {
      outgoingMessages := [];
    }

    ghost method SetSweeping(on: bool)
      modifies this`sweeping
      ensures Modes() == old(Modes()).(sweeping := on)
    {
      sweeping := on;
    }

    /** `leaveDraining`: the last level replays what was queued, unless that is what is going on. */
    method LeaveDraining() returns (ghost hs: seq<Handout>)
      requires Inv(Now()) && Unwound(Now())
      modifies this
      ensures Inv(Now()) && Ready(Now()) && Calm(old(Now()), Now()) && Small(old(Now()), Now())
      ensures Blamed(old(fault), fault, old(Now()), Now()) && (fault || Told(old(Now()), Now(), hs))
      ensures old(!pending || applying) ==> outgoingMessages == old(outgoingMessages) && hs == [] && fault == old(fault)
      ensures old(!pending || applying) ==> Now() == Shallower(old(Now()))
      ensures old(pending && !applying) ==> FirstReplayed(ApplyStarted(old(Now())), Now())
      ensures fault || Wound(old(Now()), Now(), hs)
      ensures fault && !old(fault) ==> WoundLoses(old(Now()))
      decreases if applying then 0 else 1, 1
    {
      hide WoundLoses, ReplayLoses;
      hide Inv, Ready, Calm, Small, Applied, Shallower, ApplyStarted, Told, Blamed, FirstReplayed, Wound, ReplayRan;
      ghost var x, was := Now(), fault;
      if pending && !applying {
        LeavingApplies(x);
        StartApplying();
        ghost var y := Now();
        ApplyStartedSame(x);
        hs := ApplyPending();
        if fault && !was { WoundLosesBy(x); }
        CalmApplied(x, Now());
        BlamedSame(was, fault, y, x, Now());
        if !fault {
          ToldSame(y, Now(), x, Now(), hs);
          WoundReplays(x, Now(), hs);
        }
      } else {
        WoundRests(x);
        LeavingRests(x);
        hs := [];
        CountDown();
        LeavingSame(x, Now(), fault);
      }
    }

    method CountDown()
      requires drainingDepth > 0
      modifies this`drainingDepth
      ensures Now() == Shallower(old(Now()))
    {
      hide Relation, List, Postings, Lives;
      drainingDepth := drainingDepth - 1;
    }

    method StartApplying()
      requires drainingDepth > 0
      modifies this`drainingDepth, this`applying
      ensures Now() == ApplyStarted(old(Now()))
    {
      hide Relation, List, Postings, Lives;
      drainingDepth := drainingDepth - 1;
      applying := true;
    }

    /** `applyPending`, from where `applying` has been set: the queue is replayed in the order of the calls, what
      * handlers add to it meanwhile included; then the freed are destroyed. */
    method ApplyPending() returns (ghost hs: seq<Handout>)
      requires Inv(Now()) && Ready(Now()) && applying
      modifies this
      ensures Inv(Now()) && Ready(Now()) && Applied(old(Now()), Now())
      ensures Blamed(old(fault), fault, old(Now()), Now()) && (fault || Told(old(Now()), Now(), hs))
      ensures FirstReplayed(old(Now()), Now()) && (fault || ReplayRan(old(Now()), Now(), hs))
      ensures fault && !old(fault) ==> ReplayLoses(old(Now()))
      decreases 0, 7
    {
      hide ReplayLoses, PublishLoses;
      hide ReplayRan, Trail, HandedOut, ReplayStep;
      hide Inv, Ready, Applied, Replaying, Calm, Small, Crossed, ReplayedTree, WantedByAny, PublishedLater, Winding;
      hide Told, Blamed, Published, FirstReplayed, Onwards;
      ghost var x0, was := Now(), fault;
      ReplayStarts(x0);
      ReplayTold(x0, was);
      hs := [];
      ghost var trail, steps: seq<Option<Handout>> := [x0], [];
      TrailStarts(x0);
      var i := 0;
      while i < |pendingOps|
        invariant fault || (Trail(x0, trail, steps) && hs == HandedOut(steps))
        invariant fault && !was ==> ReplayLoses(x0)
        invariant i == |steps| && |trail| == i + 1 && trail[i] == Now()
        invariant if i == 0 then Now() == x0 else FirstReplayed(x0, Now())
        invariant Replaying(x0, Now(), i) && applying && i <= |pendingOps|
        invariant Blamed(was, fault, x0, Now()) && (fault || Told(x0, Now(), hs))
        decreases |script|, |pendingOps| - i
      {
        ghost var x := Now();
        ReplayingParts(x0, x, i);
        ghost var step, before := None, fault;
        if pendingOps[i].PublishOp? {
          ghost var op := pendingOps[i];
          hs, step := ReplayPublish(i, x0, was, hs);
          ReplayLost(was, before, fault, x0, trail, steps, Ask(op.sender, op.name, op.message));
        } else {
          ReplayToggle(i, x0, was, hs);
        }
        TrailOn(fault, x0, trail, steps, x, step, Now());
        steps := steps + [step];
        if i > 0 { FirstReplayedOn(x0, x, Now()); }
        trail := trail + [Now()];
        i := i + 1;
      }
      EndReplay(i, x0, was, hs, trail, steps);
    }

    /** The end of `applyPending`: the queue is emptied and the freed are destroyed. */
    method EndReplay(ghost i: nat, ghost x0: Tree, ghost was: bool, ghost hs: seq<Handout>, ghost trail: seq<Tree>,
                     ghost steps: seq<Option<Handout>>)
      requires Replaying(x0, Now(), i) && i >= |pendingOps| && applying
      requires if i == 0 then Now() == x0 else FirstReplayed(x0, Now())
      requires Blamed(was, fault, x0, Now()) && (fault || Told(x0, Now(), hs))
      requires fault || (Trail(x0, trail, steps) && hs == HandedOut(steps))
      requires i == |steps| && |trail| == i + 1 && trail[i] == Now()
      modifies this
      ensures (fault || ReplayRan(x0, Now(), hs)) && fault == old(fault)
      ensures Inv(Now()) && Ready(Now()) && Applied(x0, Now()) && FirstReplayed(x0, Now())
      ensures Blamed(was, fault, x0, Now()) && (fault || Told(x0, Now(), hs))
    {
      hide Inv, Ready, Applied, Replaying, Winding, Purged, Cleared, ApplyEnded, Told, Blamed, FirstReplayed, Onwards;
      hide Heard, Trail, HandedOut, ReplayRan, Departed;
      ghost var x := Now();
      ReplayEnds(x0, x, i);
      ForgetOps();
      ghost var y := Now();
      FreePendingSubscribers();
      ghost var z := Now();
      ApplyEnds(x0, y, z);
      EndApplying();
      FirstReplayedLasts(x0, x, z, i);
      if !fault { TrailEnds(x0, Now(), hs, trail, steps, z); }
      EndSame(was, fault, x0, x, y, z, Now(), hs);
    }

    /** One queued call of `publish` is made. */
    method ReplayPublish(i: nat, ghost x0: Tree, ghost was: bool, ghost hs: seq<Handout>)
      returns (ghost more: seq<Handout>, ghost step: Option<Handout>)
      requires Replaying(x0, Now(), i) && applying && i < |pendingOps| && pendingOps[i].PublishOp?
      requires Blamed(was, fault, x0, Now()) && (fault || Told(x0, Now(), hs))
      modifies this
      ensures Replaying(x0, Now(), i + 1) && applying && i + 1 <= |pendingOps|
      ensures |script| < old(|script|) || (|script| == old(|script|) && |pendingOps| == old(|pendingOps|))
      ensures Blamed(was, fault, x0, Now()) && (fault || Told(x0, Now(), more))
      ensures Onwards(old(Now()), Now()) && (i == 0 ==> FirstReplayed(old(Now()), Now()))
      ensures old(fault) ==> fault
      ensures fault || (step.Some? && more == hs + [step.value] && ReplayStep(old(Now()), i, step, Now()))
      ensures var op := old(pendingOps)[i];
              fault && !old(fault) ==> PublishLoses(Crossed(old(Now()), i), Ask(op.sender, op.name, op.message))
      decreases 0, 6
    {
      hide Inv, Ready, Replaying, Calm, Small, Crossed, WantedByAny, PublishedLater, Told, Blamed, Published, Lives,
        List;
      hide Onwards, SolosDone, FirstReplayed, PublishChain, ReplayStep, PublishLoses;
      var op := pendingOps[i];
      ghost var x, before := Now(), fault;
      CrossedKeeps(x0, x, i);
      CrossOut(i);
      ghost var y := Now();
      var _, one, own, _ := Publish(op.sender, op.name, op.message);
      ReplayPublished(x0, x, y, Now(), i);
      if i == 0 { FirstReplayedBy(x, y, Now()); }
      ReplayMore(was, before, fault, x0, x, y, Now(), i + 1, hs, one, own, Ask(op.sender, op.name, op.message));
      more, step := hs + one, None;
      if !fault {
        PublishedOne(y, Now(), one, own, Ask(op.sender, op.name, op.message));
        CallStep(x, y, Now(), i, one, own);
        step := Some(one[0]);
        assert one == [one[0]];
      }
    }

    /** One queued change of a subscription is made. */
    method ReplayToggle(i: nat, ghost x0: Tree, ghost was: bool, ghost hs: seq<Handout>)
      requires Replaying(x0, Now(), i) && applying && i < |pendingOps| && !pendingOps[i].PublishOp?
      requires Blamed(was, fault, x0, Now()) && (fault || Told(x0, Now(), hs))
      modifies this
      ensures Replaying(x0, Now(), i + 1) && applying && script == old(script) && |pendingOps| == old(|pendingOps|)
      ensures Blamed(was, fault, x0, Now()) && (fault || Told(x0, Now(), hs)) && fault == old(fault)
      ensures Onwards(old(Now()), Now()) && (i == 0 ==> FirstReplayed(old(Now()), Now()))
      ensures ReplayStep(old(Now()), i, None, Now())
    {
      hide Inv, Ready, Replaying, Told, Blamed, Lives, List, Onwards, FirstReplayed, ReplayStep, ReplayedTree;
      ghost var x := Now();
      ReplayingParts(x0, x, i);
      ReplayedOnce(x0, x, i);
      ReplayOp(i);
      ChangeStep(x, i);
      ToldOn(was, fault, x0, x, Now(), hs);
      if i == 0 { NoReplayFirst(x, Now()); }
    }

    method CrossOut(i: nat)
      requires i < |pendingOps|
      modifies this`pendingOps, this`answered
      ensures Now() == Crossed(old(Now()), i)
    {
      hide List, Postings, Modes, Publishes;
      CrossOutOp(i);
      answered := answered + Publishes([old(pendingOps)[i]]);
    }

    method CrossOutOp(i: nat)
      requires i < |pendingOps|
      modifies this`pendingOps
      ensures Relation() == old(Relation()).(ops := old(pendingOps)[i := Done])
    {
      pendingOps := pendingOps[i := Done];
    }

    method ForgetOps()
      modifies this`pendingOps
      ensures Now() == Cleared(old(Now()))
    {
      hide List, Postings, Lives, Modes;
      pendingOps := [];
    }

    method EndApplying()
      modifies this`pending, this`applying
      ensures Now() == ApplyEnded(old(Now()))
    {
      hide List, Postings, Lives, Relation;
      pending := false;
      applying := false;
    }

    /** One queued subscription or leaving takes effect on the topic's set. */
    method ReplayOp(i: nat)
      requires i < |pendingOps| && !pendingOps[i].PublishOp? && pending
      requires pendingOps[i].Touches() ==> pendingOps[i].t in members && pendingOps[i].t in names
      requires forall k | 0 <= k < i :: !pendingOps[k].Touches()
      modifies this`topics, this`names, this`members, this`pendingOps
      ensures Now() == ReplayedTree(old(Now()), i)
    {
      hide List, Postings, Lives, Modes;
      ReplayChange(i);
    }

    method ReplayChange(i: nat)
      requires i < |pendingOps| && !pendingOps[i].PublishOp? && pending
      requires pendingOps[i].Touches() ==> pendingOps[i].t in members && pendingOps[i].t in names
      requires forall k | 0 <= k < i :: !pendingOps[k].Touches()
      modifies this`topics, this`names, this`members, this`pendingOps
      ensures Relation() == old(ReplayedRel(Relation(), i))
    {
      var op := pendingOps[i];
      ghost var r := Relation();
      pendingOps := pendingOps[i := Done];
      match op {
        case SubscribeOp(s, t) =>
          members := members[t := members[t] + {s}];
          assert members[t] != {};
          assert Relation() == Replayed(r, i);
        case UnsubscribeOp(s, t) =>
          EraseFromTopic(s, t, i + 1);
        case _ =>
      }
    }

    /** `freePendingSubscribers` */
    method FreePendingSubscribers()
      requires Inv(Now()) && Ready(Now()) && pendingOps == []
      modifies this
      ensures fault == old(fault)
      ensures Inv(Now()) && Ready(Now()) && Purged(old(Now()), Now()) && doomed == {} && pendingOps == []
      ensures Heard(old(Now()), Now()) && Departed(old(Now()), Now(), old(doomed))
    {
      hide Inv, Ready, Purged, Heard, Departed;
      ghost var x, gone := Now(), {};
      NobodyGone(x);
      PurgedSelf(x);
      HeardNothing(x);
      while pendingFree != []
        invariant Inv(Now()) && Ready(Now()) && Purged(x, Now()) && pendingOps == [] && fault == old(fault)
        invariant Heard(x, Now()) && Departed(x, Now(), gone) && gone <= x.life.doomed && doomed == x.life.doomed - gone
        decreases |pendingFree|
      {
        ghost var y := Now();
        FirstDoomed(y);
        DestroySubscriber(pendingFree[0]);
        PurgedTrans(x, y, Now());
        HeardMore(x, y, Now());
        OneMoreGone(x, y, Now(), gone, y.life.pendingFree[0]);
        gone := gone + {y.life.pendingFree[0]};
      }
      NobodyDoomed(Now());
      assert gone == x.life.doomed;
    }

    /** `destroySubscriber`: it leaves its topics, those it was alone in go, and it is forgotten. */
    method DestroySubscriber(s: SubId)
      requires Inv(Now()) && Ready(Now()) && pendingOps == [] && s in held
      requires (s in doomed ==> pendingFree != [] && pendingFree[0] == s)
      modifies this
      ensures fault == old(fault)
      ensures Inv(Now()) && Ready(Now()) && Purged(old(Now()), Now()) && pendingOps == []
      ensures s in old(doomed) ==> Heard(old(Now()), Now())
      ensures Departed(old(Now()), Now(), {s}) && doomed == old(doomed) - {s}
      ensures pendingFree == if s in old(doomed) then old(pendingFree)[1..] else old(pendingFree)
    {
      hide Inv, Ready, Purged, Registered, RelOk, Linked, WithoutSubscriber, Gone, Leaving, Heard, Departed;
      ghost var x := Now();
      InvRegistered(x);
      LeaveAllTopics(s);
      GoneInv(x, Relation(), s);
      GoneFacts(x, Relation(), s);
      GoneWithout(x, Relation(), s);
      DropAndForget(s);
      WithoutDoomed(x, Now(), {s});
    }

    method LeaveAllTopics(s: SubId)
      requires RelOk(Relation()) && s in held && pendingOps == []
      modifies this
      ensures fault == old(fault)
      ensures RelOk(Relation()) && Leaving(old(Relation()), Relation(), s, {})
      ensures Now() == old(Now()).(rel := Relation())
    {
      hide RelOk, Leaving, List, Postings, Modes, Lives;
      LeaveTopics(s);
    }

    method DropAndForget(s: SubId)
      requires Linked(List()) && s in Postings().indices && (|Postings().indices[s]| > 0 ==> s in List().chain)
      modifies this
      ensures fault == old(fault)
      ensures Now() == Gone(old(Now()), s)
    {
      hide Linked, Unlinked, Relation, Lives, Modes, Postings, List, ForgottenPost, ForgottenLife;
      ghost var p := Postings();
      DropIndices(s);
      Forget(s);
      ForgottenTwice(p, s);
    }

    method LeaveTopics(s: SubId)
      requires RelOk(Relation()) && s in held && pendingOps == []
      modifies this`topics, this`names, this`members, this`held
      ensures RelOk(Relation()) && Leaving(old(Relation()), Relation(), s, {})
    {
      hide RelOk, Leaving;
      ghost var r0 := Relation();
      var todo := held[s];
      LeavingStarts(r0, s);
      while todo != {}
        invariant RelOk(Relation()) && Leaving(r0, Relation(), s, todo) && pendingOps == []
        decreases todo
      {
        var t :| t in todo;
        ghost var r := Relation();
        LeavingNext(r0, r, s, todo, t);
        if |members[t]| == 1 {
          topics, names, members := topics - {names[t]}, names - {t}, members - {t};
        } else {
          members := members[t := members[t] - {s}];
        }
        held := held[s := held[s] - {t}];
        todo := todo - {t};
      }
    }

    method Forget(s: SubId)
      modifies this`held, this`indices, this`received, this`due, this`doomed, this`pendingFree
      ensures Relation() == old(Relation()).(held := old(Relation()).held - {s})
      ensures Postings() == old(ForgottenPost(Postings(), s))
      ensures Lives() == old(ForgottenLife(Lives(), s))
    {
      hide Postings, Lives;
      held := held - {s};
      ForgetPost(s);
      ForgetLife(s);
    }

    method ForgetLife(s: SubId)
      modifies this`doomed, this`pendingFree
      ensures Lives() == old(ForgottenLife(Lives(), s))
    {
      if s in doomed {
        pendingFree := pendingFree[if |pendingFree| > 0 then 1 else 0..];
      }
      doomed := doomed - {s};
    }

    method ForgetPost(s: SubId)
      modifies this`indices, this`received, this`due
      ensures Postings() == old(ForgottenPost(Postings(), s))
    {
      indices, received, due := indices - {s}, received - {s}, due - {s};
    }

    /** `drain` for all. */
    method DrainAll() returns (ghost hs: seq<Handout>)
      requires Inv(Now()) && Ready(Now())
      modifies this
      ensures Inv(Now()) && Ready(Now()) && Calm(old(Now()), Now()) && EveryoneServed(old(Now()), Now())
      ensures Blamed(old(fault), fault, old(Now()), Now()) && (fault || Told(old(Now()), Now(), hs))
      ensures fault || AllDrained(old(Now()), Now(), hs)
      ensures fault && !old(fault) ==> DrainAllLoses(old(Now()))
      ensures (old(applying) ==> hs == [])
      ensures old(drainableSubscribers).Some? && old(script) != [] ==> Onwards(SweepReacted(old(Now())), Now())
      ensures old(drainableSubscribers).None? ==> Now() == old(Now()) && fault == old(fault) && hs == []
      ensures !leaked ==> |outgoingMessages| <= UINT16_MAX
      ensures !leaked && old(applying) ==> outgoingMessages == []
      decreases if applying then 0 else 1, 2
    {
      hide Inv, Ready, Calm, Small, Swept, Sweeps, Linked, Told, Blamed, EveryoneServed, Onwards, SweepReacted, Wound;
      hide AllDrained, WoundLoses, DrainAllLoses;
      ghost var x, was := Now(), fault;
      NobodyDrained(x);
      if drainableSubscribers.Some? {
        Sweep();
        ghost var y := Now();
        SweptParts(x, y);
        hs := LeaveDraining();
        CalmSwept(x, y, Now());
        SweptTold(was, fault, x, y, Now(), hs);
        SweptServed(x, y, Now());
        if !fault { DrainedBoth(x, y, Now(), hs); }
        if fault && !was { DrainAllLosesBy(x, y); }
        if x.script != [] { CalmOnwards(SweepReacted(x), y, Now()); }
      } else {
        hs := [];
        NobodyListed(x);
        CalmSelf(x);
        ReplayTold(x, was);
        NobodyServed(x);
      }
    }

    /** The shared vector is full: everyone is drained.  The topic looked up before may be erased by that; the source
      * goes on with its address, which is where its behaviour ends to be defined. */
    method MakeRoom(t: TopicId) returns (ok: bool, ghost hs: seq<Handout>)
      requires Inv(Now()) && Ready(Now()) && t in members
      modifies this
      ensures Inv(Now()) && Ready(Now()) && Calm(old(Now()), Now()) && (!leaked ==> |outgoingMessages| <= UINT16_MAX)
      ensures old(applying) && !leaked ==> |outgoingMessages| < UINT16_MAX
      ensures ok <==> t in members
      ensures !ok ==> fault && !old(HasRoom(Now()))
      ensures Blamed(old(fault), fault, old(Now()), Now()) && (fault || Told(old(Now()), Now(), hs))
      ensures fault || RoomMade(old(Now()), Now(), hs)
      ensures fault && !old(fault) ==>
                LosesTopic(old(Now()), t) || (!old(HasRoom(Now())) && DrainAllLoses(old(Now())))
      ensures (old(applying) ==> hs == [])
      ensures old(HasRoom(Now())) ==> Now() == old(Now()) && hs == [] && ok
      ensures old(script != [] && !HasRoom(Now())) ==>
                Onwards(SweepReacted(old(Now())), Now())
      decreases if applying then 0 else 1, 3
    {
      hide Inv, Ready, Calm, Told, Blamed, EveryoneServed, Onwards, SweepReacted, AllDrained, LosesTopic, DrainAllLoses;
      ghost var x, was := Now(), fault;
      CalmSelf(x);
      ReplayTold(x, was);
      hs := [];
      if |outgoingMessages| >= UINT16_MAX {
        hs := DrainAll();
      }
      ok := t in members;
      if !ok {
        ghost var before := fault;
        fault := true;
        LostTopic(was, before, x, Now(), t);
        if !before { LosesTopicBy(x, Now(), hs, t); }
      }
    }

    /** `publish`: queued while messages are delivered, otherwise handed out to the members of the topic, between what
      * the drain for room and the end of the delivery replay; `erased` if the topic did not outlive the drain. */
    method Publish(sender: Option<SubId>, name: string, message: Payload)
      returns (referenced: bool, ghost hs: seq<Handout>, ghost own: nat, ghost erased: bool)
      requires Inv(Now()) && (drainingDepth == 0 ==> Ready(Now()))
      modifies this
      ensures Inv(Now()) && Blamed(old(fault), fault, old(Now()), Now())
      ensures old(drainingDepth) > 0 ==>
                && Now() == PublishedLater(old(Now()), sender, name, message) && fault == old(fault) && !erased
                && (referenced <==> WantedByAny(old(Now()), sender, name))
      ensures old(drainingDepth) == 0 ==>
                Ready(Now()) && Calm(old(Now()), Now()) && (old(applying) ==> Small(old(Now()), Now()))
      ensures old(drainingDepth) == 0 && !fault ==>
                && Published(old(Now()), Now(), hs, own, Ask(sender, name, message))
                && (referenced <==> hs[own].reached != {})
      ensures erased ==> fault && !referenced && !old(HasRoom(Now()))
      ensures old(drainingDepth == 0 && Full(Now(), name) && script != []) ==>
                (old(topics)[name] !in SweepReacted(old(Now())).rel.members ==> erased)
      ensures old(drainingDepth) == 0 ==> SolosDone(old(Now()), Now(), Ask(sender, name, message))
      ensures old(drainingDepth) == 0 ==> fault || PublishChain(old(Now()), Now(), hs, own, Ask(sender, name, message))
      ensures old(drainingDepth) == 0 && fault && !old(fault) ==> PublishLoses(old(Now()), Ask(sender, name, message))
      decreases if applying then 0 else 1, 5
    {
      hide Inv, Ready, Calm, Small, WantedByAny, PublishedLater, Told, Blamed, Published, HandoutOk, Onwards,
        SweepReacted;
      hide SolosDone, PublishChain, PublishLoses;
      hide Lives, Modes;
      ghost var x, ask := Now(), Ask(sender, name, message);
      CalmSelf(x);
      InvRegistered(x);
      ReplayTold(x, fault);
      hs, own, erased := [], 0, false;
      SoloParts(x, ask);
      if drainingDepth > 0 {
        PublishedLaterBlamed(x, sender, name, message, fault);
        referenced := PublishLater(sender, name, message);
        return;
      }
      if name !in topics {
        PublishedToNobody(x, ask);
        ChainToNobody(x, ask);
        hs := [Handout(x, x, ask, {}, false)];
        return false, hs, 0, false;
      }
      referenced, hs, own, erased := PublishNow(sender, name, message);
    }

    method PublishNow(sender: Option<SubId>, name: string, message: Payload)
      returns (referenced: bool, ghost hs: seq<Handout>, ghost own: nat, ghost erased: bool)
      requires Inv(Now()) && Ready(Now()) && name in topics && topics[name] in members
      modifies this
      ensures Inv(Now()) && Blamed(old(fault), fault, old(Now()), Now())
      ensures Ready(Now()) && Calm(old(Now()), Now()) && (old(applying) ==> Small(old(Now()), Now()))
      ensures !fault ==>
                && Published(old(Now()), Now(), hs, own, Ask(sender, name, message))
                && (referenced <==> hs[own].reached != {})
      ensures erased ==> fault && !referenced && !old(HasRoom(Now()))
      ensures old(Full(Now(), name) && script != []) ==>
                (old(topics)[name] !in SweepReacted(old(Now())).rel.members ==> erased)
      ensures SolosDone(old(Now()), Now(), Ask(sender, name, message))
      ensures fault || PublishChain(old(Now()), Now(), hs, own, Ask(sender, name, message))
      ensures fault && !old(fault) ==> PublishLoses(old(Now()), Ask(sender, name, message))
      decreases if applying then 0 else 1, 4
    {
      hide Inv, Ready, Calm, Small, Told, Blamed, Published, Onwards, SweepReacted, Spent, SolosDone, PublishChain;
      hide RoomMade, Lives, List, PublishLoses, LosesTopic, DrainAllLoses;
      ghost var x, was, ask := Now(), fault, Ask(sender, name, message);
      own, erased := 0, false;
      var t := topics[name];
      var ok;
      ok, hs := MakeRoom(t);
      ghost var y := Now();
      CalmApplying(x, y);
      if fault && !was { RoomLosesBy(x, ask); }
      if !ok {
        SoloParts(x, ask);
        return false, hs, 0, true;
      }
      if Full(x, name) && x.script != [] && t !in SweepReacted(x).rel.members {
        StaysErased(x, y, t);
      }
      referenced, hs, own := PublishTo(sender, name, message, t, x, was, hs);
    }

    /** With room made, the message is handed out and what is queued meanwhile replayed. */
    method PublishTo(sender: Option<SubId>, name: string, message: Payload, t: TopicId, ghost x: Tree, ghost was: bool,
                     ghost room: seq<Handout>)
      returns (referenced: bool, ghost hs: seq<Handout>, ghost own: nat)
      requires Inv(Now()) && Ready(Now()) && t in members && (!leaked ==> |outgoingMessages| <= UINT16_MAX)
      requires Inv(x) && name in x.rel.topics && x.rel.topics[name] == t && t in x.rel.members && Calm(x, Now())
      requires Blamed(was, fault, x, Now()) && (fault || (Told(x, Now(), room) && RoomMade(x, Now(), room)))
      requires applying == x.mode.applying && (applying ==> room == [] && (!leaked ==> |outgoingMessages| < UINT16_MAX))
      requires HasRoom(x) ==> Now() == x && room == []
      modifies this
      ensures Inv(Now()) && Blamed(was, fault, x, Now())
      ensures Ready(Now()) && Calm(x, Now()) && (x.mode.applying ==> Small(x, Now()))
      ensures !fault ==>
                && Published(x, Now(), hs, own, Ask(sender, name, message)) && (referenced <==> hs[own].reached != {})
                && PublishChain(x, Now(), hs, own, Ask(sender, name, message))
      ensures SolosDone(x, Now(), Ask(sender, name, message))
      ensures fault && !old(fault) ==> PublishLoses(x, Ask(sender, name, message))
      decreases if applying then 0 else 1, 3, 1
    {
      hide Inv, Ready, Calm, Small, FannedOut, Told, Blamed, Published, HandoutOk, Onwards, Spent;
      hide SolosDone, OnlyVisits, VisitedOnly, Left, PublishChain, RoomMade, Wound, OwnHandout;
      hide Lives, Rests, List, PublishLoses, WoundLoses;
      ghost var y, before, ask := Now(), fault, Ask(sender, name, message);
      ghost var h, more;
      referenced, h, more := HandOut(sender, t, message, ask);
      SoloDoneBy(x, y, h.after, Now(), ask);
      CalmFanned(x, y, h.after, Now(), t, sender, message, h.reached);
      BlamedAll(was, before, fault, x, y, h.after, Now(), t, ask, h.reached);
      hs, own := room + [h] + more, |room|;
      if !fault {
        PublishStory(x, Now(), room, h, more, t);
      } else if !before {
        OwnLosesBy(x, room, h, t);
      }
    }

    /** The second half of `publish`: the loop over the members, and what is replayed after it. */
    method HandOut(sender: Option<SubId>, t: TopicId, message: Payload, ghost ask: Ask)
      returns (referenced: bool, ghost h: Handout, ghost more: seq<Handout>)
      requires Inv(Now()) && Ready(Now()) && t in members && (!leaked ==> |outgoingMessages| <= UINT16_MAX)
      requires ask.sender == sender && ask.message == message
      modifies this
      ensures Inv(Now()) && Ready(Now()) && h == Handout(old(Now()), h.after, ask, h.reached, false) && Inv(h.after)
      ensures FannedOut(h.before, h.after, t, sender, message, h.reached) && (referenced <==> h.reached != {})
      ensures Calm(h.after, Now()) && Small(h.after, Now()) && Blamed(old(fault), fault, h.after, Now())
      ensures (fault || Told(h.after, Now(), more)) && (old(applying) ==> more == []) && Rests(h, Now())
      ensures forall s: SubId | OnlyVisits(old(Now()), s, t, sender, message) ::
                h.after == VisitedOnly(old(Now()), s, t, sender, message)
      ensures Left(h.after, Now()) && h.after.mode.applying == old(applying)
      ensures (fault || Wound(h.after, Now(), more)) && (fault && !old(fault) ==> WoundLoses(h.after))
      decreases if applying then 0 else 1, 3, 0
    {
      hide OnlyVisits, VisitedOnly, FirstReplayed, Wound, WoundLoses;
      hide Inv, Ready, Calm, Small, FannedOut, Told, Blamed, Lives, Relation, Unwound;
      ghost var y, reached := Now(), {};
      referenced, reached := FanOut(sender, t, message);
      ghost var z := Now();
      FannedParts(y, z, t, sender, message, reached);
      more := LeaveDraining();
      h := Handout(y, z, ask, reached, false);
    }

    /** A full vector and someone to drain: some handler makes `publish` meet an erased topic. */
    method PublishIntoTheVoid(sender: Option<SubId>, name: string, message: Payload, ms: seq<SubId>)
      requires Inv(Now()) && AtEase(Now()) && Full(Now(), name) && topics[name] in members
      requires forall i, j :: 0 <= i < j < |ms| ==> ms[i] != ms[j]
      requires forall s :: s in ms <==> s in members[topics[name]]
      modifies this
      ensures fault
    {
      hide Inv, AtEase, SweepReacted, Onwards, Published, Calm, Small, Blamed;
      SomeHandlerErases(Now(), name, ms, false);
      script := [Reaction(Leaves(ms, name), false)];
      var _, _, _, _ := Publish(sender, name, message);
    }

    /** `drain` for one subscriber, between deliveries. */
    method Drain(s: SubId) returns (ghost hs: seq<Handout>)
      requires Inv(Now()) && Ready(Now()) && s in indices
      modifies this
      ensures Inv(Now()) && Ready(Now()) && Calm(old(Now()), Now()) && Served(old(Now()), Now(), s)
      ensures (fault || DrainChain(old(Now()), Now(), s, hs)) && (fault && !old(fault) ==> DrainLoses(old(Now()), s))
      ensures Blamed(old(fault), fault, old(Now()), Now()) && (fault || Told(old(Now()), Now(), hs))
      ensures (old(applying) ==> hs == [])
    {
      hide Inv, Ready, Calm, Small, OneDrained, Fresh, Orderly, Told, Blamed, Served, Wound, BatchGiven;
      hide WoundLoses, DrainLoses;
      ghost var x, was := Now(), fault;
      CalmSelf(x);
      AllFresh(x);
      NothingWaits(x);
      ReplayTold(x, was);
      hs := [];
      if |indices[s]| > 0 {
        DrainOne(s);
        ghost var y := Now();
        OneDrainedParts(x, y, s);
        hs := LeaveDraining();
        CalmDrained(x, y, Now(), s);
        if fault && !was { DrainLosesBy(x, y, s); }
        DrainedTold(was, fault, x, y, Now(), s, hs);
      } else {
        NothingServed(x, s);
      }
    }

    /** `freeSubscriber` */
    method FreeSubscriber(s: SubId)
      requires Inv(Now()) && s in held && s !in doomed && (drainingDepth == 0 && !applying ==> Ready(Now()))
      modifies this
      ensures fault == old(fault)
      ensures Inv(Now())
      ensures old(drainingDepth > 0 || applying) ==>
                Linked(old(List())) && s in old(indices) && Now() == FreedLater(old(Now()), s)
      ensures !old(drainingDepth > 0 || applying) ==>
                Ready(Now()) && Departed(old(Now()), Now(), {s}) && Purged(old(Now()), Now())
    {
      hide Inv, Ready, FreedLater, Departed, Linked, Purged;
      InvListed(Now());
      if drainingDepth > 0 || applying {
        FreeLater(s);
      } else {
        NothingQueued(Now());
        DestroySubscriber(s);
      }
    }

    /** The loop of `publishBig`: each member's socket first sends what its indices keep, then the big message. */
    method FanBig(sender: Option<SubId>, t: TopicId, big: Payload) returns (ghost reached: set<SubId>)
      requires Inv(Now()) && Ready(Now()) && t in members
      modifies this
      ensures fault == old(fault)
      ensures Inv(Now()) && Unwound(Now()) && applying == old(applying)
      ensures BigOut(old(Now()), Now(), t, sender, big, reached)
    {
      hide Inv, FanningBig, Ready, BigStarted, BigEnded, Handed, Drained, BigOut;
      ghost var start := Now();
      BigStarts(start, t, sender, big);
      StartBig(t);
      ghost var x0 := Now();
      reached := {};
      BigParts(x0, x0, t, sender, big, members[t], {});
      var todo := members[t];
      while todo != {}
        invariant FanningBig(x0, Now(), t, sender, big, todo, reached) && fault == old(fault)
        decreases todo
      {
        var s :| s in todo;
        BigParts(x0, Now(), t, sender, big, todo, reached);
        if Some(s) == sender || IsDetached(s, t) {
          BigSkip(x0, Now(), t, sender, big, todo, reached, s);
        } else {
          ghost var y := Now();
          DrainNested(s);
          BigDrain(x0, y, Now(), t, sender, big, todo, reached, s);
          BigHand(x0, Now(), t, sender, big, todo, reached, s);
          Hand(s, big);
          reached := reached + {s};
        }
        todo := todo - {s};
      }
      BigEnds(start, x0, Now(), t, sender, big, reached);
      EndBig();
    }

    method StartBig(t: TopicId)
      modifies this`drainingDepth, this`iteratingTopic
      ensures Now() == BigStarted(old(Now()), t)
    {
      hide Relation, List, Lives, Modes, Postings;
      SetIterating(Some(t), 1);
    }

    method EndBig()
      modifies this`drainingDepth, this`iteratingTopic
      ensures Now() == BigEnded(old(Now()))
    {
      hide Relation, List, Lives, Modes, Postings;
      SetIterating(None, 0);
    }

    method Hand(s: SubId, big: Payload)
      requires s in received && s in due
      modifies this`received, this`due
      ensures Now() == Handed(old(Now()), s, big)
    {
      hide Relation, List, Modes, Lives;
      received := received[s := received[s] + [big]];
      due := due[s := due[s] + [big]];
    }

    /** `publishBig`, refused while messages are delivered. */
    method PublishBig(sender: Option<SubId>, name: string, big: Payload) returns (ok: bool, ghost hs: seq<Handout>)
      requires Inv(Now()) && (drainingDepth == 0 ==> AtEase(Now()))
      modifies this
      ensures Inv(Now()) && ok == (name in old(topics) && old(drainingDepth) == 0)
      ensures old(drainingDepth) == 0 ==> AtEase(Now())
      ensures !ok ==> Now() == old(Now()) && fault == old(fault)
      ensures ok ==> Blamed(old(fault), fault, old(Now()), Now()) && |script| <= old(|script|)
      ensures ok && !fault ==> PublishedBig(old(Now()), Now(), hs, Ask(sender, name, big))
      ensures ok && !fault ==> BigChain(old(Now()), Now(), hs, Ask(sender, name, big))
      ensures fault && !old(fault) ==> BigLoses(old(Now()), Ask(sender, name, big))
    {
      hide Inv, Ready, BigOut, Calm, Small, Unwound, Told, Blamed, PublishedBig, Wound, WoundLoses, BigLoses;
      InvRegistered(Now());
      hs := [];
      if name !in topics || drainingDepth > 0 {
        return false, hs;
      }
      ghost var x, was := Now(), fault;
      ghost var reached := FanBig(sender, topics[name], big);
      ghost var y := Now();
      UnwoundDepth(y);
      ghost var more := LeaveDraining();
      CalmApplying(y, Now());
      ghost var h := Handout(x, y, Ask(sender, name, big), reached, true);
      BigBlamed(was, fault, h, Now());
      if fault && !was { BigLosesBy(h); }
      if !fault {
        PublishedBigBy(h, Now(), more);
        assert ([h] + more)[1..] == more;
      }
      return true, [h] + more;
    }

    method WantsMessage(sender: Option<SubId>, name: string) returns (wanted: bool)
      requires Inv(Now())
      ensures wanted <==> WantedByAny(Now(), sender, name)
    {
      hide Inv, RelOk, Registered;
      InvRegistered(Now());
      if name !in topics {
        return false;
      }
      ghost var x := Now();
      var t := topics[name];
      if !pending {
        forall s | s in members[t] ensures s in held && t in held[s] && s !in doomed { NobodyDetached(x, s, t); }
      }
      wanted := exists s ::
        s in members[t] && Some(s) != sender && !(pending && (s in doomed || s !in held || t !in held[s]));
      assert wanted <==> exists s :: s in members[t] && Wanted(x, sender, s, t);
    }
  }

  method CreateTwo() returns (tree: TopicTree)
    ensures fresh(tree) && Inv(tree.Now()) && tree.Now() == Two() && !tree.fault
  {
    hide Inv, Ready, RelOk, Registered;
    tree := new TopicTree([]);
    var _ := tree.CreateSubscriber();
    var _ := tree.CreateSubscriber();
  }

  method SubscribeAt(tree: TopicTree, ghost x: Tree, s: SubId, name: string)
    requires Inv(x) && tree.Now() == x && Registered(x.rel) && Alive(x, s)
    requires ToggleAllowed(x.rel, x.mode.iterating, s, name)
    modifies tree
    ensures Inv(tree.Now()) && tree.Now() == Subscribed(x, s, name) && tree.fault == old(tree.fault)
  {
    hide Inv, Registered, Alive, Subscribed;
    assert tree.Relation() == x.rel && tree.iteratingTopic == x.mode.iterating;
    var _ := tree.Subscribe(s, name);
  }

  /** Two subscribers, one topic each. */
  method SetUp() returns (tree: TopicTree)
    ensures fresh(tree) && Inv(tree.Now()) && tree.Now() == Busy() && !tree.fault
  {
    hide Inv, Registered, Subscribed, Two, Waiting;
    tree := CreateTwo();
    WaitingIs();
    SubscribeAt(tree, Two(), 0, "waiting");
    SubscribeAt(tree, Waiting(), 1, "busy");
  }

  method FillOne(tree: TopicTree, message: Payload)
    requires Inv(tree.Now()) && AtEase(tree.Now()) && tree.Now().rel == Busy().rel && !tree.leaked && 0 in tree.chain
    requires tree.script == [] && !tree.fault && |tree.outgoingMessages| < UINT16_MAX
    modifies tree
    ensures Inv(tree.Now()) && AtEase(tree.Now()) && tree.Now().rel == Busy().rel && !tree.leaked && 0 in tree.chain
    ensures tree.script == [] && !tree.fault && tree.outgoingMessages == old(tree.outgoingMessages) + [message]
  {
    hide Inv, Published, Calm, Busy, RelOk, PublishChain, SolosDone, PublishLoses;
    ghost var x := tree.Now();
    var _, hs, own, _ := tree.Publish(None, "busy", message);
    OneMore(x, tree.Now(), hs, own, Ask(None, "busy", message), 0);
  }

  method FillFirst(message: Payload) returns (tree: TopicTree)
    ensures fresh(tree)
    ensures Inv(tree.Now()) && AtEase(tree.Now()) && tree.Now().rel == Busy().rel && !tree.leaked && 0 in tree.chain
    ensures tree.script == [] && !tree.fault && tree.outgoingMessages == [message]
  {
    hide Inv, Published, Calm, Busy, RelOk, PublishChain, SolosDone, PublishLoses;
    tree := SetUp();
    ghost var x := tree.Now();
    var _, hs, own, _ := tree.Publish(None, "waiting", message);
    OneWaits(x, tree.Now(), hs, own, Ask(None, "waiting", message), 0);
    assert [] + [message] == [message];
  }

  /** One message waits for the first; the rest goes to the second until the vector is full. */
  method FillUp(message: Payload) returns (tree: TopicTree)
    ensures fresh(tree) && Inv(tree.Now()) && AtEase(tree.Now()) && tree.Now().rel == Busy().rel
    ensures tree.drainableSubscribers.Some? && |tree.outgoingMessages| == UINT16_MAX
    ensures tree.script == [] && !tree.leaked && forall m :: m in tree.outgoingMessages ==> m == message
  {
    hide Inv, AtEase, Busy, Linked;
    tree := FillFirst(message);
    while |tree.outgoingMessages| < UINT16_MAX
      invariant Inv(tree.Now()) && AtEase(tree.Now()) && tree.Now().rel == Busy().rel && !tree.leaked
      invariant tree.script == [] && !tree.fault && |tree.outgoingMessages| <= UINT16_MAX
      invariant 0 in tree.chain && forall m :: m in tree.outgoingMessages ==> m == message
      decreases UINT16_MAX - |tree.outgoingMessages|
    {
      FillOne(tree, message);
    }
    InvListed(tree.Now());
    HeadIsFirst(tree.List());
  }

  /** From an empty tree, with nothing but calls, to one whose vector is full; the next message is handed to a handler
    * that has everyone leave its topic, and `publish` goes on with a topic that is gone. */
  method MeetErased(message: Payload) returns (tree: TopicTree)
    ensures tree.fault
  {
    hide Inv, AtEase;
    tree := FillUp(message);
    assert tree.Relation() == Busy().rel;
    tree.PublishIntoTheVoid(None, "busy", message, [1]);
  }

  method PublishAt(tree: TopicTree, ghost x: Tree, name: string, message: Payload)
    requires Inv(x) && tree.Now() == x && AtEase(x)
    modifies tree
    ensures Inv(tree.Now())
    ensures SolosDone(x, tree.Now(), Ask(None, name, message))
  {
    hide Inv, SolosDone, Published, Calm, Small, Told, Blamed, PublishChain;
    var _, _, _, _ := tree.Publish(None, name, message);
  }

  /** As many messages wait for each of the two as can. */
  method FillBoth(message: Payload) returns (tree: TopicTree)
    ensures fresh(tree) && Filled(tree.Now(), MAX_INDICES, MAX_INDICES)
  {
    hide Inv, SolosDone, Busy, Filled;
    tree := SetUp();
    BusyIsFilled();
    for i := 0 to MAX_INDICES
      invariant fresh(tree) && Filled(tree.Now(), i, 0)
    {
      ghost var x := tree.Now();
      FilledAtEase(x, i, 0);
      PublishAt(tree, x, "waiting", message);
      FillsOn(x, i, 0, 0, Ask(None, "waiting", message), tree.Now());
    }
    for j := 0 to MAX_INDICES
      invariant fresh(tree) && Filled(tree.Now(), MAX_INDICES, j)
    {
      ghost var x := tree.Now();
      FilledAtEase(x, MAX_INDICES, j);
      PublishAt(tree, x, "busy", message);
      FillsOn(x, MAX_INDICES, j, 1, Ask(None, "busy", message), tree.Now());
    }
  }

  /** From an empty tree, with nothing but calls, to a handler that subscribes during a replay, while the change that
    * left the same topic is still queued: made at once, as the source does, it breaks the relation. */
  method MeetQueued(message: Payload) returns (tree: TopicTree)
    ensures FirstMiss(tree.missed, 0, 2)
  {
    hide Inv, SolosDone, Filled, FirstMiss, Leaver;
    tree := FillBoth(message);
    ghost var was := tree.Now();
    tree.script := [Leaver(message), RETURNER];
    ghost var x := tree.Now();
    assert x == was.(script := x.script);
    FilledScript(was, x);
    PublishAt(tree, x, "waiting", message);
    LeadsToMiss(x, Ask(None, "waiting", message), tree.Now());
  }
}
