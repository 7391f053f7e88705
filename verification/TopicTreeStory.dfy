/** What the tree hands out over a call and over runs: the messages given to whom, in what order, and what the first
  * handler to be called can do to a topic that is about to be published to. */
module TopicTreeStory {
  import opened Bytes
  import opened TopicRelation
  import opened IntrusiveList
  import opened TopicTreeState

  // ---------------------------------------------------------------- hand-outs

  /** One message handed out to the members of a topic, stored or big, and the trees before and after. */
  datatype Handout = Handout(before: Tree, after: Tree, ask: Ask, reached: set<SubId>, big: bool)

  /** It went to those it was meant for; a name that is no topic goes to nobody. */
  ghost predicate HandoutOk(h: Handout)
  {
    && Inv(h.before) && Inv(h.after)
    && if h.ask.name !in h.before.rel.topics then h.reached == {} && h.after == h.before
       else
         var t := h.before.rel.topics[h.ask.name];
         if h.big then BigOut(h.before, h.after, t, h.ask.sender, h.ask.message, h.reached)
         else FannedOut(h.before, h.after, t, h.ask.sender, h.ask.message, h.reached)
  }

  /** What a subscriber was given by them, in order. */
  function GivenBy(hs: seq<Handout>, s: SubId): seq<Payload>
  {
    if hs == [] then [] else
      var h := hs[|hs| - 1];
      GivenBy(hs[..|hs| - 1], s) + if s in h.reached then [h.ask.message] else []
  }

  function Asks(hs: seq<Handout>): (asks: seq<Ask>)
    ensures |asks| == |hs| && forall i {:trigger asks[i]} | 0 <= i < |hs| :: asks[i] == hs[i].ask
  {
    seq(|hs|, i requires 0 <= i < |hs| => hs[i].ask)
  }

  /** From `a` to `b` just these messages were published, to everyone who is still there. */
  ghost predicate Story(a: Tree, b: Tree, hs: seq<Handout>)
  {
    && (forall h :: h in hs ==> HandoutOk(h))
    && forall s :: s in b.post.due ==> s in a.post.due && b.post.due[s] == a.post.due[s] + GivenBy(hs, s)
  }

  lemma {:induction false} GivenByConcat(x: seq<Handout>, y: seq<Handout>, s: SubId)
    ensures GivenBy(x + y, s) == GivenBy(x, s) + GivenBy(y, s)
    decreases |y|
  {
    if y == [] {
      assert x + y == x;
    } else {
      var n := |y| - 1;
      assert (x + y)[..|x + y| - 1] == x + y[..n];
      GivenByConcat(x, y[..n], s);
      Assoc3(GivenBy(x, s), GivenBy(y[..n], s), if s in y[n].reached then [y[n].ask.message] else []);
    }
  }

  lemma StoryTrans(a: Tree, b: Tree, c: Tree, x: seq<Handout>, y: seq<Handout>)
    requires Story(a, b, x) && Story(b, c, y)
    ensures Story(a, c, x + y)
  {
    hide HandoutOk, GivenBy;
    forall s | s in c.post.due ensures s in a.post.due && c.post.due[s] == a.post.due[s] + GivenBy(x + y, s) {
      GivenByConcat(x, y, s);
      Assoc3(a.post.due[s], GivenBy(x, s), GivenBy(y, s));
    }
  }

  /** Nothing was published. */
  lemma StoryNone(a: Tree, b: Tree)
    requires forall s :: s in b.post.due ==> s in a.post.due && b.post.due[s] == a.post.due[s]
    ensures Story(a, b, []) && Asks([]) == []
  {
  }

  lemma StoryOne(h: Handout)
    requires HandoutOk(h)
    ensures Story(h.before, h.after, [h]) && Asks([h]) == [h.ask]
  {
    assert [h][..0] == [];
    forall s | s in h.after.post.due
      ensures s in h.before.post.due && h.after.post.due[s] == h.before.post.due[s] + GivenBy([h], s)
    {
      assert GivenBy([], s) == [] && GivenBy([h], s) == if s in h.reached then [h.ask.message] else [];
      assert h.before.post.due[s] + [] == h.before.post.due[s];
    }
  }

  /** If no handler reacted, a message went to every member but the sender. */
  lemma UndisturbedReach(h: Handout)
    requires HandoutOk(h) && AtEase(h.before) && h.ask.name in h.before.rel.topics
    requires |h.after.script| == |h.before.script|
    ensures var t := h.before.rel.topics[h.ask.name];
            t in h.before.rel.members && h.reached == set s | s in h.before.rel.members[t] && Some(s) != h.ask.sender
  {
    hide Inv, Onwards;
    NothingWaits(h.before);
  }

  // ---------------------------------------------------------------- what has been received

  /** What was due to a subscriber has been received by it, unless it stopped a batch, is freed, or an index did not
    * fit. */
  ghost predicate Served(a: Tree, b: Tree, s: SubId)
  {
    s in a.post.due && s in b.rel.held && s !in b.life.doomed && s !in b.post.stoppers && !b.post.truncated ==>
      s in b.post.received && a.post.due[s] <= b.post.received[s]
  }

  /** With no index left, everything due has been received. */
  lemma ServedNow(a: Tree, b: Tree, s: SubId)
    requires Inv(b) && b.post.due == a.post.due && b.post.taker.None? && s in b.post.indices && b.post.indices[s] == []
    ensures Served(a, b, s)
  {
    hide RelOk, Listed, Bounded, InOrder;
    if s in b.rel.held && s !in b.life.doomed && s !in b.post.stoppers && !b.post.truncated {
      assert InOrder(b, s);
      AllReceived(b, s);
    }
  }

  /** And stays received. */
  lemma ServedLater(a: Tree, b: Tree, c: Tree, s: SubId)
    requires Served(a, b, s) && Onwards(b, c) && Inv(c)
    ensures Served(a, c, s)
  {
    hide RelOk, Listed, Bounded, Delivering, Flags, Tidy;
  }

  /** Between deliveries everything handlers published has been answered. */
  lemma EverythingAnswered(x: Tree)
    requires Inv(x) && AtEase(x)
    ensures x.life.asked == x.life.answered && Publishes(x.rel.ops) == []
  {
    hide Inv;
    NothingWaits(x);
    InvAnswers(x);
  }

  // ---------------------------------------------------------------- what a reaction comes to

  /** The actions of one reaction, one after the other. */
  ghost function ActedAll(x: Tree, actions: seq<Action>): (y: Tree)
    requires Inv(x) && x.mode.depth > 0 && Orderly(x)
    ensures Inv(y) && Stirred(x, y) && Steady(x, y) && y.script == x.script
    decreases |actions|
  {
    if actions == [] then
      StirredSelf(x);
      x
    else
      ActedKeeps(x, actions[0]);
      var y := Acted(x, actions[0]);
      ActedDepth(x, y);
      var z := ActedAll(y, actions[1..]);
      StirredTrans(x, y, z);
      SteadyTrans(x, y, z);
      z
  }

  lemma ActedDepth(x: Tree, y: Tree)
    requires Stirred(x, y) && Orderly(x)
    ensures y.mode.depth == x.mode.depth && Orderly(y)
  {
    hide Orderly, Onwards;
  }

  /** The handler of `s` has got the first message of its batch, and reacted. */
  ghost function FirstReacted(x: Tree, s: SubId): (y: Tree)
    requires s in x.post.indices && Inv(Taken(x, s)) && Orderly(x) && x.mode.depth > 0 && s in x.post.received
    requires |x.post.indices[s]| > 0 && |x.script| > 0
    ensures Inv(y)
  {
    var taken := Taken(x, s);
    NextOfBatch(taken, s);
    var given := Given(taken, s, x.post.outgoing[x.post.indices[s][0]]);
    ScriptFree(given, x.script[1..]);
    ActedAll(given.(script := x.script[1..]), x.script[0].actions)
  }

  /** Everyone leaves a topic. */
  function Leaves(ms: seq<SubId>, name: string): seq<Action>
  {
    seq(|ms|, i requires 0 <= i < |ms| => DoUnsubscribe(ms[i], name))
  }

  /** And it is gone. */
  lemma {:induction false} LeavingErases(x: Tree, name: string, ms: seq<SubId>, t: TopicId)
    requires Inv(x) && x.mode.depth > 0 && Orderly(x) && x.mode.iterating.None? && x.rel.ops == []
    requires x.life.doomed == {}
    requires name in x.rel.topics && x.rel.topics[name] == t && t in x.rel.members
    requires (forall i, j :: 0 <= i < j < |ms| ==> ms[i] != ms[j]) && (forall s :: s in ms <==> s in x.rel.members[t])
    ensures t !in ActedAll(x, Leaves(ms, name)).rel.members
    decreases |ms|
  {
    hide Listed, Bounded, Delivering, Tidy, Shape, Flags, Stirred, Steady;
    InvRegistered(x);
    TopicNotEmpty(x, t);
    var s := ms[0];
    var y := Acted(x, DoUnsubscribe(s, name));
    ActedKeeps(x, DoUnsubscribe(s, name));
    LeavesOne(x, name, s, t);
    assert Leaves(ms, name)[0] == DoUnsubscribe(s, name) && Leaves(ms, name)[1..] == Leaves(ms[1..], name);
    forall u ensures u in ms[1..] <==> u in x.rel.members[t] && u != s {
      if u in ms && u != s {
        var i :| 0 <= i < |ms| && ms[i] == u;
        assert ms[1..][i - 1] == u;
      }
    }
    if |ms| == 1 {
      assert ms[1..] == [];
    } else {
      assert ms[1] in ms[1..];
      LeavingErases(y, name, ms[1..], t);
    }
  }

  lemma TopicNotEmpty(x: Tree, t: TopicId)
    requires Inv(x) && t in x.rel.members && x.rel.ops == []
    ensures exists s :: s in x.rel.members[t]
    ensures forall s :: s in x.rel.members[t] ==> s in x.rel.held && t in x.rel.held[s]
  {
    hide Listed, Bounded, Delivering, Tidy, Shape, Flags, RelOk;
    RelParts(x.rel);
    MembersHeld(x.rel, t);
    NotEmpty(x.rel, t);
  }

  lemma NotEmpty(r: Rel, t: TopicId)
    requires RelOk(r) && t in r.members && r.ops == []
    ensures exists s :: s in r.members[t]
  {
    assert Paired(r, t);
    assert r.members[t] != {};
  }

  /** One of them leaves; the last takes the topic along. */
  lemma LeavesOne(x: Tree, name: string, s: SubId, t: TopicId)
    requires Inv(x) && x.mode.iterating.None? && x.rel.ops == [] && x.life.doomed == {}
    requires name in x.rel.topics && x.rel.topics[name] == t && t in x.rel.members && s in x.rel.members[t]
    requires s in x.rel.held && t in x.rel.held[s]
    ensures var y := Acted(x, DoUnsubscribe(s, name));
            && y.rel.ops == [] && y.life.doomed == {}
            && if x.rel.members[t] == {s} then t !in y.rel.members
               else
                 && t in y.rel.members && y.rel.members[t] == x.rel.members[t] - {s}
                 && name in y.rel.topics && y.rel.topics[name] == t
  {
    hide RelOk, Listed, Bounded, Delivering, Tidy, Shape, Flags;
    InvRegistered(x);
    assert ToggleAllowed(x.rel, x.mode.iterating, s, name);
    assert !SubscribeQueued(x.rel.ops, t);
    assert x.rel.members[t] - {s} == {} <==> x.rel.members[t] == {s};
  }

  // ---------------------------------------------------------------- calls

  /** A call outside the contract of `TopicRelation.ToggleExact` is passed over; outside a replay there is none. */
  ghost function Freely(x: Tree, a: Action): Tree
    requires Inv(x)
  {
    match a
    case DoSubscribe(s, name) => if Alive(x, s) then Subscribed(x, s, name) else x
    case DoUnsubscribe(s, name) => if Alive(x, s) then Unsubscribed(x, s, name) else x
    case DoPublish(sender, name, message) => PublishedLater(x, sender, name, message)
    case DoFree(s) => if Alive(x, s) then FreedLater(x, s) else x
  }

  lemma NothingPassedOver(x: Tree, a: Action)
    requires Inv(x) && Orderly(x) && !x.mode.applying
    ensures Acted(x, a) == Freely(x, a)
  {
    hide Inv, Orderly, Subscribed, Unsubscribed, PublishedLater, FreedLater, ToggleAllowed;
    match a {
      case DoSubscribe(s, name) => OutsideReplay(x, s, name);
      case DoUnsubscribe(s, name) => OutsideReplay(x, s, name);
      case _ =>
    }
  }

  /** These messages were published, and they are the answers given. */
  ghost predicate Told(a: Tree, b: Tree, hs: seq<Handout>)
  {
    Story(a, b, hs) && b.life.answered == a.life.answered + Asks(hs)
  }

  lemma ToldTrans(a: Tree, b: Tree, c: Tree, x: seq<Handout>, y: seq<Handout>)
    requires Told(a, b, x) && Told(b, c, y)
    ensures Told(a, c, x + y)
  {
    hide Story, Asks;
    StoryTrans(a, b, c, x, y);
    Assoc3(a.life.answered, Asks(x), Asks(y));
  }

  lemma ToldNothing(a: Tree, b: Tree)
    requires b.life.answered == a.life.answered
    requires forall s :: s in b.post.due ==> s in a.post.due && b.post.due[s] == a.post.due[s]
    ensures Told(a, b, [])
  {
    hide Story;
    StoryNone(a, b);
    assert a.life.answered + [] == a.life.answered;
  }

  /** Only what is due and what has been answered matters. */
  lemma ToldSame(a: Tree, b: Tree, a': Tree, b': Tree, hs: seq<Handout>)
    requires Told(a, b, hs) && a'.post.due == a.post.due && b'.post.due == b.post.due
    requires a'.life.answered == a.life.answered && b'.life.answered == b.life.answered
    ensures Told(a', b', hs)
  {
    hide HandoutOk, GivenBy, Asks;
  }

  /** Between deliveries some may go; that publishes nothing. */
  lemma ToldPurged(a: Tree, b: Tree, c: Tree, hs: seq<Handout>)
    requires Told(a, b, hs) && Purged(b, c)
    ensures Told(a, c, hs)
  {
    hide Story, Onwards, Asks;
    ToldNothing(b, c);
    ToldTrans(a, b, c, hs, []);
    assert hs + [] == hs;
  }

  /** An erased topic is only ever met if a handler reacted. */
  predicate Blamed(was: bool, now: bool, a: Tree, b: Tree)
  {
    (was ==> now) && (now ==> was || |b.script| < |a.script|)
  }

  /** A call of `publish`: what the drain for room replayed, its own message, and what was replayed in the end. */
  ghost predicate Published(a: Tree, b: Tree, hs: seq<Handout>, own: nat, ask: Ask)
  {
    && Story(a, b, hs) && own < |hs| && hs[own].ask == ask && !hs[own].big
    && b.life.answered == a.life.answered + Asks(hs[..own]) + Asks(hs[own + 1..])
    && |hs[own].before.script| <= |a.script| && |b.script| <= |hs[own].after.script|
    && (a.mode.applying ==> |hs| == 1) && Onwards(hs[own].after, b) && Rests(hs[own], b)
    && (HasRoom(a) ==> own == 0 && hs[own].before == a)
  }

  lemma PublishedOne(a: Tree, b: Tree, hs: seq<Handout>, own: nat, ask: Ask)
    requires Published(a, b, hs, own, ask) && a.mode.applying
    ensures |hs| == 1
  {
    hide Story, Asks, Onwards;
  }

  /** With nothing queued a hand-out is the end of it. */
  ghost predicate Rests(h: Handout, b: Tree)
  {
    h.ask.name in h.before.rel.topics && !h.after.mode.pending && h.after.mode.depth > 0 ==> b == Shallower(h.after)
  }

  lemma PublishedBy(a: Tree, y: Tree, z: Tree, b: Tree, hs: seq<Handout>, h: Handout, more: seq<Handout>)
    requires Told(a, y, hs) && h.before == y && h.after == z && HandoutOk(h) && !h.big && Told(z, b, more)
    requires z.life.answered == y.life.answered && |y.script| <= |a.script| && |b.script| <= |z.script|
    requires Onwards(z, b) && Rests(h, b)
    requires a.mode.applying ==> hs == [] && more == []
    requires HasRoom(a) ==> hs == [] && y == a
    ensures Published(a, b, hs + [h] + more, |hs|, h.ask)
  {
    hide Story, Asks, HandoutOk, Onwards;
    StoryOne(h);
    StoryTrans(a, y, z, hs, [h]);
    StoryTrans(a, z, b, hs + [h], more);
    var all := hs + [h] + more;
    assert all[..|hs|] == hs && all[|hs| + 1..] == more;
  }

  lemma PublishedToNobody(a: Tree, ask: Ask)
    requires Inv(a) && ask.name !in a.rel.topics
    ensures var h := Handout(a, a, ask, {}, false); Published(a, a, [h], 0, ask)
  {
    hide Inv, Asks;
    var h := Handout(a, a, ask, {}, false);
    StoryOne(h);
    assert [h][..0] == [] && [h][1..] == [];
    StoryNone(a, a);
    assert a.life.answered + [] + [] == a.life.answered;
  }

  /** A replayed call is answered by its own message. */
  lemma ToldReplay(x0: Tree, x: Tree, y: Tree, z: Tree, hs: seq<Handout>, one: seq<Handout>, ask: Ask)
    requires Told(x0, x, hs) && y.post == x.post && y.life.answered == x.life.answered + [ask]
    requires Published(y, z, one, 0, ask) && |one| == 1
    ensures Told(x0, z, hs + one)
  {
    hide GivenBy, HandoutOk;
    StoryNone(x, y);
    StoryTrans(x0, x, y, hs, []);
    assert hs + [] == hs;
    StoryTrans(x0, y, z, hs, one);
    assert one[..0] == [] && one[1..] == [] && Asks([]) == [] && Asks(one) == [ask];
    assert z.life.answered == y.life.answered + [] + [] == y.life.answered;
    Assoc3(x0.life.answered, Asks(hs), [ask]);
  }

  /** If no handler reacted to a call of `publish` between deliveries, every member but the sender is due the
    * message. */
  lemma UndisturbedPublish(a: Tree, b: Tree, hs: seq<Handout>, own: nat, ask: Ask)
    requires Published(a, b, hs, own, ask) && AtEase(a) && HasRoom(a) && |b.script| == |a.script|
    requires ask.name in a.rel.topics
    ensures var t := a.rel.topics[ask.name];
            t in a.rel.members && hs[own].reached == set s | s in a.rel.members[t] && Some(s) != ask.sender
  {
    hide Inv, Onwards, GivenBy, Asks;
    var h := hs[own];
    assert h in hs && HandoutOk(h);
    UndisturbedReach(h);
  }

  // ---------------------------------------------------------------- one batch

  lemma TakenOrderly(x: Tree, s: SubId)
    requires s in x.post.indices && Orderly(x)
    ensures Orderly(Taken(x, s))
  {
  }

  lemma DetachedOrderly(x: Tree, s: SubId)
    requires Linked(x.links) && s in x.links.chain && Orderly(x)
    ensures Orderly(Detached(x, s))
  {
  }

  lemma GivenOrderly(x: Tree, s: SubId)
    requires s in x.post.received && Orderly(x) && x.post.taking != [] && x.post.taking[0] < |x.post.outgoing|
    ensures Orderly(Given(x, s, x.post.outgoing[x.post.taking[0]]))
  {
  }

  /** The batch of `s` may be delivered. */
  ghost predicate CanTake(x: Tree, s: SubId)
  {
    s in x.post.indices && Inv(Taken(x, s)) && Orderly(x) && x.mode.depth > 0 && s in x.post.received
  }

  /** The handler of `s` was given the message, and reacted as the script has it. */
  ghost predicate CalledBack(y: Tree, s: SubId, message: Payload, stop: bool, z: Tree)
    requires s in y.post.received && Inv(Given(y, s, message)) && y.mode.depth > 0 && Orderly(Given(y, s, message))
  {
    var g := Given(y, s, message);
    && Inv(z) && Stirred(g, z) && Steady(g, z)
    && if |y.script| == 0 then !stop && z == g
       else
         var w := g.(script := y.script[1..]);
         && Inv(w) && Orderly(w) && w.mode.depth > 0 && z == ActedAll(w, y.script[0].actions)
         && stop == y.script[0].stop
         && |z.script| < |y.script|
  }

  /** Only whom an action frees is freed, and only what breaks the relation is noted. */
  lemma {:induction false} ActedAllFrees(x: Tree, actions: seq<Action>)
    requires Inv(x) && x.mode.depth > 0 && Orderly(x)
    ensures var y := ActedAll(x, actions);
            && y.life.doomed <= x.life.doomed + FreedIn(actions)
            && (y.post.leaked ==> x.post.leaked || FreedIn(actions) != {})
            && MissedMore(x, y, TogglesIn(actions))
    decreases |actions|
  {
    hide Inv, Stirred, Steady, Orderly, Acted, MissedMore, TogglesIn;
    if actions == [] {
      MissedNothing(x);
    } else {
      var y := Acted(x, actions[0]);
      ActedKeeps(x, actions[0]);
      ActedDepth(x, y);
      ActedFrees(x, actions[0]);
      ActedAllFrees(y, actions[1..]);
      TogglesMore(actions);
      MissedTrans(x, y, ActedAll(y, actions[1..]), Toggle(actions[0]), TogglesIn(actions[1..]));
    }
  }

  predicate Toggle(a: Action) { a.DoSubscribe? || a.DoUnsubscribe? }

  /** What has been noted since would break the relation. */
  ghost predicate MissedMore(x: Tree, y: Tree, toggles: bool)
  {
    && x.life.missed <= y.life.missed
    && (forall k | |x.life.missed| <= k < |y.life.missed| :: Breaks(y.life.missed[k]))
    && (y.life.missed != x.life.missed ==> toggles)
  }

  lemma MissedNothing(x: Tree)
    ensures MissedMore(x, x, false) && !TogglesIn([]) && MissedMore(x, x, TogglesIn([]))
  {
  }

  lemma MissedTrans(x: Tree, y: Tree, z: Tree, p: bool, q: bool)
    requires MissedMore(x, y, p) && MissedMore(y, z, q)
    ensures MissedMore(x, z, p || q)
  {
    hide Breaks;
    forall k | |x.life.missed| <= k < |z.life.missed| ensures Breaks(z.life.missed[k]) {
      if k < |y.life.missed| { assert z.life.missed[k] == y.life.missed[k]; }
    }
  }

  lemma TogglesMore(actions: seq<Action>)
    requires actions != []
    ensures TogglesIn(actions) <==> Toggle(actions[0]) || TogglesIn(actions[1..])
  {
    assert forall a :: a in actions <==> a == actions[0] || a in actions[1..];
  }

  lemma ActedFrees(x: Tree, a: Action)
    requires Inv(x)
    ensures var y := Acted(x, a);
            && y.life.doomed <= x.life.doomed + (if a.DoFree? then {a.s} else {})
            && (y.post.leaked ==> x.post.leaked || a.DoFree?) && MissedMore(x, y, Toggle(a))
  {
    hide Inv, SubscribedRel, UnsubscribedRel, Unlinked, ToggleAllowed, Breaks;
    if a.DoSubscribe? && Alive(x, a.s) && Misses(x, a.s, a.name, false) { MissBreaks(x, a.s, a.name, false); }
    if a.DoUnsubscribe? && Alive(x, a.s) && Misses(x, a.s, a.name, true) { MissBreaks(x, a.s, a.name, true); }
  }

  /** The handler called takes its reaction, and does no more than it says. */
  lemma CalledHeard(y: Tree, s: SubId, message: Payload, stop: bool, z: Tree)
    requires s in y.post.received && Inv(Given(y, s, message)) && y.mode.depth > 0 && Orderly(Given(y, s, message))
    requires CalledBack(y, s, message, stop, z)
    ensures Heard(y, z) && |y.post.calls| < |z.post.calls| && (stop ==> StoppedLast(y, z, s))
  {
    hide Inv, Orderly, ActedAll, Onwards;
    var g := Given(y, s, message);
    assert g.post.calls == y.post.calls + [Called(s, message, Stops(y))];
    assert z.post.calls[..|y.post.calls|] == y.post.calls;
    assert Rest(y.script, 1) == if y.script == [] then [] else y.script[1..];
    if |y.script| > 0 {
      ActedAllFrees(g.(script := y.script[1..]), y.script[0].actions);
      assert Frees(y.script, 1) == FreedIn(y.script[0].actions);
    }
  }

  /** What the handler of the first message did lasts. */
  ghost predicate Reacted(start: Tree, s: SubId, y: Tree)
    requires CanTake(start, s)
  {
    |start.post.indices[s]| > 0 && |start.script| > 0 ==> Onwards(FirstReacted(start, s), y)
  }

  /** A batch under way: `rest` is still to be delivered. */
  ghost predicate Batching(start: Tree, s: SubId, y: Tree, rest: seq<nat>)
    requires CanTake(start, s)
  {
    var x := Taken(start, s);
    && Inv(y) && Stirred(x, y) && Unclaimed(x, y) && Spent(x, y) && Orderly(y) && y.mode.depth > 0
    && y.post.taker == Some(s) && y.post.taking == rest && s in y.post.received
    && (y == x || Reacted(start, s, y))
  }

  lemma BatchStarts(start: Tree, s: SubId)
    requires CanTake(start, s)
    ensures s in start.post.indices && Batching(start, s, Taken(start, s), start.post.indices[s])
  {
    hide Inv, Stirred, Unclaimed, Spent, Orderly, Reacted;
    TakenParts(start, s);
    TakenOrderly(start, s);
    StirredSelf(Taken(start, s));
    UnclaimedSelf(Taken(start, s));
  }

  lemma BatchNext(start: Tree, s: SubId, y: Tree, rest: seq<nat>)
    requires CanTake(start, s) && Batching(start, s, y, rest) && rest != []
    ensures s in y.post.received && rest[0] < |y.post.outgoing| && y.mode.depth > 0
    ensures Inv(Given(y, s, y.post.outgoing[rest[0]])) && Orderly(Given(y, s, y.post.outgoing[rest[0]]))
  {
    hide Inv, Stirred, Unclaimed, Spent, Orderly, Reacted;
    NextOfBatch(y, s);
    GivenOrderly(y, s);
  }

  lemma BatchKeeps(start: Tree, s: SubId, y: Tree, rest: seq<nat>)
    requires CanTake(start, s) && Batching(start, s, y, rest)
    ensures y.post.outgoing == start.post.outgoing
  {
    hide Inv, Stirred, Spent, Orderly, Reacted;
  }

  lemma BatchStep(start: Tree, s: SubId, y: Tree, rest: seq<nat>, stop: bool, z: Tree)
    requires CanTake(start, s) && Batching(start, s, y, rest) && rest != [] && s in y.post.received
    requires rest[0] < |y.post.outgoing|
    requires Inv(Given(y, s, y.post.outgoing[rest[0]])) && Orderly(Given(y, s, y.post.outgoing[rest[0]]))
    requires y.mode.depth > 0
    requires CalledBack(y, s, y.post.outgoing[rest[0]], stop, z)
    ensures Batching(start, s, z, rest[1..]) && Reacted(start, s, z)
    ensures stop ==> |z.script| < |start.script| && StoppedLast(start, z, s)
  {
    hide Inv, Stirred, Steady, Unclaimed, Orderly, Onwards, ActedAll, FirstReacted, Given, Taken, HeardOn;
    CalledHeard(y, s, y.post.outgoing[rest[0]], stop, z);
    CallsGrow(Taken(start, s), y);
    TakenCalls(start, s);
    TakenParts(start, s);
    GivenScript(y, s, y.post.outgoing[rest[0]]);
    BatchReacts(start, y, s, stop, z);
    BatchGoesOn(Taken(start, s), y, s, z);
    BatchDepth(y, z, s);
  }

  lemma CallsGrow(x: Tree, y: Tree)
    requires Spent(x, y)
    ensures |x.post.calls| <= |y.post.calls|
  {
    hide Frees, Rest, StoppedOf;
  }

  lemma TakenCalls(x: Tree, s: SubId)
    requires s in x.post.indices
    ensures Taken(x, s).post.calls == x.post.calls
  {
  }

  lemma BatchDepth(y: Tree, z: Tree, s: SubId)
    requires s in y.post.received && y.post.taking != [] && y.post.taking[0] < |y.post.outgoing| && Orderly(y)
    requires Stirred(Given(y, s, y.post.outgoing[y.post.taking[0]]), z)
    ensures Orderly(z) && z.mode.depth == y.mode.depth
  {
    hide Orderly, Onwards;
    GivenOrderly(y, s);
  }

  /** What the handler of the first message does lasts. */
  lemma BatchReacts(start: Tree, y: Tree, s: SubId, stop: bool, z: Tree)
    requires CanTake(start, s) && (y == Taken(start, s) || Reacted(start, s, y)) && y.post.taking != []
    requires y.post.taking[0] < |y.post.outgoing| && s in y.post.received && y.mode.depth > 0
    requires Inv(Given(y, s, y.post.outgoing[y.post.taking[0]]))
    requires Orderly(Given(y, s, y.post.outgoing[y.post.taking[0]]))
    requires CalledBack(y, s, y.post.outgoing[y.post.taking[0]], stop, z)
    ensures Reacted(start, s, z) && Spent(y, z)
  {
    hide Inv, Onwards, ActedAll, Stirred, Steady, Orderly, HeardOn;
    var g := Given(y, s, y.post.outgoing[y.post.taking[0]]);
    CalledHeard(y, s, y.post.outgoing[y.post.taking[0]], stop, z);
    StirredOnwards(g, z);
    OnwardsTrans(y, g, z);
    if |start.post.indices[s]| > 0 && |start.script| > 0 {
      if Reacted(start, s, y) {
        OnwardsTrans(FirstReacted(start, s), y, z);
      } else {
        assert z == FirstReacted(start, s);
        OnwardsSelf(z, z);
      }
    }
  }

  /** The handler of `s` was called with these messages, in order, and none but the last call stopped. */
  predicate GivenCalls(calls: seq<Called>, s: SubId, messages: seq<Payload>)
  {
    && |calls| == |messages|
    && (forall j | 0 <= j < |calls| :: calls[j].s == s && calls[j].message == messages[j])
    && forall j | 0 <= j < |calls| - 1 :: !calls[j].stop
  }

  /** The first `n` messages of the batch of `s` have been given to its handler, in order and nothing else. */
  ghost predicate GivenSoFar(x: Tree, s: SubId, y: Tree, n: nat)
    requires s in x.post.indices
  {
    && n <= |x.post.indices[s]| && x.post.calls <= y.post.calls && s in x.post.received && s in y.post.received
    && var messages := Pick(x.post.indices[s][..n], x.post.outgoing);
       && GivenCalls(y.post.calls[|x.post.calls|..], s, messages)
       && y.post.received[s] == x.post.received[s] + messages
  }

  /** A batch is given whole, or up to the call that stops it. */
  ghost predicate BatchGiven(x: Tree, s: SubId, y: Tree)
    requires s in x.post.indices
  {
    var n := |y.post.calls| - |x.post.calls|;
    && n >= 0 && GivenSoFar(x, s, y, n)
    && (n < |x.post.indices[s]| ==> n > 0 && y.post.calls[|y.post.calls| - 1].stop)
  }

  lemma GivenStarts(x: Tree, s: SubId)
    requires s in x.post.indices && s in x.post.received
    ensures GivenSoFar(x, s, Taken(x, s), 0)
  {
    assert x.post.indices[s][..0] == [];
    assert x.post.received[s] + [] == x.post.received[s];
  }

  lemma GivenNext(x: Tree, s: SubId, y: Tree, i: nat, stop: bool, z: Tree)
    requires s in x.post.indices && GivenSoFar(x, s, y, i) && i < |x.post.indices[s]|
    requires i > 0 ==> !y.post.calls[|y.post.calls| - 1].stop
    requires s in y.post.received && y.post.outgoing == x.post.outgoing && y.mode.depth > 0
    requires x.post.indices[s][i] < |x.post.outgoing|
    requires var message := x.post.outgoing[x.post.indices[s][i]];
             && Inv(Given(y, s, message)) && Orderly(Given(y, s, message)) && CalledBack(y, s, message, stop, z)
    ensures GivenSoFar(x, s, z, i + 1) && z.post.calls[|z.post.calls| - 1].stop == stop
  {
    hide Inv, Orderly, ActedAll, Stirred, CalledBack;
    var batch := x.post.indices[s];
    var message := x.post.outgoing[batch[i]];
    CalledParts(y, s, message, stop, z);
    assert batch[..i + 1] == batch[..i] + [batch[i]];
    PickConcat(batch[..i], [batch[i]], x.post.outgoing);
    var c := |x.post.calls|;
    assert z.post.calls[c..] == y.post.calls[c..] + [Called(s, message, stop)];
    assert i == 0 ==> y.post.calls[c..] == [];
    Assoc3(x.post.received[s], Pick(batch[..i], x.post.outgoing), [message]);
  }

  lemma CalledParts(y: Tree, s: SubId, message: Payload, stop: bool, z: Tree)
    requires s in y.post.received && Inv(Given(y, s, message)) && y.mode.depth > 0 && Orderly(Given(y, s, message))
    requires CalledBack(y, s, message, stop, z)
    ensures z.post.calls == y.post.calls + [Called(s, message, stop)]
    ensures s in z.post.received && z.post.received[s] == y.post.received[s] + [message]
  {
    hide Inv, Orderly, ActedAll, Stirred;
  }

  lemma GivenEnds(x: Tree, s: SubId, y: Tree, n: nat, z: Tree)
    requires s in x.post.indices && GivenSoFar(x, s, y, n)
    requires n < |x.post.indices[s]| ==> n > 0 && y.post.calls[|y.post.calls| - 1].stop
    requires z.post.calls == y.post.calls && z.post.received == y.post.received
    ensures BatchGiven(x, s, z)
  {
    hide GivenCalls;
    GivenCount(y.post.calls[|x.post.calls|..], s, Pick(x.post.indices[s][..n], x.post.outgoing));
  }

  lemma BatchGivenSame(x: Tree, s: SubId, y: Tree, x': Tree, y': Tree)
    requires s in x.post.indices && BatchGiven(x, s, y) && x'.post == x.post
    requires y'.post.calls == y.post.calls && y'.post.received == y.post.received
    ensures BatchGiven(x', s, y')
  {
    hide GivenCalls;
  }

  lemma GivenCount(calls: seq<Called>, s: SubId, messages: seq<Payload>)
    requires GivenCalls(calls, s, messages)
    ensures |calls| == |messages|
  {
  }

  lemma BatchCut(start: Tree, s: SubId, y: Tree, rest: seq<nat>)
    requires CanTake(start, s) && Batching(start, s, y, rest) && Reacted(start, s, y) && |y.script| < |start.script|
    requires StoppedLast(start, y, s)
    ensures Batching(start, s, Cut(y, s), []) && Reacted(start, s, Cut(y, s))
  {
    hide Inv, Stirred, Unclaimed, HeardOn, Orderly, Onwards, FirstReacted;
    CutShort(y, s);
    CutShortStirs(Taken(start, s), y, s);
    if |start.post.indices[s]| > 0 && |start.script| > 0 { CutOnwards(FirstReacted(start, s), y, s); }
    OrderlyScript(y, Cut(y, s));
  }

  lemma CutOnwards(a: Tree, z: Tree, s: SubId)
    requires Onwards(a, z)
    ensures Onwards(a, Cut(z, s))
  {
  }

  lemma BatchEnds(start: Tree, s: SubId, y: Tree)
    requires CanTake(start, s) && Batching(start, s, y, []) && (start.post.indices[s] == [] || Reacted(start, s, y))
    ensures var x := Taken(start, s);
            Inv(y) && Stirred(x, y) && Unclaimed(x, y) && Spent(x, y) && y.post.taker == Some(s) && y.post.taking == []
    ensures |start.post.indices[s]| > 0 && |start.script| > 0 ==> Onwards(FirstReacted(start, s), y)
  {
    hide Inv, Stirred, Unclaimed, Spent, Orderly, Onwards, FirstReacted;
  }

  /** The batch of `s`, of which `n` messages have been delivered, none of which stopped it. */
  ghost predicate Midway(start: Tree, s: SubId, y: Tree, n: nat)
    requires CanTake(start, s)
  {
    && n <= |start.post.indices[s]| && Batching(start, s, y, start.post.indices[s][n..]) && GivenSoFar(start, s, y, n)
    && (n > 0 ==> Reacted(start, s, y) && !y.post.calls[|y.post.calls| - 1].stop)
  }

  /** Likewise, but the last of them stopped it. */
  ghost predicate Stopped(start: Tree, s: SubId, y: Tree, n: nat)
    requires CanTake(start, s)
  {
    && 0 < n <= |start.post.indices[s]| && Batching(start, s, y, start.post.indices[s][n..])
    && GivenSoFar(start, s, y, n) && Reacted(start, s, y)
    && |y.script| < |start.script| && StoppedLast(start, y, s) && y.post.calls[|y.post.calls| - 1].stop
  }

  lemma MidwayStarts(start: Tree, s: SubId)
    requires CanTake(start, s)
    ensures s in start.post.indices && Midway(start, s, Taken(start, s), 0)
  {
    hide Inv, Stirred, Unclaimed, Spent, Orderly, Reacted, Batching, GivenSoFar, Taken;
    BatchStarts(start, s);
    GivenStarts(start, s);
    assert start.post.indices[s][0..] == start.post.indices[s];
  }

  lemma MidwayNext(start: Tree, s: SubId, y: Tree, n: nat)
    requires CanTake(start, s) && Midway(start, s, y, n) && n < |start.post.indices[s]|
    ensures y.post.outgoing == start.post.outgoing && start.post.indices[s][n] < |y.post.outgoing|
    ensures s in y.post.received && y.mode.depth > 0
    ensures var message := y.post.outgoing[start.post.indices[s][n]];
            Inv(Given(y, s, message)) && Orderly(Given(y, s, message))
  {
    hide Inv, Stirred, Unclaimed, Spent, Orderly, Reacted, Batching, GivenSoFar, Given;
    BatchNext(start, s, y, start.post.indices[s][n..]);
    BatchKeeps(start, s, y, start.post.indices[s][n..]);
  }

  lemma MidwayStep(start: Tree, s: SubId, y: Tree, n: nat, stop: bool, z: Tree)
    requires CanTake(start, s) && Midway(start, s, y, n) && n < |start.post.indices[s]|
    requires y.post.outgoing == start.post.outgoing && start.post.indices[s][n] < |y.post.outgoing|
    requires s in y.post.received && y.mode.depth > 0
    requires var message := y.post.outgoing[start.post.indices[s][n]];
             && Inv(Given(y, s, message)) && Orderly(Given(y, s, message)) && CalledBack(y, s, message, stop, z)
    ensures if stop then Stopped(start, s, z, n + 1) else Midway(start, s, z, n + 1)
  {
    hide Inv, Stirred, Unclaimed, Spent, Orderly, Reacted, Batching, GivenSoFar, Given, CalledBack, StoppedLast;
    var rest := start.post.indices[s][n..];
    BatchStep(start, s, y, rest, stop, z);
    GivenNext(start, s, y, n, stop, z);
    assert rest[1..] == start.post.indices[s][n + 1..];
  }

  /** What is left of the batch is dropped. */
  lemma StoppedEnds(start: Tree, s: SubId, y: Tree, n: nat, z: Tree)
    requires CanTake(start, s) && Stopped(start, s, y, n)
    requires z == if n < |start.post.indices[s]| then Cut(y, s) else y
    ensures BatchDone(start, s, z)
  {
    hide Inv, Stirred, Unclaimed, Spent, Orderly, Reacted, Batching, GivenSoFar, BatchGiven, Onwards, StoppedLast;
    hide FirstReacted;
    var rest := start.post.indices[s][n..];
    assert n == |start.post.indices[s]| ==> rest == [];
    BatchCut(start, s, y, rest);
    BatchEnds(start, s, z);
    GivenEnds(start, s, y, n, z);
  }

  lemma MidwayEnds(start: Tree, s: SubId, y: Tree)
    requires CanTake(start, s) && Midway(start, s, y, |start.post.indices[s]|)
    ensures BatchDone(start, s, y)
  {
    hide Inv, Stirred, Unclaimed, Spent, Orderly, Reacted, Batching, GivenSoFar, BatchGiven, Onwards;
    hide FirstReacted;
    assert start.post.indices[s][|start.post.indices[s]|..] == [];
    BatchEnds(start, s, y);
    GivenEnds(start, s, y, |start.post.indices[s]|, y);
  }

  /** What `drainImpl` leaves. */
  ghost predicate BatchDone(start: Tree, s: SubId, y: Tree)
    requires CanTake(start, s)
  {
    var x := Taken(start, s);
    && Inv(y) && Stirred(x, y) && Unclaimed(x, y) && Spent(x, y) && y.post.taker == Some(s) && y.post.taking == []
    && (|start.post.indices[s]| > 0 && |start.script| > 0 ==> Onwards(FirstReacted(start, s), y))
    && BatchGiven(start, s, y)
  }

  lemma StirredOnwards(x: Tree, y: Tree)
    requires Stirred(x, y)
    ensures Onwards(x, y) && (Orderly(x) ==> Orderly(y))
  {
    hide Onwards, Orderly;
  }

  // ---------------------------------------------------------------- a topic erased under the call that looked it up

  lemma SweepFirst(x: Tree)
    requires Inv(x) && Ready(x) && x.links.head.Some?
    ensures var y, s := SweepStarted(x), x.links.head.value;
            && Inv(y) && Orderly(y) && y.mode.depth == 1 && y.mode.iterating.None? && y.rel == x.rel
            && y.life == x.life && y.script == x.script
            && s in y.post.indices && s in y.post.received && |y.post.indices[s]| > 0 && Inv(Taken(y, s))
            && s !in x.life.doomed
  {
    hide RelOk, Bounded, Delivering, Tidy, Sweeping, Linked, Onward;
    SweepStarts(x);
    NothingWaits(x);
    HeadIs(x.links);
    var y, s := SweepStarted(x), x.links.head.value;
    assert s in x.links.chain;
    TakenSweepKeeps(y, s);
  }

  /** What the first handler called by a drain of all leaves. */
  ghost function SweepReacted(x: Tree): (y: Tree)
    requires Inv(x) && Ready(x) && x.links.head.Some? && |x.script| > 0
    ensures Inv(y)
  {
    SweepFirst(x);
    FirstReacted(SweepStarted(x), x.links.head.value)
  }

  lemma FirstReactedOnwards(x: Tree, s: SubId)
    requires s in x.post.indices && Inv(Taken(x, s)) && Orderly(x) && x.mode.depth > 0 && s in x.post.received
    requires |x.post.indices[s]| > 0 && |x.script| > 0
    ensures Onwards(x, FirstReacted(x, s))
  {
    hide Inv, Onwards, ActedAll, Stirred, Steady, Orderly;
    var taken := Taken(x, s);
    NextOfBatch(taken, s);
    var given := Given(taken, s, x.post.outgoing[x.post.indices[s][0]]);
    ScriptFree(given, x.script[1..]);
    var z := given.(script := x.script[1..]);
    TakenOrderly(x, s);
    GivenOrderly(taken, s);
    OrderlyScript(given, z);
    var y := ActedAll(z, x.script[0].actions);
    StirredOnwards(given, z);
    StirredOnwards(z, y);
    OnwardsTrans(x, taken, given);
    OnwardsTrans(x, given, z);
    OnwardsTrans(x, z, y);
  }

  /** A topic the first handler erases stays erased. */
  lemma StaysErased(x: Tree, y: Tree, t: TopicId)
    requires Inv(x) && Ready(x) && x.links.head.Some? && |x.script| > 0 && t in x.rel.members
    requires t !in SweepReacted(x).rel.members && Onwards(SweepReacted(x), y) && Inv(y)
    ensures t !in y.rel.members
  {
    hide Inv, SweepReacted, Onwards;
    SweepFirst(x);
    assert SweepReacted(x) == FirstReacted(SweepStarted(x), x.links.head.value) by { SweepReactedIs(x); }
    FirstReactedOnwards(SweepStarted(x), x.links.head.value);
    MembersBelow(x);
    MembersNamed(SweepReacted(x));
    MembersNamed(y);
    StaysUnnamed(SweepStarted(x), SweepReacted(x), y, t);
  }

  lemma SweepReactedIs(x: Tree)
    requires Inv(x) && Ready(x) && x.links.head.Some? && |x.script| > 0
    ensures var y, s := SweepStarted(x), x.links.head.value;
            && s in y.post.indices && Inv(Taken(y, s)) && Orderly(y) && y.mode.depth > 0 && s in y.post.received
            && |y.post.indices[s]| > 0
            && SweepReacted(x) == FirstReacted(y, s)
  {
    hide Inv, FirstReacted, Orderly, Taken;
    SweepFirst(x);
  }

  lemma MembersNamed(x: Tree)
    requires Inv(x)
    ensures x.rel.members.Keys == x.rel.names.Keys
  {
    hide Listed, Bounded, Delivering, Tidy, Shape, Flags, RelOk;
    RelParts(x.rel);
  }

  lemma StaysUnnamed(a: Tree, b: Tree, c: Tree, t: TopicId)
    requires Onwards(a, b) && Onwards(b, c) && t < a.life.nextId && t !in b.rel.names
    ensures t !in c.rel.names
  {
  }

  /** If the vector is full, a handler can erase any topic: its members all leave it. */
  lemma SomeHandlerErases(x: Tree, name: string, ms: seq<SubId>, stop: bool)
    requires Inv(x) && AtEase(x) && x.links.head.Some? && name in x.rel.topics && x.rel.topics[name] in x.rel.members
    requires forall i, j :: 0 <= i < j < |ms| ==> ms[i] != ms[j]
    requires forall s :: s in ms <==> s in x.rel.members[x.rel.topics[name]]
    ensures var y := x.(script := [Reaction(Leaves(ms, name), stop)]);
            Inv(y) && Ready(y) && x.rel.topics[name] !in SweepReacted(y).rel.members
  {
    hide Inv, FirstReacted, Orderly, Taken, Leaves, SweepReacted;
    var script := [Reaction(Leaves(ms, name), stop)];
    var y := x.(script := script);
    ScriptFree(x, script);
    SweepReactedIs(y);
    NothingWaits(y);
    SweepFirst(y);
    FirstErases(SweepStarted(y), y.links.head.value, name, ms);
  }

  lemma FirstErases(x: Tree, s: SubId, name: string, ms: seq<SubId>)
    requires s in x.post.indices && Inv(Taken(x, s)) && Orderly(x) && x.mode.depth > 0 && s in x.post.received
    requires |x.post.indices[s]| > 0 && |x.script| > 0 && x.script[0].actions == Leaves(ms, name)
    requires x.mode.iterating.None? && x.rel.ops == [] && x.life.doomed == {}
    requires name in x.rel.topics && x.rel.topics[name] in x.rel.members
    requires (forall i, j :: 0 <= i < j < |ms| ==> ms[i] != ms[j])
    requires (forall s :: s in ms <==> s in x.rel.members[x.rel.topics[name]])
    ensures x.rel.topics[name] !in FirstReacted(x, s).rel.members
  {
    hide Inv, ActedAll, Orderly, Leaves;
    var taken := Taken(x, s);
    NextOfBatch(taken, s);
    var given := Given(taken, s, x.post.outgoing[x.post.indices[s][0]]);
    ScriptFree(given, x.script[1..]);
    var z := given.(script := x.script[1..]);
    GivenOrderly(taken, s);
    OrderlyScript(given, z);
    LeavingErases(z, name, ms, x.rel.topics[name]);
  }

  lemma OrderlyScript(x: Tree, y: Tree)
    requires Orderly(x) && y.rel == x.rel && y.mode == x.mode
    ensures Orderly(y)
  {
  }

  // ---------------------------------------------------------------- steps of the calls

  /** A call of `publish` has to drain first. */
  predicate Full(x: Tree, name: string)
  {
    name in x.rel.topics && !HasRoom(x)
  }

  ghost predicate EveryoneServed(a: Tree, b: Tree)
  {
    forall s :: s in b.rel.held ==> Served(a, b, s)
  }

  lemma ApplyStartedSame(x: Tree)
    requires x.mode.depth > 0
    ensures var y := ApplyStarted(x); y.post == x.post && y.life == x.life && y.script == x.script
  {
  }

  lemma BlamedSame(was: bool, now: bool, y: Tree, x: Tree, z: Tree)
    requires Blamed(was, now, y, z) && |x.script| == |y.script|
    ensures Blamed(was, now, x, z)
  {
  }

  lemma ToldOn(was: bool, now: bool, x0: Tree, x: Tree, y: Tree, hs: seq<Handout>)
    requires Blamed(was, now, x0, x) && (now || Told(x0, x, hs)) && y.script == x.script && y.post == x.post
    requires y.life == x.life
    ensures Blamed(was, now, x0, y) && (now || Told(x0, y, hs))
  {
    hide Told;
    if !now { ToldSame(x0, x, x0, y, hs); }
  }

  lemma ReplayMore(was: bool, before: bool, now: bool, x0: Tree, x: Tree, y: Tree, z: Tree, j: nat, hs: seq<Handout>,
                   one: seq<Handout>, own: nat, ask: Ask)
    requires Blamed(was, before, x0, x) && y.script == x.script && Replaying(x0, y, j) && Blamed(before, now, y, z)
    requires Calm(y, z)
    requires before || Told(x0, x, hs)
    requires y.post == x.post && y.life.answered == x.life.answered + [ask] && y.mode.applying
    requires (now || Published(y, z, one, own, ask))
    ensures (before ==> now) && Blamed(was, now, x0, z) && (now || Told(x0, z, hs + one))
  {
    hide Told, Onwards, Inv, AllDone, Asks, Story;
    if !now {
      ToldReplay(x0, x, y, z, hs, one, ask);
    }
  }

  lemma BlamedAll(was: bool, before: bool, now: bool, x: Tree, y: Tree, z: Tree, c: Tree, t: TopicId, ask: Ask,
                  reached: set<SubId>)
    requires Blamed(was, before, x, y) && Calm(x, y) && FannedOut(y, z, t, ask.sender, ask.message, reached)
    requires Calm(z, c)
    requires Blamed(before, now, z, c)
    ensures Blamed(was, now, x, c) && (!now ==> !before) && |z.script| <= |y.script| <= |x.script|
    ensures |c.script| <= |z.script|
    ensures Onwards(z, c) && z.life.answered == y.life.answered
  {
    hide Onwards;
  }

  /** The topic looked up is the one the name leads to as long as it is there. */
  lemma FannedHandout(x: Tree, h: Handout, t: TopicId)
    requires Inv(x) && Inv(h.before) && Inv(h.after) && Calm(x, h.before) && !h.big && h.ask.name in x.rel.topics
    requires x.rel.topics[h.ask.name] == t && t in x.rel.members && t in h.before.rel.members
    requires FannedOut(h.before, h.after, t, h.ask.sender, h.ask.message, h.reached)
    ensures HandoutOk(h) && h.ask.name in h.before.rel.topics && h.before.rel.topics[h.ask.name] == t
  {
    hide RelOk, Listed, Bounded, Delivering, Tidy, Flags, FannedOut;
    RelParts(x.rel);
    RelParts(h.before.rel);
    MembersBelow(x);
  }

  lemma CalmOnwards(a: Tree, y: Tree, z: Tree)
    requires Onwards(a, y) && Calm(y, z)
    ensures Onwards(a, z)
  {
    hide Onwards;
    OnwardsTrans(a, y, z);
  }

  lemma ReplayTold(x: Tree, was: bool)
    ensures Told(x, x, []) && Blamed(was, was, x, x)
  {
    ToldNothing(x, x);
  }

  lemma LeavingSame(x: Tree, y: Tree, fault: bool)
    requires x.mode.depth > 0 && y == Shallower(x)
    ensures Told(x, y, []) && Blamed(fault, fault, x, y)
  {
    ToldNothing(x, y);
  }

  lemma EndSame(was: bool, now: bool, x0: Tree, x: Tree, y: Tree, z: Tree, b: Tree, hs: seq<Handout>)
    requires Blamed(was, now, x0, x) && (now || Told(x0, x, hs)) && y == Cleared(x) && Purged(y, z)
    requires b == ApplyEnded(z)
    ensures Blamed(was, now, x0, b) && (now || Told(x0, b, hs))
  {
    hide Told, Onwards;
    if !now {
      ToldSame(x0, x, x0, y, hs);
      ToldPurged(x0, y, z, hs);
      ToldSame(x0, z, x0, b, hs);
    }
  }

  lemma SweptTold(was: bool, now: bool, x: Tree, y: Tree, z: Tree, hs: seq<Handout>)
    requires Swept(x, y) && Blamed(was, now, y, z) && (now || Told(y, z, hs))
    ensures Blamed(was, now, x, z) && (now || Told(x, z, hs))
  {
    hide Told, Onwards;
    if !now { ToldSame(y, z, x, z, hs); }
  }

  lemma SweptServed(x: Tree, y: Tree, z: Tree)
    requires Inv(y) && Swept(x, y) && Calm(y, z) && Inv(z)
    ensures EveryoneServed(x, z)
  {
    hide Served, Inv, Onwards;
    InvKeys(y);
    forall s | s in z.rel.held ensures Served(x, z, s) {
      HeldOnwards(y, z, s);
      ServedNow(x, y, s);
      ServedLater(x, y, z, s);
    }
  }

  lemma HeldOnwards(y: Tree, z: Tree, s: SubId)
    requires Onwards(y, z) && s in z.rel.held
    ensures s in y.rel.held
  {
  }

  lemma NobodyServed(x: Tree)
    requires Inv(x) && Ready(x) && x.links.head.None?
    ensures EveryoneServed(x, x)
  {
    hide Served, RelOk, Bounded, Delivering, Tidy, Flags;
    HeadIsFirst(x.links);
    InvKeys(x);
    forall s | s in x.rel.held ensures Served(x, x, s) {
      ServedNow(x, x, s);
    }
  }

  lemma NothingServed(x: Tree, s: SubId)
    requires Inv(x) && Ready(x) && s in x.post.indices && |x.post.indices[s]| == 0
    ensures Served(x, x, s)
  {
    hide Inv, Served;
    ServedNow(x, x, s);
  }

  lemma DrainedTold(was: bool, now: bool, x: Tree, y: Tree, z: Tree, s: SubId, hs: seq<Handout>)
    requires OneDrained(x, y, s) && Inv(y) && Blamed(was, now, y, z) && (now || Told(y, z, hs)) && Calm(y, z) && Inv(z)
    ensures Blamed(was, now, x, z) && (now || Told(x, z, hs)) && Served(x, z, s)
  {
    hide Told, Onwards, Inv, Served;
    if !now { ToldSame(y, z, x, z, hs); }
    ServedNow(x, y, s);
    ServedLater(x, y, z, s);
  }

  /** Without a reaction the topic would still be there. */
  lemma LostTopic(was: bool, before: bool, x: Tree, y: Tree, t: TopicId)
    requires Inv(x) && Ready(x) && Calm(x, y) && t in x.rel.members && t !in y.rel.members && Blamed(was, before, x, y)
    ensures Blamed(was, true, x, y)
  {
    hide Inv, Onwards;
    NothingWaits(x);
  }

  lemma PublishedLaterBlamed(x: Tree, sender: Option<SubId>, name: string, message: Payload, fault: bool)
    ensures Blamed(fault, fault, x, PublishedLater(x, sender, name, message))
  {
  }

  lemma SweepReacts(start: Tree, x: Tree, z: Tree, s: SubId, pos: nat)
    requires Inv(start) && Ready(start) && start.links.head.Some?
    requires s in x.post.indices && Stirred(Taken(x, s), z)
    requires pos == 0 ==> x == SweepStarted(start) && start.links.head == Some(s)
    requires pos == 0 && start.script != [] ==>
               |x.post.indices[s]| > 0 && Inv(Taken(x, s)) && Orderly(x) && x.mode.depth > 0 && s in x.post.received
    requires pos == 0 && start.script != [] ==> |x.script| > 0 && Onwards(FirstReacted(x, s), z)
    requires pos > 0 && start.script != [] ==> Onwards(SweepReacted(start), x)
    ensures start.script != [] ==> Onwards(SweepReacted(start), Forgotten(z))
  {
    hide Inv, Onwards, FirstReacted, Stirred, Orderly, SweepReacted;
    if start.script != [] {
      if pos == 0 {
        SweepReactedIs(start);
      } else {
        StirredOnwards(Taken(x, s), z);
        OnwardsTrans(x, Taken(x, s), z);
        OnwardsTrans(SweepReacted(start), x, z);
      }
      ForgottenOnwards(SweepReacted(start), z);
    }
  }

  lemma ForgottenOnwards(a: Tree, z: Tree)
    requires Onwards(a, z)
    ensures Onwards(a, Forgotten(z))
  {
  }

  lemma SweepLasts(start: Tree, x0: Tree, x: Tree, pos: nat)
    requires Inv(start) && Ready(start) && start.links.head.Some?
    requires x0 == SweepStarted(start) && Sweeping(x0, x, None, pos)
    requires pos > 0 && start.script != [] ==> Onwards(SweepReacted(start), x)
    ensures start.script != [] ==> Onwards(SweepReacted(start), SweepEnded(x))
  {
    hide Inv, SweepReacted, Stirred, Spent;
  }

  /** A call of `publishBig`, and what was replayed after it. */
  ghost predicate PublishedBig(a: Tree, b: Tree, hs: seq<Handout>, ask: Ask)
  {
    && Story(a, b, hs) && 0 < |hs| && hs[0].ask == ask && hs[0].big && hs[0].before == a
    && b.life.answered == a.life.answered + Asks(hs[1..]) && Onwards(hs[0].after, b)
    && |b.script| <= |hs[0].after.script|
  }

  lemma BigBlamed(was: bool, now: bool, h: Handout, b: Tree)
    requires HandoutOk(h) && h.ask.name in h.before.rel.topics && Blamed(was, now, h.after, b)
    ensures Blamed(was, now, h.before, b) && |h.after.script| <= |h.before.script|
  {
    hide Inv, Onwards;
  }

  lemma PublishedBigBy(h: Handout, b: Tree, more: seq<Handout>)
    requires HandoutOk(h) && h.big && h.ask.name in h.before.rel.topics && Told(h.after, b, more) && Calm(h.after, b)
    ensures PublishedBig(h.before, b, [h] + more, h.ask)
  {
    hide Inv, Asks, GivenBy, Story, Onwards;
    StoryOne(h);
    StoryTrans(h.before, h.after, b, [h], more);
    assert ([h] + more)[1..] == more;
  }

  // ---------------------------------------------------------------- a run that meets an erased topic

  /** Nobody reacts, and someone who does not hold the topic waits: the vector grows by one. */
  lemma OneMore(a: Tree, b: Tree, hs: seq<Handout>, own: nat, ask: Ask, u: SubId)
    requires Published(a, b, hs, own, ask) && AtEase(a) && |a.post.outgoing| < UINT16_MAX && a.script == []
    requires ask.sender.None?
    requires ask.name in a.rel.topics && a.rel.topics[ask.name] in a.rel.members
    requires a.rel.members[a.rel.topics[ask.name]] != {}
    requires !a.post.leaked && u in a.links.chain && u !in a.rel.members[a.rel.topics[ask.name]]
    ensures b.rel == a.rel && AtEase(b) && !b.post.leaked && u in b.links.chain && b.script == []
    ensures b.life.nextId == a.life.nextId
    ensures b.post.outgoing == a.post.outgoing + [ask.message]
  {
    hide Inv, Onwards, GivenBy, Asks, Roomy;
    var h := hs[own];
    assert h in hs && HandoutOk(h);
    UndisturbedPublish(a, b, hs, own, ask);
    NothingWaits(a);
    var t := a.rel.topics[ask.name];
    var s :| s in a.rel.members[t];
    assert s in h.reached;
  }

  /** Nobody reacts, and everyone is reached: someone waits. */
  lemma OneWaits(a: Tree, b: Tree, hs: seq<Handout>, own: nat, ask: Ask, u: SubId)
    requires Published(a, b, hs, own, ask) && AtEase(a) && |a.post.outgoing| < UINT16_MAX && a.script == []
    requires ask.sender.None?
    requires ask.name in a.rel.topics && a.rel.topics[ask.name] in a.rel.members
    requires a.rel.members[a.rel.topics[ask.name]] == {u}
    requires !a.post.leaked && u in a.post.indices && |a.post.indices[u]| < MAX_INDICES
    ensures b.rel == a.rel && AtEase(b) && !b.post.leaked && u in b.links.chain && b.script == []
    ensures b.life.nextId == a.life.nextId && b.post.outgoing == a.post.outgoing + [ask.message]
  {
    hide Inv, Onwards, GivenBy, Asks;
    var h := hs[own];
    assert h in hs && HandoutOk(h);
    UndisturbedPublish(a, b, hs, own, ask);
    NothingWaits(a);
    assert u in h.reached;
    assert forall v :: v in h.reached ==> v == u;
  }

  /** Two subscribers; then the first holds a topic; then the second another. */
  ghost function Two(): (x: Tree)
    ensures Registered(x.rel) && Alive(x, 0) && Alive(x, 1) && AtEase(x) && x.rel.topics == map[] && x.rel.ops == []
    ensures x.life.nextId == 2 && x.script == [] && x.post.outgoing == [] && !x.post.leaked && x.rel.members == map[]
    ensures x.rel.held == map[0 := {}, 1 := {}] && x.life.missed == [] && x.post.indices == map[0 := [], 1 := []]
  {
    Created(Created(Empty([])))
  }

  ghost function Waiting(): (x: Tree)
    ensures Registered(x.rel) && Alive(x, 1) && AtEase(x) && x.rel.topics == map["waiting" := 2] && x.rel.ops == []
    ensures x.life.nextId == 3 && x.script == [] && x.post.outgoing == [] && !x.post.leaked
    ensures x.rel.members == map[2 := {0}]
    ensures x.rel.held == map[0 := {2}, 1 := {}] && x.life.missed == [] && x.post.indices == map[0 := [], 1 := []]
  {
    assert Two().rel.held[0] + {2} == {2};
    Subscribed(Two(), 0, "waiting")
  }

  ghost function Busy(): (x: Tree)
    ensures AtEase(x) && x.rel.topics == map["waiting" := 2, "busy" := 3] && x.rel.members == map[2 := {0}, 3 := {1}]
    ensures x.script == [] && x.post.outgoing == [] && !x.post.leaked && x.rel.ops == []
    ensures x.rel.held == map[0 := {2}, 1 := {3}] && x.life.missed == [] && x.post.indices == map[0 := [], 1 := []]
  {
    assert Waiting().rel.held[1] + {3} == {3};
    Subscribed(Waiting(), 1, "busy")
  }

  lemma WaitingIs()
    ensures Waiting() == Subscribed(Two(), 0, "waiting")
  {
  }
}
