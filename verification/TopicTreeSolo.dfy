/** What a call of `publish` comes to, exactly, on a topic with one member, whose handler ends a batch with the first
  * message.  With it a run can be followed through a delivery and into the replay behind it. */
module TopicTreeSolo {
  import opened Bytes
  import opened TopicRelation
  import opened IntrusiveList
  import opened TopicTreeState
  import opened TopicTreeStory

  /** The first handler of a batch that ends it. */
  lemma FirstStops(x: Tree, s: SubId, stop: bool, z: Tree)
    requires CanTake(x, s) && |x.post.indices[s]| > 0 && Stops(x)
    requires var y := Taken(x, s);
             && s in y.post.received && y.mode.depth > 0 && x.post.indices[s][0] < |y.post.outgoing|
             && var message := y.post.outgoing[x.post.indices[s][0]];
                && Inv(Given(y, s, message)) && Orderly(Given(y, s, message)) && CalledBack(y, s, message, stop, z)
    ensures stop && z == FirstReacted(x, s)
  {
    hide Inv, Orderly, ActedAll, Stirred, Steady;
  }

  lemma FirstReactedParts(x: Tree, s: SubId)
    requires s in x.post.indices && Inv(Taken(x, s)) && Orderly(x) && x.mode.depth > 0 && s in x.post.received
    requires |x.post.indices[s]| > 0 && |x.script| > 0
    ensures var y := FirstReacted(x, s);
            && y.mode.depth == x.mode.depth && y.post.indices.Keys == x.post.indices.Keys
            && y.post.due.Keys == x.post.due.Keys
  {
    hide Inv, Orderly, ActedAll, Steady, Onwards;
    var taken := Taken(x, s);
    NextOfBatch(taken, s);
    var given := Given(taken, s, x.post.outgoing[x.post.indices[s][0]]);
    ScriptFree(given, x.script[1..]);
    TakenOrderly(x, s);
    GivenOrderly(taken, s);
    OrderlyScript(given, given.(script := x.script[1..]));
  }

  /** A batch that may be taken off the list and delivered, and is longer than what will be delivered of it. */
  ghost predicate CanCut(x: Tree, s: SubId)
  {
    && Inv(x) && s in x.post.indices && |x.post.indices[s]| > 1 && x.post.taker.None? && !x.mode.sweeping
    && Fresh(x.post, s) && Orderly(x) && Stops(x)
  }

  lemma CanCutTake(x: Tree, s: SubId)
    requires CanCut(x, s)
    ensures Linked(x.links) && s in x.links.chain
    ensures var d := Detached(x, s);
            && CanTake(d, s) && |d.post.indices[s]| > 1 && Stops(d) && d.mode.depth == x.mode.depth + 1
            && d.post == x.post && d.script == x.script
  {
    hide Inv, Orderly, Linked, Unlinked;
    DetachedKeeps(x, s);
    DetachedOrderly(x, s);
  }

  /** `drain` of one subscriber, before `leaveDraining`. */
  ghost function OneCut(x: Tree, s: SubId): (y: Tree)
    requires CanCut(x, s)
    ensures y.mode.depth == x.mode.depth + 1
    ensures s in y.post.indices <==> s in x.post.indices
    ensures s in y.post.due <==> s in x.post.due
  {
    CanCutTake(x, s);
    FirstReactedParts(Detached(x, s), s);
    Settled(Cut(FirstReacted(Detached(x, s), s), s))
  }

  lemma OneCutIs(x: Tree, s: SubId)
    requires CanCut(x, s)
    ensures Linked(x.links) && s in x.links.chain
    ensures var d := Detached(x, s);
            && CanTake(d, s) && |d.post.indices[s]| > 1 && Stops(d)
            && OneCut(x, s) == Settled(Cut(FirstReacted(d, s), s))
  {
    hide CanCut, Inv, Orderly, Settled, Cut, FirstReacted, Detached;
    CanCutTake(x, s);
  }

  lemma CanCutMany(x: Tree, s: SubId)
    ensures CanCut(x, s) ==> s in x.post.indices && |x.post.indices[s]| > 1
  {
  }

  /** No longer to be reached with what is published to `t`. */
  predicate Detaches(x: Tree, s: SubId, t: TopicId)
  {
    x.mode.pending && (s in x.life.doomed || s !in x.rel.held || t !in x.rel.held[s])
  }

  /** The loop of `publish` may visit `s`. */
  ghost predicate CanVisit(x: Tree, s: SubId, t: TopicId)
  {
    && s in x.post.indices && s in x.post.due && |x.post.indices[s]| <= MAX_INDICES && !Detaches(x, s, t)
    && (|x.post.indices[s]| == MAX_INDICES ==> CanCut(x, s))
  }

  /** What a visit leaves, and whether the index was stored. */
  ghost function Visited(x: Tree, s: SubId, t: TopicId, message: Payload): (r: (Tree, bool))
    requires CanVisit(x, s, t)
  {
    if |x.post.indices[s]| < MAX_INDICES then (Reached(x, s, message), true)
    else
      var d := Shallower(OneCut(x, s));
      if Detaches(d, s, t) then (d, false) else (Reached(d, s, message), true)
  }

  /** `s` is the only member of the topic, is not the sender, and may be visited. */
  ghost predicate OnlyVisits(x: Tree, s: SubId, t: TopicId, sender: Option<SubId>, message: Payload)
  {
    t in x.rel.members && x.rel.members[t] == {s} && Some(s) != sender && CanVisit(FanStarted(x, t, message), s, t)
  }

  /** `publish` from its loop up to `leaveDraining`. */
  ghost function VisitedOnly(x: Tree, s: SubId, t: TopicId, sender: Option<SubId>, message: Payload): Tree
    requires OnlyVisits(x, s, t, sender, message)
  {
    var (v, stored) := Visited(FanStarted(x, t, message), s, t, message);
    FanEnded(v, message, stored)
  }

  /** The call of `publish` visits just `s`, and drains nobody for room. */
  ghost predicate Solo(x: Tree, s: SubId, ask: Ask)
  {
    && Inv(x) && Ready(x) && ask.name in x.rel.topics && HasRoom(x)
    && OnlyVisits(x, s, x.rel.topics[ask.name], ask.sender, ask.message)
  }

  ghost function FannedSolo(x: Tree, s: SubId, ask: Ask): (y: Tree)
    requires Solo(x, s, ask)
  {
    VisitedOnly(x, s, x.rel.topics[ask.name], ask.sender, ask.message)
  }

  /** The replay begins with a call of `publish` on such a topic. */
  ghost predicate SoloReplay(x: Tree, s: SubId)
  {
    && Inv(x) && Ready(x) && x.mode.applying && x.rel.ops != [] && x.rel.ops[0].PublishOp?
    && Solo(Crossed(x, 0), s, FirstAsk(x))
  }

  function FirstAsk(x: Tree): Ask
    requires x.rel.ops != [] && x.rel.ops[0].PublishOp?
  {
    Ask(x.rel.ops[0].sender, x.rel.ops[0].name, x.rel.ops[0].message)
  }

  /** That call, up to `leaveDraining`. */
  ghost function FannedReplay(x: Tree, u: SubId): Tree
    requires SoloReplay(x, u)
  {
    FannedSolo(Crossed(x, 0), u, FirstAsk(x))
  }

  /** If the replay of `x` begins like that, what its first call has come to lasts in `b`. */
  ghost predicate FirstReplayed(x: Tree, b: Tree)
  {
    forall u: SubId | SoloReplay(x, u) :: Onwards(FannedReplay(x, u), b)
  }

  /** What `leaveDraining` makes of `y`. */
  ghost predicate Left(y: Tree, b: Tree)
  {
    && Inv(y) && Unwound(y)
    && if !y.mode.pending || y.mode.applying then b == Shallower(y) else FirstReplayed(ApplyStarted(y), b)
  }

  /** What the call comes to. */
  ghost predicate SoloDone(x: Tree, b: Tree, s: SubId, ask: Ask)
    requires Solo(x, s, ask)
  {
    FannedSolo(x, s, ask).mode.applying == x.mode.applying && Left(FannedSolo(x, s, ask), b)
  }

  /** The call is of that kind only if this is what it comes to. */
  ghost predicate SolosDone(x: Tree, b: Tree, ask: Ask)
  {
    forall s: SubId | Solo(x, s, ask) :: SoloDone(x, b, s, ask)
  }

  lemma SoloParts(x: Tree, ask: Ask)
    ensures x.mode.depth > 0 || ask.name !in x.rel.topics || !HasRoom(x) ==>
              forall b :: SolosDone(x, b, ask)
  {
    hide Inv, OnlyVisits;
  }

  lemma SoloDoneBy(x: Tree, y: Tree, z: Tree, b: Tree, ask: Ask)
    requires HasRoom(x) ==> y == x
    requires z.mode.applying == y.mode.applying && Left(z, b)
    requires ask.name in x.rel.topics && var t := x.rel.topics[ask.name];
             forall s: SubId | OnlyVisits(y, s, t, ask.sender, ask.message) ::
               z == VisitedOnly(y, s, t, ask.sender, ask.message)
    ensures SolosDone(x, b, ask)
  {
    hide Inv, OnlyVisits, VisitedOnly, Left;
  }

  lemma NoReplayFirst(x: Tree, b: Tree)
    requires x.rel.ops != [] && !x.rel.ops[0].PublishOp?
    ensures FirstReplayed(x, b)
  {
  }

  lemma FirstReplayedBy(x: Tree, y: Tree, b: Tree)
    requires x.rel.ops != [] && x.rel.ops[0].PublishOp? && y == Crossed(x, 0) && y.mode.applying
    requires SolosDone(y, b, FirstAsk(x))
    ensures FirstReplayed(x, b)
  {
    hide Inv, Solo, FannedSolo, Onwards;
    forall u: SubId | SoloReplay(x, u) ensures Onwards(FannedReplay(x, u), b) {
      var z := FannedSolo(y, u, FirstAsk(x));
      assert SoloDone(y, b, u, FirstAsk(x));
      ShallowerOnwards(z);
    }
  }

  lemma ShallowerOnwards(z: Tree)
    requires z.mode.depth > 0
    ensures Onwards(z, Shallower(z))
  {
  }

  lemma FirstReplayedOn(x: Tree, y: Tree, z: Tree)
    requires FirstReplayed(x, y) && Onwards(y, z)
    ensures FirstReplayed(x, z)
  {
    hide Onwards, SoloReplay, FannedReplay;
    forall u: SubId | SoloReplay(x, u) ensures Onwards(FannedReplay(x, u), z) {
      OnwardsTrans(FannedReplay(x, u), y, z);
    }
  }

  lemma FirstReplayedLasts(x0: Tree, x: Tree, z: Tree, i: nat)
    requires if i == 0 then x == x0 && x.rel.ops == [] else FirstReplayed(x0, x)
    requires Purged(Cleared(x), z)
    ensures FirstReplayed(x0, ApplyEnded(z))
  {
    hide Onwards, FannedReplay;
    if i > 0 {
      hide SoloReplay;
      OnwardsTrans(x, Cleared(x), z);
      OnwardsTrans(x, z, ApplyEnded(z));
      FirstReplayedOn(x0, x, ApplyEnded(z));
    }
  }

  // ---------------------------------------------------------------- a run that meets a queued change

  /** Whom the first handler is called for, and what it finds. */
  lemma FirstFinds(x: Tree, s: SubId) returns (g: Tree)
    requires CanTake(x, s) && |x.post.indices[s]| > 0 && |x.script| > 0
    ensures Inv(g) && Orderly(g) && g.mode.depth > 0 && FirstReacted(x, s) == ActedAll(g, x.script[0].actions)
    ensures g.rel == x.rel && g.mode == x.mode && g.life == x.life && g.script == x.script[1..]
    ensures g.post.indices == x.post.indices[s := []] && g.post.outgoing == x.post.outgoing
    ensures x.post.indices[s][0] < |x.post.outgoing|
    ensures g.post.received == x.post.received[s := x.post.received[s] + [x.post.outgoing[x.post.indices[s][0]]]]
  {
    hide Inv, Orderly, ActedAll, Stirred, Steady;
    var taken := Taken(x, s);
    NextOfBatch(taken, s);
    var given := Given(taken, s, x.post.outgoing[x.post.indices[s][0]]);
    ScriptFree(given, x.script[1..]);
    TakenOrderly(x, s);
    GivenOrderly(taken, s);
    g := given.(script := x.script[1..]);
    OrderlyScript(given, g);
  }

  /** What a cut batch leaves is what its handler left, but for the messages. */
  lemma CutLeaves(x: Tree, s: SubId) returns (g: Tree)
    requires CanCut(x, s)
    ensures Inv(g) && Orderly(g) && g.mode.depth > 0
    ensures g.rel == x.rel && g.mode == Deeper(x).mode && g.life == x.life && g.script == x.script[1..]
    ensures g.post.indices == x.post.indices[s := []] && g.post.outgoing == x.post.outgoing
    ensures var y, z := OneCut(x, s), ActedAll(g, x.script[0].actions);
            && y.rel == z.rel && y.mode == z.mode && y.life == z.life && y.script == z.script
            && y.post.indices == z.post.indices && |y.post.outgoing| <= |z.post.outgoing|
  {
    hide Inv, Orderly, ActedAll, FirstReacted, CanTake, Linked, Unlinked;
    OneCutIs(x, s);
    var d := Detached(x, s);
    assert d.script == x.script && d.post == x.post && d.rel == x.rel && d.life == x.life && d.mode == Deeper(x).mode;
    g := FirstFinds(d, s);
  }

  /** A message that is stored for the one member, who has room. */
  lemma SoloStores(x: Tree, s: SubId, ask: Ask)
    requires Solo(x, s, ask) && AtEase(x) && |x.post.indices[s]| < MAX_INDICES
    ensures var y := Shallower(FannedSolo(x, s, ask));
            && y.rel == x.rel && y.script == x.script && y.life == x.life && y.mode == x.mode
            && y.post.indices.Keys == x.post.indices.Keys
            && |y.post.indices[s]| == |x.post.indices[s]| + 1 && |y.post.outgoing| == |x.post.outgoing| + 1
            && forall u :: u in x.post.indices && u != s ==> y.post.indices[u] == x.post.indices[u]
  {
    hide Inv, Listing;
  }

  lemma SoloExactly(x: Tree, s: SubId, ask: Ask)
    requires Solo(x, s, ask) && AtEase(x) && |x.post.indices[s]| < MAX_INDICES
    ensures s in x.post.indices && s in x.post.due
    ensures var y, n := Shallower(FannedSolo(x, s, ask)), |x.post.outgoing|;
            && y.post == x.post.(indices := x.post.indices[s := x.post.indices[s] + [n % 65536]],
                                 due := x.post.due[s := x.post.due[s] + [ask.message]],
                                 outgoing := x.post.outgoing + [ask.message],
                                 truncated := x.post.truncated || n > UINT16_MAX)
  {
    hide Inv, Listing;
  }

  /** Between deliveries the only member of a topic may be visited. */
  lemma SoloAtEase(x: Tree, s: SubId, ask: Ask)
    requires Inv(x) && AtEase(x) && ask.name in x.rel.topics && HasRoom(x)
    requires var t := x.rel.topics[ask.name]; t in x.rel.members && x.rel.members[t] == {s}
    requires ask.sender != Some(s) && s in x.post.indices && (|x.post.indices[s]| < MAX_INDICES || Stops(x))
    ensures Solo(x, s, ask)
  {
    hide RelOk, Listed, Delivering, Tidy, Orderly, Fresh;
    NothingQueued(x);
    if Stops(x) {
      SoloFull(x, s, x.rel.topics[ask.name], ask.message);
    }
    assert |x.post.indices[s]| <= MAX_INDICES;
  }

  lemma SoloFull(x: Tree, s: SubId, t: TopicId, message: Payload)
    requires Inv(x) && Ready(x) && t in x.rel.members && s in x.post.indices && Stops(x)
    ensures |x.post.indices[s]| == MAX_INDICES ==> CanCut(FanStarted(x, t, message), s)
  {
    hide Inv;
    NothingWaits(x);
    FanStartInv(x, t, message);
    AllFresh(x);
    assert Fresh(x.post, s);
  }

  /** Two subscribers with a topic each, and `i` and `j` messages that wait for them. */
  ghost predicate Filled(x: Tree, i: nat, j: nat)
  {
    && Inv(x) && AtEase(x) && x.rel == Busy().rel && x.life.missed == [] && x.script == []
    && x.post.indices.Keys == {0, 1} && |x.post.indices[0]| == i && |x.post.indices[1]| == j
    && |x.post.outgoing| == i + j
  }

  lemma FilledFacts(x: Tree, i: nat, j: nat)
    requires Filled(x, i, j)
    ensures x.rel.topics == map["waiting" := 2, "busy" := 3] && x.rel.members == map[2 := {0}, 3 := {1}]
    ensures x.rel.held == map[0 := {2}, 1 := {3}] && x.rel.ops == []
    ensures !x.mode.pending && !x.mode.applying && x.life.doomed == {}
  {
    hide Inv, Busy;
    NothingQueued(x);
  }

  lemma FilledAtEase(x: Tree, i: nat, j: nat)
    requires Filled(x, i, j)
    ensures Inv(x) && AtEase(x)
  {
    hide Inv, Busy;
  }

  lemma FilledScript(x: Tree, y: Tree)
    requires Filled(x, MAX_INDICES, MAX_INDICES) && y == x.(script := y.script)
    ensures Inv(y) && AtEase(y) && Filled(y.(script := []), MAX_INDICES, MAX_INDICES)
  {
    hide Inv, Busy;
    ScriptFree(x, y.script);
    assert y.(script := []) == x;
  }

  lemma BusyIsFilled()
    requires Inv(Busy())
    ensures Filled(Busy(), 0, 0)
  {
    hide Inv;
  }

  /** One more message waits for one of the two. */
  lemma FillsOn(x: Tree, i: nat, j: nat, s: SubId, ask: Ask, b: Tree)
    requires Filled(x, i, j) && ask.sender == None && Inv(b)
    requires if s == 0 then ask.name == "waiting" && i < MAX_INDICES
             else s == 1 && ask.name == "busy" && j < MAX_INDICES && i <= MAX_INDICES
    requires j <= MAX_INDICES
    requires SolosDone(x, b, ask)
    ensures Filled(b, if s == 0 then i + 1 else i, if s == 0 then j else j + 1)
  {
    hide Inv, Busy, Solo, FannedSolo;
    FilledFacts(x, i, j);
    SoloAtEase(x, s, ask);
    SoloStores(x, s, ask);
    assert SoloDone(x, b, s, ask);
  }

  /** The first handler publishes elsewhere and leaves its topic; the second has it come back. */
  function Leaver(message: Payload): Reaction
  {
    Reaction([DoPublish(None, "busy", message), DoUnsubscribe(0, "waiting")], true)
  }

  const RETURNER := Reaction([DoSubscribe(0, "waiting")], true)

  lemma ActedOne(x: Tree, a: Action)
    requires Inv(x) && x.mode.depth > 0 && Orderly(x)
    ensures ActedAll(x, [a]) == Acted(x, a)
  {
    hide Inv, Acted, Stirred, Steady, Orderly;
    assert [a][1..] == [];
  }

  lemma ActedTwo(x: Tree, a: Action, b: Action)
    requires Inv(x) && x.mode.depth > 0 && Orderly(x)
    ensures Inv(Acted(x, a)) && ActedAll(x, [a, b]) == Acted(Acted(x, a), b)
  {
    hide Inv, Acted, Stirred, Steady, Orderly;
    ActedKeeps(x, a);
    ActedDepth(x, Acted(x, a));
    ActedOne(Acted(x, a), b);
    assert [a, b][1..] == [b];
  }

  lemma PublishQueues(x: Tree, name: string, message: Payload)
    requires Inv(x) && name in x.rel.topics && x.rel.ops == []
    ensures var y := Acted(x, DoPublish(None, name, message));
            && y.rel == x.rel.(ops := [PublishOp(None, name, message)]) && y.mode == x.mode.(pending := true)
            && y.life.missed == x.life.missed && y.life.doomed == x.life.doomed && y.script == x.script
            && y.post == x.post
  {
    hide Inv;
  }

  lemma LeaveQueues(x: Tree, s: SubId, name: string, t: TopicId)
    requires Inv(x) && Alive(x, s) && name in x.rel.topics && x.rel.topics[name] == t && t in x.rel.held[s]
    requires x.mode.iterating == Some(t)
    ensures var y := Acted(x, DoUnsubscribe(s, name));
            && y.rel == LeaveLater(x.rel, s, t) && y.mode == x.mode.(pending := true) && y.life == x.life
            && y.script == x.script && y.post == x.post
  {
    hide Inv, Queued, LeaveLater, Registered;
    InvRegistered(x);
  }

  lemma LeaverRel(r: Rel, op: Op)
    requires r.held == map[0 := {2}, 1 := {3}] && r.ops == [op]
    ensures LeaveLater(r, 0, 2) == r.(ops := [op, UnsubscribeOp(0, 2)], held := map[0 := {}, 1 := {3}])
  {
    assert r.held[0] - {2} == {};
  }

  /** Both changes are queued, as the handler runs inside a delivery to that topic. */
  lemma LeaverQueues(g: Tree, message: Payload)
    requires Inv(g) && g.mode.depth > 0 && Orderly(g) && g.mode.iterating == Some(2) && g.rel == Busy().rel
    requires g.life.doomed == {}
    ensures var y := ActedAll(g, Leaver(message).actions);
            && y.rel == g.rel.(ops := [PublishOp(None, "busy", message), UnsubscribeOp(0, 2)],
                               held := map[0 := {}, 1 := {3}])
            && y.mode == g.mode.(pending := true) && y.life.missed == g.life.missed && y.life.doomed == {}
            && y.script == g.script && y.post == g.post
  {
    hide Inv, Orderly, Busy, Acted, ActedAll, LeaveLater;
    ActedTwo(g, DoPublish(None, "busy", message), DoUnsubscribe(0, "waiting"));
    PublishQueues(g, "busy", message);
    var x := Acted(g, DoPublish(None, "busy", message));
    LeaveQueues(x, 0, "waiting", 2);
    LeaverRel(x.rel, PublishOp(None, "busy", message));
  }

  /** The change that comes back meets the one that is queued. */
  lemma ReturnerMisses(g: Tree)
    requires Inv(g) && g.mode.depth > 0 && Orderly(g) && g.mode.iterating == Some(3) && g.life.doomed == {}
    requires "waiting" in g.rel.topics && g.rel.topics["waiting"] == 2 && 0 in g.rel.held && g.rel.held[0] == {}
    requires g.rel.ops == [Done, UnsubscribeOp(0, 2)]
    ensures var y := ActedAll(g, RETURNER.actions);
            y.life.missed == g.life.missed + [Miss(g.rel, 0, 2)] && Breaks(Miss(g.rel, 0, 2))
  {
    hide Inv, Orderly;
    ActedOne(g, DoSubscribe(0, "waiting"));
    assert g.rel.ops[1] == UnsubscribeOp(0, 2);
    assert Queued(g.rel.ops, 0, 2);
    MissBreaks(g, 0, "waiting", false);
  }

  /** The first call, up to where the replay begins. */
  lemma LeaverFanned(x: Tree, ask: Ask)
    requires Filled(x.(script := []), MAX_INDICES, MAX_INDICES) && x.script == [Leaver(ask.message), RETURNER]
    requires ask == Ask(None, "waiting", ask.message)
    ensures Solo(x, 0, ask)
    ensures var y := FannedSolo(x, 0, ask);
            && y.rel.topics == map["waiting" := 2, "busy" := 3] && y.rel.members == map[2 := {0}, 3 := {1}]
            && y.rel.held == map[0 := {}, 1 := {3}]
            && y.rel.ops == [PublishOp(None, "busy", ask.message), UnsubscribeOp(0, 2)]
            && y.mode.pending && !y.mode.applying && y.script == [RETURNER] && y.life.missed == []
            && y.life.doomed == {} && y.post.indices.Keys == {0, 1} && |y.post.indices[1]| == MAX_INDICES
            && |y.post.outgoing| < UINT16_MAX
  {
    hide Inv, Busy, ActedAll, Orderly, CanCut, OneCut, Solo, Leaver;
    FilledFacts(x.(script := []), MAX_INDICES, MAX_INDICES);
    ScriptFree(x.(script := []), x.script);
    assert x.(script := []).(script := x.script) == x;
    LeaverStops(ask.message);
    SoloFull(x, 0, 2, ask.message);
    SoloAtEase(x, 0, ask);
    var f := FanStarted(x, 2, ask.message);
    var g := CutLeaves(f, 0);
    LeaverQueues(g, ask.message);
  }

  lemma LeaverStops(message: Payload)
    ensures Leaver(message).stop
  {
  }

  /** The replayed call, up to where it ends: the handler it calls has missed. */
  lemma ReturnerFanned(x: Tree, ask: Ask)
    requires Inv(x) && Ready(x) && x.mode.applying && x.mode.pending && ask == Ask(None, "busy", ask.message)
    requires x.rel.topics == map["waiting" := 2, "busy" := 3] && x.rel.members == map[2 := {0}, 3 := {1}]
    requires x.rel.held == map[0 := {}, 1 := {3}] && x.rel.ops == [Done, UnsubscribeOp(0, 2)]
    requires x.script == [RETURNER] && x.life.missed == [] && x.life.doomed == {}
    requires 1 in x.post.indices && |x.post.indices[1]| == MAX_INDICES && |x.post.outgoing| < UINT16_MAX
    ensures Solo(x, 1, ask)
    ensures FannedSolo(x, 1, ask).life.missed == [Miss(x.rel, 0, 2)] && Breaks(Miss(x.rel, 0, 2))
  {
    hide Inv, ActedAll, Orderly, CanCut, OneCut, Solo, Breaks;
    SoloFull(x, 1, 3, ask.message);
    var f := FanStarted(x, 3, ask.message);
    InvKeysOf(x);
    assert Solo(x, 1, ask) by { SoloByParts(x, 1, 3, ask); }
    var g := CutLeaves(f, 1);
    ReturnerMisses(g);
  }

  lemma InvKeysOf(x: Tree)
    requires Inv(x)
    ensures x.rel.held.Keys == x.post.indices.Keys == x.post.due.Keys
  {
  }

  lemma SoloByParts(x: Tree, s: SubId, t: TopicId, ask: Ask)
    requires Inv(x) && Ready(x) && ask.name in x.rel.topics && x.rel.topics[ask.name] == t
    requires OnlyVisits(x, s, t, ask.sender, ask.message) && HasRoom(x)
    ensures Solo(x, s, ask)
  {
    hide Inv, OnlyVisits;
  }

  /** The first change that was missed was one of `s` and `t`, and would have broken the relation. */
  ghost predicate FirstMiss(missed: seq<Miss>, s: SubId, t: TopicId)
  {
    missed != [] && missed[0].s == s && missed[0].t == t && Breaks(missed[0])
  }

  /** With these two handlers a call of `publish` leads to a change that meets a queued one. */
  lemma LeadsToMiss(x: Tree, ask: Ask, b: Tree)
    requires Filled(x.(script := []), MAX_INDICES, MAX_INDICES) && x.script == [Leaver(ask.message), RETURNER]
    requires ask == Ask(None, "waiting", ask.message)
    requires SolosDone(x, b, ask)
    ensures FirstMiss(b.life.missed, 0, 2)
  {
    hide Inv, Filled, Solo, FannedSolo, Breaks, Orderly, Leaver, Crossed;
    LeaverFanned(x, ask);
    assert SoloDone(x, b, 0, ask);
    var y := FannedSolo(x, 0, ask);
    LeavingApplies(y);
    var z := ApplyStarted(y);
    ReplayStarts(z);
    CrossedKeeps(z, z, 0);
    CrossedFirst(z, ask.message);
    ReturnerFanned(Crossed(z, 0), FirstAsk(z));
    assert SoloReplay(z, 1);
  }

  lemma CrossedFirst(z: Tree, message: Payload)
    requires z.rel.ops == [PublishOp(None, "busy", message), UnsubscribeOp(0, 2)]
    ensures var c := Crossed(z, 0);
            && c.rel == z.rel.(ops := [Done, UnsubscribeOp(0, 2)]) && c.mode == z.mode && c.script == z.script
            && c.post == z.post && c.life.missed == z.life.missed && c.life.doomed == z.life.doomed
  {
    hide Publishes;
  }
}
