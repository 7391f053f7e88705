/** The state of the publish/subscribe tree of TopicTree.h as a value, its invariant, and what every step keeps of
  * it. */
module TopicTreeState {
  import opened Bytes
  import opened TopicRelation
  import opened IntrusiveList

  datatype Action =
    | DoSubscribe(s: SubId, name: string)
    | DoUnsubscribe(s: SubId, name: string)
    | DoPublish(sender: Option<SubId>, name: string, message: Payload)
    | DoFree(s: SubId)

  datatype Reaction = Reaction(actions: seq<Action>, stop: bool)

  const MAX_INDICES: nat := 32
  const UINT16_MAX: nat := 65535

  /** All there is to say about a tree.  From `due` on it is bookkeeping of the proof:
    * `due`: the messages published to a subscriber; `inFlight`: the message being handed out;
    * `taker`, `taking`: the batch being delivered; `order`: the list as it was when a drain of all began;
    * `stoppers`: who cut a batch short; `leaked`: a subscriber was freed with messages undelivered;
    * `truncated`: an index did not fit sixteen bits; `asked`: what handlers published, in order; `answered`: what of it
    * has been replayed; `calls`: the handlers called, in order, and whether they stop their batch; `missed`: changes of
    * pairs that had one queued, which handlers asked for during a replay. */
  datatype Tree = Tree(rel: Rel, links: Links, post: Post, mode: Mode, life: Life, script: seq<Reaction>)

  datatype Post = Post(indices: map<SubId, seq<nat>>, outgoing: seq<Payload>, received: map<SubId, seq<Payload>>,
                       due: map<SubId, seq<Payload>>, inFlight: seq<Payload>, taker: Option<SubId>, taking: seq<nat>,
                       stoppers: set<SubId>, leaked: bool, truncated: bool, calls: seq<Called>)

  /** A handler was given a message, and stops the batch or not. */
  datatype Called = Called(s: SubId, message: Payload, stop: bool)

  datatype Mode = Mode(depth: nat, iterating: Option<TopicId>, pending: bool, applying: bool, sweeping: bool,
                       order: seq<SubId>)

  datatype Life = Life(doomed: set<SubId>, pendingFree: seq<SubId>, nextId: nat, asked: seq<Ask>, answered: seq<Ask>,
                       missed: seq<Miss>)

  /** A change of the pair of `s` and `t`, and the relation it met. */
  datatype Miss = Miss(rel: Rel, s: SubId, t: TopicId)

  /** A call of `publish`. */
  datatype Ask = Ask(sender: Option<SubId>, name: string, message: Payload)

  /** The calls of `publish` in a queue. */
  function Publishes(ops: seq<Op>): seq<Ask>
  {
    if ops == [] then [] else
      (if ops[0].PublishOp? then [Ask(ops[0].sender, ops[0].name, ops[0].message)] else []) + Publishes(ops[1..])
  }

  lemma {:induction false} PublishesConcat(a: seq<Op>, b: seq<Op>)
    ensures Publishes(a + b) == Publishes(a) + Publishes(b)
  {
    if a == [] {
      assert a + b == b;
    } else {
      assert (a + b)[1..] == a[1..] + b;
      PublishesConcat(a[1..], b);
      Assoc3(if a[0].PublishOp? then [Ask(a[0].sender, a[0].name, a[0].message)]
        else [], Publishes(a[1..]), Publishes(b));
    }
  }

  lemma OnePublish(op: Op)
    ensures Publishes([op]) == if op.PublishOp? then [Ask(op.sender, op.name, op.message)] else []
  {
    assert [op][1..] == [];
  }

  ghost predicate AllDone(ops: seq<Op>, i: nat)
  {
    forall k :: 0 <= k < i && k < |ops| ==> ops[k] == Done
  }

  lemma {:induction false} DonePublishNothing(ops: seq<Op>)
    requires AllDone(ops, |ops|)
    ensures Publishes(ops) == []
  {
    if ops != [] {
      assert forall k :: 0 <= k < |ops[1..]| ==> ops[1..][k] == ops[k + 1];
      DonePublishNothing(ops[1..]);
    }
  }

  /** Crossing out the first op left takes its call, if it is one, off what is still to be answered. */
  lemma CrossingOut(ops: seq<Op>, i: nat)
    requires i < |ops| && AllDone(ops, i)
    ensures var rest := ops[i := Done];
            && AllDone(rest, i + 1)
            && Publishes(ops) == Publishes([ops[i]]) + Publishes(rest) && Publishes(rest) == Publishes(ops[i + 1..])
  {
    hide Publishes;
    var rest := ops[i := Done];
    assert ops == ops[..i] + ([ops[i]] + ops[i + 1..]);
    assert rest == rest[..i + 1] + ops[i + 1..];
    PublishesConcat(ops[..i], [ops[i]] + ops[i + 1..]);
    PublishesConcat([ops[i]], ops[i + 1..]);
    PublishesConcat(rest[..i + 1], ops[i + 1..]);
    DonePublishNothing(ops[..i]);
    DonePublishNothing(rest[..i + 1]);
    assert [] + Publishes(ops[i + 1..]) == Publishes(ops[i + 1..]);
    assert [] + (Publishes([ops[i]]) + Publishes(ops[i + 1..])) == Publishes([ops[i]]) + Publishes(ops[i + 1..]);
  }

  /** The messages a list of indices stands for. */
  function Pick(idx: seq<nat>, messages: seq<Payload>): seq<Payload>
  {
    seq(|idx|, i requires 0 <= i < |idx| => if idx[i] < |messages| then messages[idx[i]] else "")
  }

  lemma PickConcat(x: seq<nat>, y: seq<nat>, messages: seq<Payload>)
    ensures Pick(x + y, messages) == Pick(x, messages) + Pick(y, messages)
  {
  }

  function Owed(x: Tree, s: SubId): seq<nat>
    requires s in x.post.indices
  {
    (if x.post.taker == Some(s) then x.post.taking else []) + x.post.indices[s]
  }

  // ---------------------------------------------------------------- invariants

  ghost predicate Shape(x: Tree)
  {
    && x.rel.held.Keys == x.post.indices.Keys == x.post.received.Keys == x.post.due.Keys
    && x.life.doomed <= x.rel.held.Keys && Distinct(x.life.pendingFree)
    && (forall s :: s in x.life.pendingFree <==> s in x.life.doomed)
    && (forall s :: s in x.rel.held ==> s < x.life.nextId) && (forall t :: t in x.rel.members ==> t < x.life.nextId)
    && (forall s :: s in x.links.chain ==> s in x.rel.held) && (x.post.taker.Some? ==> x.post.taker.value in x.rel.held)
  }

  ghost predicate Flags(x: Tree)
  {
    && (x.rel.ops != [] || x.life.doomed != {} ==> x.mode.pending)
    && (x.mode.pending ==> x.mode.depth > 0 || x.mode.applying)
    && (x.mode.iterating.Some? ==> x.mode.depth > 0 && x.mode.iterating.value in x.rel.members)
    && (x.mode.sweeping ==> x.mode.iterating.None?)
  }

  /** Outside replay only the topic being iterated has changes queued. */
  ghost predicate Orderly(x: Tree)
  {
    !x.mode.applying ==> forall k :: 0 <= k < |x.rel.ops| && x.rel.ops[k].Touches() ==>
      x.mode.iterating == Some(x.rel.ops[k].t)
  }

  /** The list holds those with messages to drain; a drain of all leaves the drained ones in it until it ends. */
  ghost predicate Listed(x: Tree)
  {
    && Linked(x.links) && (x.mode.sweeping ==> Onward(x.mode.order, x.links))
    && (forall s :: s in x.post.indices && x.post.indices[s] != [] ==> s in x.links.chain && s !in x.life.doomed)
    && (!x.mode.sweeping ==> forall s :: s in x.links.chain ==> s in x.post.indices && x.post.indices[s] != [])
  }

  /** At most 32 indices each, all of 16 bits and in range. */
  ghost predicate Bounded(x: Tree)
  {
    && |x.post.inFlight| <= 1
    && (forall k :: k in x.post.taking ==> k < |x.post.outgoing|)
    && forall s :: s in x.post.indices ==>
         |x.post.indices[s]| <= MAX_INDICES && forall k :: k in x.post.indices[s] ==>
           k < |x.post.outgoing| + |x.post.inFlight| && k <= UINT16_MAX
  }

  /** What was published to a subscriber is what it has received, then what its indices stand for, in order. */
  ghost predicate InOrder(x: Tree, s: SubId)
    requires s in x.post.due && s in x.post.received && s in x.post.indices
  {
    x.post.due[s] == x.post.received[s] + Pick(Owed(x, s), x.post.outgoing + x.post.inFlight)
  }

  ghost predicate Delivering(x: Tree)
    requires x.post.indices.Keys == x.post.received.Keys == x.post.due.Keys
  {
    !x.post.truncated ==> forall s :: s in x.post.due && s !in x.life.doomed && s !in x.post.stoppers ==> InOrder(x, s)
  }

  /** Unless undelivered messages were freed, nothing is kept for nobody, and indices fit. */
  ghost predicate Tidy(x: Tree)
  {
    && (x.post.truncated ==> x.post.leaked)
    && (!x.post.leaked ==>
      |x.post.outgoing| <= UINT16_MAX + 1 && (x.post.taker.None? && x.links.chain == [] ==> x.post.outgoing == []))
  }

  /** What handlers published has been answered, or is queued. */
  ghost predicate Answering(x: Tree)
  {
    x.life.asked == x.life.answered + Publishes(x.rel.ops)
  }

  ghost predicate Inv(x: Tree)
  {
    RelOk(x.rel) && Shape(x) && Flags(x) && Listed(x) && Bounded(x) && Delivering(x) && Tidy(x) && Answering(x)
  }

  // ---------------------------------------------------------------- what a handler may do

  predicate Alive(x: Tree, s: SubId) { s in x.rel.held && s !in x.life.doomed }

  /** A subscription may change unless a change of the same pair is queued; the topic being iterated takes any. */
  predicate ToggleAllowed(r: Rel, iterating: Option<TopicId>, s: SubId, name: string)
  {
    name in r.topics ==> iterating == Some(r.topics[name]) || !Queued(r.ops, s, r.topics[name])
  }

  function SubscribedRel(r: Rel, iterating: Option<TopicId>, s: SubId, name: string, id: TopicId): Rel
    requires s in r.held && Registered(r)
  {
    if name !in r.topics then NewTopic(r, name, s, id)
    else
      var t := r.topics[name];
      if t in r.held[s] then r
      else if iterating == Some(t) then JoinLater(r, s, t)
      else Join(r, s, t)
  }

  function UnsubscribedRel(r: Rel, iterating: Option<TopicId>, s: SubId, name: string): Rel
    requires s in r.held && Registered(r)
  {
    if name !in r.topics then r
    else
      var t := r.topics[name];
      if t !in r.held[s] then r
      else if iterating == Some(t) then LeaveLater(r, s, t)
      else Tidied(Leave(r, s, t), t)
  }

  /** A change that has to wait, for a subscriber that holds the topic or does not. */
  predicate Waits(r: Rel, iterating: Option<TopicId>, s: SubId, name: string, holds: bool)
    requires s in r.held
  {
    name in r.topics && iterating == Some(r.topics[name]) && (r.topics[name] in r.held[s] <==> holds)
  }

  function Subscribed(x: Tree, s: SubId, name: string): Tree
    requires s in x.rel.held && Registered(x.rel)
  {
    var r := SubscribedRel(x.rel, x.mode.iterating, s, name, x.life.nextId);
    x.(rel := r, life := x.life.(nextId := if name in x.rel.topics then x.life.nextId else x.life.nextId + 1),
       mode := x.mode.(pending := x.mode.pending || Waits(x.rel, x.mode.iterating, s, name, false)))
  }

  function Unsubscribed(x: Tree, s: SubId, name: string): Tree
    requires s in x.rel.held && Registered(x.rel)
  {
    var r := UnsubscribedRel(x.rel, x.mode.iterating, s, name);
    x.(rel := r, mode := x.mode.(pending := x.mode.pending || Waits(x.rel, x.mode.iterating, s, name, true)))
  }

  function PublishedLater(x: Tree, sender: Option<SubId>, name: string, message: Payload): Tree
  {
    if name !in x.rel.topics then x
    else x.(rel := x.rel.(ops := x.rel.ops + [PublishOp(sender, name, message)]), mode := x.mode.(pending := true),
            life := x.life.(asked := x.life.asked + [Ask(sender, name, message)]))
  }

  /** Position in the list. */
  ghost function Position(chain: seq<SubId>, s: SubId): (p: nat)
    requires s in chain
    ensures p < |chain| && chain[p] == s
  {
    var p :| 0 <= p < |chain| && chain[p] == s;
    p
  }

  ghost function Unlinked(l: Links, s: SubId): Links
    requires Linked(l) && s in l.chain
  {
    assert NodeLinked(l, Position(l.chain, s));
    Unlink(l, Position(l.chain, s))
  }

  /** `freeSubscriber` while messages are delivered or changes replayed. */
  ghost function FreedLater(x: Tree, s: SubId): Tree
    requires s in x.post.indices && Linked(x.links) && (|x.post.indices[s]| > 0 ==> s in x.links.chain)
  {
    x.(links := if |x.post.indices[s]| > 0 then Unlinked(x.links, s) else x.links,
       post := x.post.(indices := x.post.indices[s := []], leaked := x.post.leaked || |x.post.indices[s]| > 0),
       life := x.life.(pendingFree := x.life.pendingFree + [s], doomed := x.life.doomed + {s}),
       mode := x.mode.(pending := true))
  }

  /** What a subscriber has received it has received; nobody comes back; topics that are gone stay gone. */
  ghost predicate Onwards(a: Tree, b: Tree)
  {
    && a.life.nextId <= b.life.nextId && a.life.missed <= b.life.missed
    && a.post.stoppers <= b.post.stoppers && (a.post.truncated ==> b.post.truncated)
    && b.rel.held.Keys <= a.rel.held.Keys && (forall s :: s in a.life.doomed ==> s in b.life.doomed || s !in b.rel.held)
    && (forall s :: s in b.post.received ==> s in a.post.received && a.post.received[s] <= b.post.received[s])
    && (forall t: TopicId :: t in b.rel.names && t < a.life.nextId ==>
      t in a.rel.names && b.rel.names[t] == a.rel.names[t])
  }

  lemma OnwardsTrans(a: Tree, b: Tree, c: Tree)
    requires Onwards(a, b) && Onwards(b, c)
    ensures Onwards(a, c)
  {
    forall s | s in c.post.received ensures s in a.post.received && a.post.received[s] <= c.post.received[s] {
      assert a.post.received[s] <= b.post.received[s] <= c.post.received[s];
    }
  }

  lemma OnwardsSelf(a: Tree, b: Tree)
    requires b.life.nextId == a.life.nextId && b.life.missed == a.life.missed && b.post.received == a.post.received
    requires forall t :: t in b.rel.names ==> t in a.rel.names && b.rel.names[t] == a.rel.names[t]
    requires a.post.stoppers <= b.post.stoppers && (a.post.truncated ==> b.post.truncated)
    requires b.rel.held.Keys == a.rel.held.Keys && a.life.doomed <= b.life.doomed
    ensures Onwards(a, b)
  {
  }

  /** What the reactions of a handler leave alone: who is being iterated, its members, the messages, and what each
    * subscriber is due; changes are only added to the queue. */
  ghost predicate Stirred(a: Tree, b: Tree)
  {
    && b.mode.depth == a.mode.depth && b.mode.iterating == a.mode.iterating && b.mode.applying == a.mode.applying
    && b.mode.sweeping == a.mode.sweeping && b.mode.order == a.mode.order
    && b.post.inFlight == a.post.inFlight && b.post.due == a.post.due && b.post.truncated == a.post.truncated
    && b.rel.held.Keys == a.rel.held.Keys && b.post.indices.Keys == a.post.indices.Keys
    && a.life.doomed <= b.life.doomed && a.post.stoppers <= b.post.stoppers && a.rel.ops <= b.rel.ops
    && (a.mode.pending ==> b.mode.pending) && (a.post.leaked ==> b.post.leaked)
    && (a.mode.iterating.Some? && a.mode.iterating.value in a.rel.members ==>
          a.mode.iterating.value in b.rel.members
            && b.rel.members[a.mode.iterating.value] == a.rel.members[a.mode.iterating.value])
    && (forall s :: s in a.post.indices ==> b.post.indices[s] == a.post.indices[s] || b.post.indices[s] == [])
    && (forall s :: s in b.links.chain ==> s in a.links.chain)
    && Onwards(a, b) && (Orderly(a) ==> Orderly(b)) && b.life.answered == a.life.answered
  }

  /** Besides, no one but the freed loses a place in the list or an index. */
  ghost predicate Steady(a: Tree, b: Tree)
  {
    && b.post.outgoing == a.post.outgoing && b.post.taker == a.post.taker && b.post.taking == a.post.taking
    && b.post.stoppers == a.post.stoppers && b.post.calls == a.post.calls
    && b.post.received == a.post.received
    && (forall s :: s in a.post.indices && s in b.post.indices && s !in b.life.doomed ==>
      b.post.indices[s] == a.post.indices[s])
    && (forall s :: s in a.links.chain ==> s in b.links.chain || b.post.leaked)
  }

  /** What the handlers called account for. */
  datatype Hearing = Hearing(script: seq<Reaction>, calls: seq<Called>, stoppers: set<SubId>, leaked: bool,
                             doomed: set<SubId>, held: set<SubId>, missed: seq<Miss>)

  function HearingOf(x: Tree): Hearing
  {
    Hearing(x.script, x.post.calls, x.post.stoppers, x.post.leaked, x.life.doomed, x.rel.held.Keys, x.life.missed)
  }

  /** What is left of a script after `n` handlers. */
  function Rest(script: seq<Reaction>, n: nat): seq<Reaction>
  {
    if n == 0 || script == [] then script else Rest(script[1..], n - 1)
  }

  /** Whom the first `n` of these reactions free. */
  function Frees(script: seq<Reaction>, n: nat): set<SubId>
  {
    if n == 0 || script == [] then {} else FreedIn(script[0].actions) + Frees(script[1..], n - 1)
  }

  function FreedIn(actions: seq<Action>): set<SubId>
  {
    if actions == [] then {} else (if actions[0].DoFree? then {actions[0].s} else {}) + FreedIn(actions[1..])
  }

  /** One of the first `n` of these reactions subscribes someone or has someone leave. */
  predicate Toggles(script: seq<Reaction>, n: nat)
  {
    n > 0 && script != [] && (TogglesIn(script[0].actions) || Toggles(script[1..], n - 1))
  }

  predicate TogglesIn(actions: seq<Action>)
  {
    exists a :: a in actions && (a.DoSubscribe? || a.DoUnsubscribe?)
  }

  /** The `k`th handler stops its batch. */
  predicate StopsAt(script: seq<Reaction>, k: int) { 0 <= k < |script| && script[k].stop }

  /** `s` stopped a batch of its own, in one of the calls from `from` on. */
  ghost predicate StoppedOf(calls: seq<Called>, from: nat, s: SubId)
  {
    exists i :: from <= i < |calls| && calls[i].s == s && calls[i].stop
  }

  /** Each handler called takes the next reaction of the script, and stops its batch if that says so.  Only who did so
    * is a stopper, and only whom a reaction frees is freed.  What is noted would break the relation, and takes a
    * reaction that subscribes or leaves. */
  ghost predicate HeardOn(a: Hearing, b: Hearing)
  {
    && a.calls <= b.calls
    && var n := |b.calls| - |a.calls|;
       && b.script == Rest(a.script, n)
       && (forall k | |a.calls| <= k < |b.calls| :: b.calls[k].stop == StopsAt(a.script, k - |a.calls|))
       && (forall s | s in b.stoppers :: s in a.stoppers || StoppedOf(b.calls, |a.calls|, s))
       && b.doomed <= a.doomed + Frees(a.script, n) && a.held <= b.held + a.doomed + Frees(a.script, n)
       && (b.leaked ==> a.leaked || Frees(a.script, n) != {})
       && a.missed <= b.missed && (forall k | |a.missed| <= k < |b.missed| :: Breaks(b.missed[k]))
       && (b.missed != a.missed ==> Toggles(a.script, n))
  }

  ghost predicate Heard(a: Tree, b: Tree)
  {
    HeardOn(HearingOf(a), HearingOf(b))
  }

  lemma {:induction false} RestRest(script: seq<Reaction>, m: nat, n: nat)
    ensures Rest(Rest(script, m), n) == Rest(script, m + n)
    ensures Frees(script, m + n) == Frees(script, m) + Frees(Rest(script, m), n)
    ensures Toggles(script, m + n) <==> Toggles(script, m) || Toggles(Rest(script, m), n)
    ensures forall k: nat :: StopsAt(Rest(script, m), k) == StopsAt(script, m + k)
  {
    if m > 0 && script != [] {
      RestRest(script[1..], m - 1, n);
      forall k: nat ensures StopsAt(Rest(script, m), k) == StopsAt(script, m + k) {
        assert StopsAt(Rest(script[1..], m - 1), k) == StopsAt(script[1..], m - 1 + k);
      }
    }
  }

  lemma {:induction false} FreesAll(script: seq<Reaction>, n: nat)
    ensures Frees(script, n) <= Frees(script, |script|) && (Toggles(script, n) ==> Toggles(script, |script|))
  {
    if n > 0 && script != [] { FreesAll(script[1..], n - 1); }
  }

  lemma HeardNothing(x: Tree)
    ensures Heard(x, x)
  {
  }

  lemma HeardTrans(a: Hearing, b: Hearing, c: Hearing)
    requires HeardOn(a, b) && HeardOn(b, c)
    ensures HeardOn(a, c)
  {
    hide Frees, Rest, StoppedOf, Toggles, Breaks;
    var m, n := |b.calls| - |a.calls|, |c.calls| - |b.calls|;
    RestRest(a.script, m, n);
    forall k | |a.missed| <= k < |c.missed| ensures Breaks(c.missed[k]) {
      if k < |b.missed| { assert c.missed[k] == b.missed[k]; }
    }
    forall k | |a.calls| <= k < |c.calls| ensures c.calls[k].stop == StopsAt(a.script, k - |a.calls|) {
      if k < |b.calls| {
        assert c.calls[k] == b.calls[k];
      } else {
        assert StopsAt(Rest(a.script, m), k - |b.calls|) == StopsAt(a.script, m + (k - |b.calls|));
      }
    }
    forall s | s in c.stoppers ensures s in a.stoppers || StoppedOf(c.calls, |a.calls|, s) {
      StoppedLater(b.calls, c.calls, |a.calls|, |b.calls|, s);
    }
  }

  lemma StoppedLater(x: seq<Called>, y: seq<Called>, i: nat, j: nat, s: SubId)
    requires x <= y && i <= j
    ensures StoppedOf(x, i, s) || StoppedOf(y, j, s) ==> StoppedOf(y, i, s)
  {
    if k :| i <= k < |x| && x[k].s == s && x[k].stop {
      assert y[k] == x[k];
    }
  }

  lemma HeardMore(a: Tree, b: Tree, c: Tree)
    requires Heard(a, b) && Heard(b, c)
    ensures Heard(a, c)
  {
    HeardTrans(HearingOf(a), HearingOf(b), HearingOf(c));
  }

  /** Reactions are used up, or nothing has been changed by any: neither the relation nor who is freed or stops. */
  ghost predicate Spent(a: Tree, b: Tree)
  {
    && Heard(a, b)
    && (|b.script| < |a.script|
    || (b.script == a.script && b.rel == a.rel && b.mode.pending == a.mode.pending && b.life == a.life
        && b.post.stoppers == a.post.stoppers && b.post.leaked == a.post.leaked))
  }

  /** A change of a pair that still has one queued, and that would be made at once. */
  predicate Misses(x: Tree, s: SubId, name: string, holds: bool)
    requires s in x.rel.held
  {
    && !ToggleAllowed(x.rel, x.mode.iterating, s, name)
    && (x.rel.topics[name] in x.rel.held[s] <==> holds)
  }

  function Missed(x: Tree, s: SubId, name: string): Tree
    requires name in x.rel.topics
  {
    x.(life := x.life.(missed := x.life.missed + [Miss(x.rel, s, x.rel.topics[name])]))
  }

  lemma MissedKeeps(x: Tree, s: SubId, name: string)
    requires Inv(x) && name in x.rel.topics
    ensures var y := Missed(x, s, name); Inv(y) && Stirred(x, y) && Steady(x, y)
  {
    hide RelOk, Listed, Bounded, Delivering;
    SameQueues(x, Missed(x, s, name));
  }

  /** The change, made at once, would have the topic held by others than its set and the queue come to. */
  ghost predicate Breaks(m: Miss)
  {
    && RelOk(m.rel) && m.s in m.rel.held && m.t in m.rel.members && Queued(m.rel.ops, m.s, m.t)
    && var r := if m.t in m.rel.held[m.s] then Leave(m.rel, m.s, m.t) else Join(m.rel, m.s, m.t);
       Holders(r.held, m.t) != Replay(r.members[m.t], m.rel.ops, m.t)
  }

  /** What is missed is what would break the relation. */
  lemma MissBreaks(x: Tree, s: SubId, name: string, holds: bool)
    requires Inv(x) && s in x.rel.held && Misses(x, s, name, holds)
    ensures Breaks(Miss(x.rel, s, x.rel.topics[name]))
  {
    hide RelOk, Listed, Bounded, Delivering, Tidy, Shape, Flags, Queued, Replay;
    InvRegistered(x);
    ToggleExact(x.rel, s, x.rel.topics[name]);
  }

  /** One action of a handler. */
  ghost function Acted(x: Tree, a: Action): Tree
    requires Inv(x)
  {
    match a
    case DoSubscribe(s, name) =>
      if !Alive(x, s) then x
      else if ToggleAllowed(x.rel, x.mode.iterating, s, name) then Subscribed(x, s, name)
      else if Misses(x, s, name, false) then Missed(x, s, name) else x
    case DoUnsubscribe(s, name) =>
      if !Alive(x, s) then x
      else if ToggleAllowed(x.rel, x.mode.iterating, s, name) then Unsubscribed(x, s, name)
      else if Misses(x, s, name, true) then Missed(x, s, name) else x
    case DoPublish(sender, name, message) => PublishedLater(x, sender, name, message)
    case DoFree(s) => if Alive(x, s) then FreedLater(x, s) else x
  }

  /** A relation that may take the place of `r0`. */
  ghost predicate Replaces(r0: Rel, r: Rel, id: nat, nextId: nat, iterating: Option<TopicId>)
  {
    && RelOk(r) && r.held.Keys == r0.held.Keys && r0.ops <= r.ops && Publishes(r.ops) == Publishes(r0.ops)
    && (forall k :: |r0.ops| <= k < |r.ops| ==> (r.ops[k].Touches() ==> iterating == Some(r.ops[k].t)))
    && (forall t :: t in r.names && t < id ==> t in r0.names && r.names[t] == r0.names[t])
    && (forall t :: t in r.members ==> t < nextId)
    && (iterating.Some? && iterating.value in r0.members ==>
          iterating.value in r.members && r.members[iterating.value] == r0.members[iterating.value])
  }

  lemma ReplacesKeeps(x: Tree, r: Rel, nextId: nat, pending: bool)
    requires Inv(x) && Replaces(x.rel, r, x.life.nextId, nextId, x.mode.iterating) && x.life.nextId <= nextId
    requires (x.mode.pending ==> pending) && (r.ops != x.rel.ops ==> pending)
    requires (pending ==> x.mode.pending || x.mode.depth > 0 || x.mode.applying)
    ensures var y := x.(rel := r, life := x.life.(nextId := nextId), mode := x.mode.(pending := pending));
              Inv(y) && Stirred(x, y) && Steady(x, y)
  {
    hide RelOk, Listed, Bounded, InOrder;
    var y := x.(rel := r, life := x.life.(nextId := nextId), mode := x.mode.(pending := pending));
    SameQueues(x, y);
    OrderlyMore(x, y);
  }

  /** Only changes of the topic being iterated are queued. */
  lemma OrderlyMore(x: Tree, y: Tree)
    requires x.rel.ops <= y.rel.ops && y.mode.iterating == x.mode.iterating && y.mode.applying == x.mode.applying
    requires forall k :: |x.rel.ops| <= k < |y.rel.ops| ==>
               (y.rel.ops[k].Touches() ==> x.mode.iterating == Some(y.rel.ops[k].t))
    ensures Orderly(x) ==> Orderly(y)
  {
    assert forall k :: 0 <= k < |x.rel.ops| ==> y.rel.ops[k] == x.rel.ops[k];
  }

  lemma SubscribedReplaces(r: Rel, iterating: Option<TopicId>, s: SubId, name: string, id: TopicId)
    requires RelOk(r) && s in r.held && ToggleAllowed(r, iterating, s, name) && forall t :: t in r.members ==> t < id
    ensures Registered(r)
    ensures var nextId := if name in r.topics then id else id + 1;
            Replaces(r, SubscribedRel(r, iterating, s, name, id), id, nextId, iterating)
    ensures SubscribedRel(r, iterating, s, name, id).ops != r.ops ==> Waits(r, iterating, s, name, false)
  {
    hide RelOk, Queued;
    RelParts(r);
    if name !in r.topics {
      NewTopicKeeps(r, name, s, id);
    } else {
      var t := r.topics[name];
      if t !in r.held[s] {
        if iterating == Some(t) {
          LaterKeeps(r, s, t);
          PublishesConcat(r.ops, [SubscribeOp(s, t)]);
          OnePublish(SubscribeOp(s, t));
        } else {
          JoinKeeps(r, s, t);
        }
      }
    }
  }

  lemma UnsubscribedReplaces(r: Rel, iterating: Option<TopicId>, s: SubId, name: string, id: TopicId)
    requires RelOk(r) && s in r.held && ToggleAllowed(r, iterating, s, name) && forall t :: t in r.members ==> t < id
    ensures Registered(r) && Replaces(r, UnsubscribedRel(r, iterating, s, name), id, id, iterating)
    ensures UnsubscribedRel(r, iterating, s, name).ops != r.ops ==> Waits(r, iterating, s, name, true)
  {
    hide RelOk, Queued, SubscribeQueued;
    RelParts(r);
    if name in r.topics {
      var t := r.topics[name];
      if t in r.held[s] {
        if iterating == Some(t) {
          LaterKeeps(r, s, t);
          PublishesConcat(r.ops, [UnsubscribeOp(s, t)]);
          OnePublish(UnsubscribeOp(s, t));
        } else {
          LeaveKeeps(r, s, t);
        }
      }
    }
  }

  lemma SubscribedKeeps(x: Tree, s: SubId, name: string)
    requires Inv(x) && Alive(x, s) && ToggleAllowed(x.rel, x.mode.iterating, s, name)
    ensures var y := Subscribed(x, s, name); Inv(y) && Stirred(x, y) && Steady(x, y)
  {
    hide RelOk, Registered, Listed, Bounded, Delivering, Tidy, Stirred, Steady, Replaces, ToggleAllowed;
    hide SubscribedRel;
    SubscribedReplaces(x.rel, x.mode.iterating, s, name, x.life.nextId);
    var y := Subscribed(x, s, name);
    ReplacesKeeps(x, y.rel, y.life.nextId, y.mode.pending);
  }

  lemma UnsubscribedKeeps(x: Tree, s: SubId, name: string)
    requires Inv(x) && Alive(x, s) && ToggleAllowed(x.rel, x.mode.iterating, s, name)
    ensures var y := Unsubscribed(x, s, name); Inv(y) && Stirred(x, y) && Steady(x, y)
  {
    hide RelOk, Registered, Listed, Bounded, Delivering, Tidy, Stirred, Steady, Replaces, ToggleAllowed;
    hide UnsubscribedRel;
    UnsubscribedReplaces(x.rel, x.mode.iterating, s, name, x.life.nextId);
    var y := Unsubscribed(x, s, name);
    ReplacesKeeps(x, y.rel, y.life.nextId, y.mode.pending);
  }

  lemma RelParts(r: Rel)
    requires RelOk(r)
    ensures Registered(r) && Known(r)
  {
  }

  /** A step that changes only the relation keeps the rest. */
  lemma SameQueues(x: Tree, y: Tree)
    requires y.links == x.links && y.post == x.post && y.life.doomed == x.life.doomed
    requires y.mode.sweeping == x.mode.sweeping && y.mode.order == x.mode.order
    requires x.post.indices.Keys == x.post.received.Keys == x.post.due.Keys
    ensures Listed(x) ==> Listed(y)
    ensures Bounded(x) ==> Bounded(y)
    ensures Delivering(x) ==> Delivering(y)
  {
    if Delivering(x) && !y.post.truncated {
      forall s | s in y.post.due && s !in y.life.doomed && s !in y.post.stoppers
        ensures InOrder(y, s)
      {
        assert InOrder(x, s);
      }
    }
  }

  lemma PublishedLaterKeeps(x: Tree, sender: Option<SubId>, name: string, message: Payload)
    requires Inv(x) && (x.mode.depth > 0 || x.mode.applying)
    ensures var y := PublishedLater(x, sender, name, message); Inv(y) && Stirred(x, y) && Steady(x, y)
  {
    hide RelOk, Listed, Bounded, Delivering, Stirred, Steady, Publishes;
    var y := PublishedLater(x, sender, name, message);
    if name in x.rel.topics {
      var op := PublishOp(sender, name, message);
      PublishLaterKeeps(x.rel, op);
      PublishesConcat(x.rel.ops, [op]);
      OnePublish(op);
      Assoc3(x.life.answered, Publishes(x.rel.ops), Publishes([op]));
    }
    SameQueues(x, y);
    PublishedLaterStirs(x, sender, name, message);
  }

  lemma PublishedLaterStirs(x: Tree, sender: Option<SubId>, name: string, message: Payload)
    ensures var y := PublishedLater(x, sender, name, message); Stirred(x, y) && Steady(x, y)
  {
    hide Orderly;
    var y := PublishedLater(x, sender, name, message);
    OrderlyMore(x, y);
    OnwardsSelf(x, y);
  }

  lemma FreedLaterListed(x: Tree, s: SubId)
    requires Listed(x) && s in x.post.indices && s !in x.life.doomed
    ensures Listed(FreedLater(x, s))
    ensures forall u :: u in FreedLater(x, s).links.chain ==> u in x.links.chain
    ensures forall u :: u in x.links.chain ==> u in FreedLater(x, s).links.chain || FreedLater(x, s).post.leaked
  {
    hide Linked, Onward, Unlink;
    if x.post.indices[s] != [] {
      UnlinkKeeps(x.links, Position(x.links.chain, s));
      if x.mode.sweeping { OnwardKeeps(x.mode.order, x.links, Position(x.links.chain, s)); }
    }
  }

  lemma FreedLaterDelivers(x: Tree, s: SubId)
    requires Listed(x) && s in x.post.indices && x.post.indices.Keys == x.post.received.Keys == x.post.due.Keys
    requires Delivering(x) && Bounded(x) && Tidy(x) && s !in x.life.doomed
    ensures var y := FreedLater(x, s); Delivering(y) && Bounded(y) && Tidy(y)
  {
    hide Linked, Onward, Unlink;
    var y := FreedLater(x, s);
    forall u | !x.post.truncated && u in y.post.due && u !in y.life.doomed && u !in y.post.stoppers
      ensures InOrder(y, u)
    {
      assert InOrder(x, u);
    }
  }

  lemma FreedLaterShape(x: Tree, s: SubId)
    requires Listed(x) && Shape(x) && Flags(x) && Alive(x, s) && (x.mode.depth > 0 || x.mode.applying)
    ensures Shape(FreedLater(x, s)) && Flags(FreedLater(x, s))
  {
    hide Listed, Unlinked;
    FreedLaterListed(x, s);
    assert s !in x.life.pendingFree;
  }

  lemma FreedLaterStirs(x: Tree, s: SubId)
    requires Listed(x) && s in x.post.indices && s !in x.life.doomed
    ensures Stirred(x, FreedLater(x, s)) && Steady(x, FreedLater(x, s))
  {
    hide Listed, Unlinked;
    FreedLaterListed(x, s);
  }

  lemma FreedLaterKeeps(x: Tree, s: SubId)
    requires Inv(x) && Alive(x, s) && (x.mode.depth > 0 || x.mode.applying)
    ensures var y := FreedLater(x, s); Inv(y) && Stirred(x, y) && Steady(x, y)
  {
    hide RelOk, Listed, Delivering, Bounded, Tidy, Flags, Unlinked, Stirred, Steady;
    FreedLaterListed(x, s);
    FreedLaterDelivers(x, s);
    FreedLaterShape(x, s);
    FreedLaterStirs(x, s);
  }

  lemma ActedScript(x: Tree, a: Action)
    requires Inv(x)
    ensures Acted(x, a).script == x.script
  {
    hide RelOk, Unlinked;
  }

  lemma ActedKeeps(x: Tree, a: Action)
    requires Inv(x) && x.mode.depth > 0
    ensures var y := Acted(x, a); Inv(y) && Stirred(x, y) && Steady(x, y) && y.script == x.script
  {
    hide Stirred, Steady, Subscribed, Unsubscribed, PublishedLater, FreedLater, Missed, RelOk, Listed;
    hide Queued, Bounded, Delivering, Tidy, Shape, Flags;
    StirredSelf(x);
    RelParts(x.rel);
    ActedScript(x, a);
    match a {
      case DoSubscribe(s, name) =>
        if Alive(x, s) && ToggleAllowed(x.rel, x.mode.iterating, s, name) { SubscribedKeeps(x, s, name); }
        if Alive(x, s) && Misses(x, s, name, false) { MissedKeeps(x, s, name); }
      case DoUnsubscribe(s, name) =>
        if Alive(x, s) && ToggleAllowed(x.rel, x.mode.iterating, s, name) { UnsubscribedKeeps(x, s, name); }
        if Alive(x, s) && Misses(x, s, name, true) { MissedKeeps(x, s, name); }
      case DoPublish(sender, name, message) => PublishedLaterKeeps(x, sender, name, message);
      case DoFree(s) => if Alive(x, s) { FreedLaterKeeps(x, s); }
    }
  }

  lemma StirredTrans(a: Tree, b: Tree, c: Tree)
    requires Stirred(a, b) && Stirred(b, c)
    ensures Stirred(a, c)
  {
  }

  lemma SteadyTrans(a: Tree, b: Tree, c: Tree)
    requires Stirred(a, b) && Stirred(b, c) && Steady(a, b) && Steady(b, c)
    ensures Steady(a, c)
  {
  }

  lemma StirredSelf(x: Tree)
    ensures Stirred(x, x) && Steady(x, x)
  {
  }

  /** The answer of `unsubscribe`: the count is right if the change is queued, and if no change of the topic is. */
  ghost predicate UnsubscribeResult(r: Rel, held: map<SubId, set<TopicId>>, iterating: Option<TopicId>, s: SubId,
                                    name: string, ok: bool, last: bool, count: int)
    requires s in r.held && s in held
  {
    && ok == (name in r.topics && r.topics[name] in r.held[s])
    && (ok ==> last == (held[s] == {}))
    && (ok && (iterating == Some(r.topics[name])
               || forall k :: 0 <= k < |r.ops| ==> !r.ops[k].On(r.topics[name])) ==>
      count == |Holders(held, r.topics[name])|)
  }

  ghost predicate WantedByAny(x: Tree, sender: Option<SubId>, name: string)
  {
    name in x.rel.topics && x.rel.topics[name] in x.rel.members
    && exists s :: s in x.rel.members[x.rel.topics[name]] && Wanted(x, sender, s, x.rel.topics[name])
  }

  /** Not the sender, and neither has it left meanwhile nor been freed. */
  ghost predicate Wanted(x: Tree, sender: Option<SubId>, s: SubId, t: TopicId)
  {
    Some(s) != sender && s in x.rel.held && t in x.rel.held[s] && s !in x.life.doomed
  }

  function TakenPost(p: Post, s: SubId): Post
    requires s in p.indices
  {
    p.(indices := p.indices[s := []], taker := Some(s), taking := p.indices[s])
  }

  /** The batch of `s` is about to be delivered. */
  function Taken(x: Tree, s: SubId): Tree
    requires s in x.post.indices
  {
    x.(post := TakenPost(x.post, s))
  }

  /** The next handler called ends its batch. */
  predicate Stops(x: Tree) { |x.script| > 0 && x.script[0].stop }

  function GivenPost(p: Post, s: SubId, message: Payload, stop: bool): Post
    requires s in p.received
  {
    p.(received := p.received[s := p.received[s] + [message]], taking := if p.taking == [] then [] else p.taking[1..],
       calls := p.calls + [Called(s, message, stop)])
  }

  /** The handler of `s` has been given the next message of the batch. */
  function Given(x: Tree, s: SubId, message: Payload): Tree
    requires s in x.post.received
  {
    x.(post := GivenPost(x.post, s, message, Stops(x)))
  }

  /** Delivering a batch takes nothing from the others but what freeing them does. */
  ghost predicate Unclaimed(a: Tree, b: Tree)
  {
    && b.post.outgoing == a.post.outgoing
    && (forall s :: s in a.post.indices && s in b.post.indices && s !in b.life.doomed ==>
      b.post.indices[s] == a.post.indices[s])
    && (forall s :: s in a.links.chain ==> s in b.links.chain || b.post.leaked)
  }

  lemma TakenParts(x: Tree, s: SubId)
    requires s in x.post.indices
    ensures var y := Taken(x, s);
            && y.post.taker == Some(s) && y.post.taking == x.post.indices[s] && y.script == x.script && y.rel == x.rel
            && y.mode == x.mode && y.post.received == x.post.received
  {
  }

  lemma GivenScript(x: Tree, s: SubId, message: Payload)
    requires s in x.post.received
    ensures var y := Given(x, s, message); y.script == x.script && y.rel == x.rel && y.mode == x.mode
  {
  }

  lemma UnclaimedSelf(x: Tree)
    ensures Unclaimed(x, x) && Spent(x, x)
  {
  }

  lemma StirredDepth(a: Tree, b: Tree)
    requires Stirred(a, b)
    ensures b.mode.depth == a.mode.depth && b.mode.sweeping == a.mode.sweeping && b.mode.iterating == a.mode.iterating
    ensures b.mode.applying == a.mode.applying && b.mode.order == a.mode.order && b.post.inFlight == a.post.inFlight
  {
  }

  lemma ScriptFree(x: Tree, script: seq<Reaction>)
    requires Inv(x)
    ensures var y := x.(script := script); Inv(y) && Stirred(x, y) && Steady(x, y)
  {
    hide RelOk, Listed, Bounded, InOrder;
    SameQueues(x, x.(script := script));
  }

  /** The next message of a batch is the next one due. */
  lemma NextOfBatch(x: Tree, s: SubId)
    requires Inv(x) && x.post.taker == Some(s) && x.post.taking != [] && s in x.post.received
    ensures x.post.taking[0] < |x.post.outgoing|
    ensures Inv(Given(x, s, x.post.outgoing[x.post.taking[0]]))
  {
    hide RelOk, Listed, Delivering;
    assert x.post.taking[0] in x.post.taking;
    var y := Given(x, s, x.post.outgoing[x.post.taking[0]]);
    ListedSame(x, y);
    assert forall k :: k in y.post.taking ==> k in x.post.taking;
    NextDelivers(x, s);
  }

  lemma NextDelivers(x: Tree, s: SubId)
    requires x.post.indices.Keys == x.post.received.Keys == x.post.due.Keys && s in x.post.received
    requires Delivering(x) && x.post.taker == Some(s) && x.post.taking != [] && x.post.taking[0] < |x.post.outgoing|
    ensures var y := Given(x, s, x.post.outgoing[x.post.taking[0]]);
            y.post.indices.Keys == y.post.received.Keys == y.post.due.Keys && Delivering(y)
  {
    hide InOrder;
    var y := Given(x, s, x.post.outgoing[x.post.taking[0]]);
    assert y.post.received.Keys == x.post.received.Keys;
    forall u | !x.post.truncated && u in y.post.due && u !in y.life.doomed && u !in y.post.stoppers
      ensures InOrder(y, u)
    {
      assert InOrder(x, u);
      if u == s { OrderAdvances(x, s); } else { OrderStays(x, y, u); }
    }
  }

  lemma ListedSame(x: Tree, y: Tree)
    requires Listed(x) && y.links == x.links && y.mode == x.mode && y.post.indices == x.post.indices
    requires y.life.doomed == x.life.doomed
    ensures Listed(y)
  {
  }

  lemma OrderAdvances(x: Tree, s: SubId)
    requires s in x.post.due && s in x.post.received && s in x.post.indices && InOrder(x, s)
    requires x.post.taker == Some(s) && x.post.taking != [] && x.post.taking[0] < |x.post.outgoing|
    ensures InOrder(Given(x, s, x.post.outgoing[x.post.taking[0]]), s)
  {
    var k, rest := x.post.taking[0], x.post.taking[1..] + x.post.indices[s];
    assert Owed(x, s) == [k] + rest;
    PickConcat([k], rest, x.post.outgoing + x.post.inFlight);
    assert Pick([k], x.post.outgoing + x.post.inFlight) == [x.post.outgoing[k]];
    var y := Given(x, s, x.post.outgoing[k]);
    assert Owed(y, s) == rest;
  }

  lemma BatchGoesOn(x: Tree, y: Tree, s: SubId, z: Tree)
    requires s in y.post.received && y.post.taking != [] && y.post.taking[0] < |y.post.outgoing|
    requires Stirred(x, y) && Unclaimed(x, y) && Spent(x, y) && y.post.taker == Some(s)
    requires var g := Given(y, s, y.post.outgoing[y.post.taking[0]]); Stirred(g, z) && Steady(g, z)
    requires Spent(y, z)
    ensures Stirred(x, z) && Unclaimed(x, z) && Spent(x, z)
    ensures z.post.taker == Some(s) && z.post.taking == y.post.taking[1..] && s in z.post.received
    ensures z.mode.depth == y.mode.depth
  {
    hide HeardOn;
    HeardMore(x, y, z);
  }

  function Cut(x: Tree, s: SubId): Tree
  {
    x.(post := x.post.(stoppers := x.post.stoppers + {s}, taking := []))
  }

  lemma CutShort(x: Tree, s: SubId)
    requires Inv(x) && x.post.taker == Some(s)
    ensures Inv(Cut(x, s))
  {
    hide RelOk, Listed, InOrder;
    var y := Cut(x, s);
    ListedSame(x, y);
    forall u | !x.post.truncated && u in y.post.due && u !in y.life.doomed && u !in y.post.stoppers
      ensures InOrder(y, u)
    {
      OrderStays(x, y, u);
    }
  }

  /** Who has just stopped a batch is a stopper. */
  lemma HeardCut(x: Tree, z: Tree, s: SubId)
    requires Heard(x, z) && StoppedLast(x, z, s)
    ensures Heard(x, Cut(z, s))
  {
    hide Frees, Rest;
    assert StoppedOf(z.post.calls, |x.post.calls|, s);
  }

  lemma CutShortStirs(x: Tree, z: Tree, s: SubId)
    requires Stirred(x, z) && Unclaimed(x, z) && |z.script| < |x.script| && Heard(x, z) && StoppedLast(x, z, s)
    ensures var y := Cut(z, s);
            && Stirred(x, y) && Unclaimed(x, y) && Spent(x, y)
            && y.post.taking == [] && y.post.taker == z.post.taker
  {
    hide HeardOn;
    HeardCut(x, z, s);
  }

  /** The last handler called since `x` was that of `s`, and stopped the batch. */
  predicate StoppedLast(x: Tree, z: Tree, s: SubId)
  {
    && |x.post.calls| < |z.post.calls|
    && z.post.calls[|z.post.calls| - 1].s == s && z.post.calls[|z.post.calls| - 1].stop
  }

  /** A subscriber is taken off the list, deeper by one level of draining. */
  ghost function Detached(x: Tree, s: SubId): Tree
    requires Linked(x.links) && s in x.links.chain
  {
    x.(mode := x.mode.(depth := x.mode.depth + 1), links := Unlinked(x.links, s))
  }

  lemma DetachedListed(x: Tree, s: SubId)
    requires Listed(x) && s in x.post.indices && |x.post.indices[s]| > 0 && !x.mode.sweeping
    ensures s in x.links.chain && Listed(Taken(Detached(x, s), s))
    ensures forall u :: u in Detached(x, s).links.chain <==> u in x.links.chain && u != s
  {
    hide Linked, Onward, Unlink;
    UnlinkKeeps(x.links, Position(x.links.chain, s));
  }

  lemma TakenDelivers(x: Tree, y: Tree, s: SubId)
    requires x.post.indices.Keys == x.post.received.Keys == x.post.due.Keys && Delivering(x) && s in x.post.indices
    requires x.post.taker.None?
    requires y.post == TakenPost(x.post, s) && y.life == x.life
    ensures y.post.indices.Keys == y.post.received.Keys == y.post.due.Keys && Delivering(y)
  {
    hide InOrder;
    forall u | !x.post.truncated && u in y.post.due && u !in y.life.doomed && u !in y.post.stoppers
      ensures InOrder(y, u)
    {
      assert Owed(y, u) == Owed(x, u);
      OrderStays(x, y, u);
    }
  }

  lemma DetachedKeeps(x: Tree, s: SubId)
    requires Inv(x) && s in x.post.indices && |x.post.indices[s]| > 0 && x.post.taker.None? && !x.mode.sweeping
    requires Fresh(x.post, s)
    ensures Linked(x.links) && s in x.links.chain && s in x.post.received
    ensures Inv(Taken(Detached(x, s), s))
    ensures Detached(x, s).mode.depth == x.mode.depth + 1 && Detached(x, s).mode.sweeping == x.mode.sweeping
    ensures Detached(x, s).post == x.post
  {
    hide RelOk, Listed, Delivering, Unlinked;
    InvListed(x);
    DetachedListed(x, s);
    TakenDelivers(x, Taken(Detached(x, s), s), s);
  }

  /** Only the message being handed out has no place yet, and only those it was given to know it. */
  ghost predicate Fresh(p: Post, s: SubId)
  {
    s in p.indices ==> forall k :: k in p.indices[s] ==> k < |p.outgoing|
  }

  /** After a batch: the shared messages go when nobody is waiting for any. */
  function Settled(x: Tree): Tree
  {
    x.(post := x.post.(taker := None, outgoing := if x.links.head.None? then [] else x.post.outgoing))
  }

  lemma SettledDelivers(x: Tree)
    requires x.post.indices.Keys == x.post.received.Keys == x.post.due.Keys && Delivering(x) && x.post.taking == []
    requires x.links.head.None? ==> forall s :: s in x.post.indices ==> x.post.indices[s] == []
    ensures Delivering(Settled(x))
  {
    hide InOrder;
    var y := Settled(x);
    forall u | !x.post.truncated && u in y.post.due && u !in y.life.doomed && u !in y.post.stoppers
      ensures InOrder(y, u)
    {
      assert InOrder(x, u) && Owed(y, u) == Owed(x, u);
      if x.links.head.None? {
        NothingOwed(x, y, u);
      } else {
        OrderStays(x, y, u);
      }
    }
  }

  lemma SettledKeeps(x: Tree)
    requires Inv(x) && x.post.taker.Some? && x.post.taking == [] && !x.mode.sweeping
    ensures Inv(Settled(x))
  {
    hide RelOk, Delivering, Onward, Linked;
    HeadIsFirst(x.links);
    SettledDelivers(x);
  }

  lemma NothingOwed(x: Tree, y: Tree, s: SubId)
    requires s in x.post.due && s in x.post.received && s in x.post.indices && s in y.post.due && s in y.post.received
    requires s in y.post.indices
    requires y.post.due[s] == x.post.due[s] && y.post.received[s] == x.post.received[s]
    requires Owed(y, s) == Owed(x, s) == []
    ensures InOrder(x, s) ==> InOrder(y, s)
  {
    assert Pick([], x.post.outgoing + x.post.inFlight) == [] == Pick([], y.post.outgoing + y.post.inFlight);
  }

  /** What draining one subscriber does. */
  ghost predicate Drained(a: Tree, b: Tree, s: SubId)
  {
    && Stirred(a, b) && Spent(a, b) && b.post.taker.None? && b.post.taking == []
    && s in b.post.indices && b.post.indices[s] == []
    && (forall u :: u != s && u in a.post.indices && u in b.post.indices && u !in b.life.doomed ==>
      b.post.indices[u] == a.post.indices[u])
    && (forall u :: u in a.links.chain && u != s ==> u in b.links.chain || b.post.leaked)
    && (b.post.outgoing == a.post.outgoing || (b.post.outgoing == [] && b.links.chain == []))
  }

  function Deeper(x: Tree): Tree
  {
    x.(mode := x.mode.(depth := x.mode.depth + 1))
  }

  function Shallower(x: Tree): Tree
    requires x.mode.depth > 0
  {
    x.(mode := x.mode.(depth := x.mode.depth - 1))
  }

  ghost predicate OneDrained(a: Tree, b: Tree, s: SubId)
  {
    Drained(Deeper(a), b, s)
  }

  lemma ShallowerKeeps(x: Tree)
    requires Inv(x) && x.mode.depth > 0
    requires (x.mode.depth > 1 || (x.mode.iterating.None? && (x.mode.pending ==> x.mode.applying)))
    ensures Inv(Shallower(x))
  {
    hide RelOk, InOrder, Linked, Onward;
    var y := Shallower(x);
    forall u | !x.post.truncated && u in y.post.due && u !in y.life.doomed && u !in y.post.stoppers
      ensures InOrder(y, u)
    {
      OrderStays(x, y, u);
    }
  }

  lemma DrainedBack(a: Tree, b: Tree, s: SubId)
    requires OneDrained(a, b, s)
    ensures b.mode.depth == a.mode.depth + 1 && Drained(a, Shallower(b), s)
  {
  }

  lemma SettledSame(z: Tree)
    ensures Settled(z).post.calls == z.post.calls && Settled(z).post.received == z.post.received
  {
  }

  lemma DrainedNothing(x: Tree, s: SubId)
    requires s in x.post.indices && |x.post.indices[s]| == 0 && x.post.taker.None? && x.post.taking == []
    ensures Drained(x, x, s)
  {
  }

  // ---------------------------------------------------------------- handing a message out

  ghost predicate LeftQueued(ops: seq<Op>, s: SubId, t: TopicId)
  {
    exists k :: 0 <= k < |ops| && ops[k] == UnsubscribeOp(s, t)
  }

  /** A member that no longer holds the topic has its leaving queued. */
  lemma LeftIsQueued(r: Rel, s: SubId, t: TopicId)
    requires RelOk(r) && t in r.members && s in r.members[t] && s in r.held && t !in r.held[s]
    ensures LeftQueued(r.ops, s, t)
  {
    assert Paired(r, t);
    assert s !in Holders(r.held, t);
    if !LeftQueued(r.ops, s, t) {
      StaysUnlessLeft(r.members[t], r.ops, s, t);
    }
  }

  lemma {:induction false} StaysUnlessLeft(m: set<SubId>, ops: seq<Op>, s: SubId, t: TopicId)
    requires s in m && !LeftQueued(ops, s, t)
    ensures s in Replay(m, ops, t)
    decreases |ops|
  {
    if ops != [] {
      assert ops[0] != UnsubscribeOp(s, t);
      assert forall k :: 0 <= k < |ops[1..]| ==> ops[1..][k] == ops[k + 1];
      StaysUnlessLeft(Change(m, ops[0], t), ops[1..], s, t);
    }
  }

  /** The loop of `publish` over the members of `t`: `todo` is to be visited, `reached` has been given the message. */
  ghost predicate Fanning(x0: Tree, x: Tree, t: TopicId, sender: Option<SubId>, message: Payload, todo: set<SubId>,
                          reached: set<SubId>)
  {
    && Inv(x) && FanFrame(x0, x, t, message)
    && todo <= x.rel.members[t] && reached <= x.rel.members[t] && reached !! todo
    && (forall s :: s in reached ==> Some(s) != sender)
    && (forall s :: s !in reached ==> Fresh(x.post, s))
    && (forall s :: s in x0.post.due ==>
      s in x.post.due && x.post.due[s] == x0.post.due[s] + (if s in reached then [message] else []))
    && (reached != {} ==> x.post.leaked || exists u :: u in reached && u in x.links.chain)
    && (forall s :: s in x.rel.members[t] && s !in todo && s !in reached && Some(s) != sender ==>
      s in x.life.doomed || LeftQueued(x.rel.ops, s, t))
    && (forall u :: u in x0.links.chain && u !in x.rel.members[t] ==> Kept(x0, x, u))
    && FanRoom(x0, x, t, sender, todo, reached)
  }

  ghost predicate FanRoom(x0: Tree, x: Tree, t: TopicId, sender: Option<SubId>, todo: set<SubId>, reached: set<SubId>)
    requires t in x0.rel.members
  {
    Cuts(x0, x, reached != {}) && (Roomy(x0, t, sender) ==> StillRoomy(x0, x, sender, todo, reached))
  }

  /** The same of the whole loop. */
  ghost predicate FanRoomOut(a: Tree, b: Tree, t: TopicId, sender: Option<SubId>, message: Payload, reached: set<SubId>)
    requires t in a.rel.members
  {
    && Cuts(a, b, reached != {})
    && (Roomy(a, t, sender) ==>
          && Undrained(a, b, reached != {})
          && b.post.outgoing == a.post.outgoing + if reached == {} then [] else [message])
  }

  /** Some index does not fit: more than 65535 messages are stored when it is. */
  predicate Cutting(x: Tree, stored: bool) { stored && |x.post.outgoing| > UINT16_MAX }

  ghost predicate Cuts(a: Tree, b: Tree, stored: bool)
  {
    b.post.truncated ==> a.post.truncated || Cutting(a, stored)
  }

  /** No member the message is meant for has a full batch. */
  ghost predicate Roomy(x: Tree, t: TopicId, sender: Option<SubId>)
    requires t in x.rel.members
  {
    forall s :: s in x.rel.members[t] && Some(s) != sender ==>
      s in x.post.indices && |x.post.indices[s]| < MAX_INDICES
  }

  /** Then nobody is drained: no handler is called, and an index is cut exactly if there are too many messages. */
  ghost predicate Undrained(a: Tree, b: Tree, stored: bool)
  {
    && (b.post.truncated <==> a.post.truncated || Cutting(a, stored))
    && b.post.calls == a.post.calls && b.script == a.script
  }

  ghost predicate StillRoomy(x0: Tree, x: Tree, sender: Option<SubId>, todo: set<SubId>, reached: set<SubId>)
  {
    && Undrained(x0, x, reached != {}) && x.post.outgoing == x0.post.outgoing
    && forall s :: s in todo && Some(s) != sender ==> s in x.post.indices && |x.post.indices[s]| < MAX_INDICES
  }

  lemma RoomStarts(x: Tree, t: TopicId, sender: Option<SubId>)
    requires t in x.rel.members
    ensures FanRoom(x, x, t, sender, x.rel.members[t], {})
  {
  }

  lemma RoomSkips(x0: Tree, x: Tree, t: TopicId, sender: Option<SubId>, todo: set<SubId>, reached: set<SubId>, s: SubId)
    requires t in x0.rel.members && FanRoom(x0, x, t, sender, todo, reached)
    ensures FanRoom(x0, x, t, sender, todo - {s}, reached)
  {
    hide Roomy;
  }

  /** Whose batch is full cannot be among them. */
  lemma RoomDrains(x0: Tree, x: Tree, y: Tree, t: TopicId, sender: Option<SubId>, todo: set<SubId>, reached: set<SubId>,
                   s: SubId)
    requires t in x0.rel.members && s in todo && FanRoom(x0, x, t, sender, todo, reached)
    requires Some(s) != sender && s in x.post.indices && |x.post.indices[s]| == MAX_INDICES
    requires y.post.truncated == x.post.truncated
    ensures FanRoom(x0, y, t, sender, todo, reached)
  {
    hide Roomy;
  }

  lemma RoomReaches(x0: Tree, x: Tree, t: TopicId, sender: Option<SubId>, message: Payload, todo: set<SubId>,
                    reached: set<SubId>, s: SubId)
    requires t in x0.rel.members && s in todo && s in x.post.indices && s in x.post.due
    requires |x.post.outgoing| <= |x0.post.outgoing| && FanRoom(x0, x, t, sender, todo, reached)
    ensures FanRoom(x0, Reached(x, s, message), t, sender, todo - {s}, reached + {s})
  {
    hide Listing, Roomy;
    assert s in reached + {s};
  }

  lemma RoomEnds(a: Tree, x: Tree, t: TopicId, sender: Option<SubId>, message: Payload, reached: set<SubId>)
    requires t in a.rel.members && FanRoom(FanStarted(a, t, message), x, t, sender, {}, reached)
    ensures FanRoomOut(a, FanEnded(x, message, reached != {}), t, sender, message, reached)
  {
    assert a.post.outgoing + [] == a.post.outgoing;
  }

  /** The messages a waiting subscriber shares with others are kept as long as it waits. */
  ghost predicate Kept(a: Tree, b: Tree, u: SubId)
  {
    b.post.leaked || (u in b.links.chain && b.post.outgoing == a.post.outgoing)
  }

  ghost predicate FanFrame(x0: Tree, x: Tree, t: TopicId, message: Payload)
  {
    && x.mode.depth == x0.mode.depth && x.mode.applying == x0.mode.applying && x.mode.iterating == Some(t)
    && !x.mode.sweeping
    && x.mode.depth > 0 && x.post.inFlight == [message] && x.post.taker.None? && x.post.taking == []
    && t in x.rel.members && t in x0.rel.members && x.rel.members[t] == x0.rel.members[t]
    && x.rel.held.Keys == x0.rel.held.Keys && x.post.due.Keys == x0.post.due.Keys
    && |x.post.outgoing| <= |x0.post.outgoing| && x0.rel.ops <= x.rel.ops && x0.life.doomed <= x.life.doomed
    && (x0.post.leaked ==> x.post.leaked) && (!x.post.leaked ==> |x.post.outgoing| <= UINT16_MAX) && Spent(x0, x)
    && Onwards(x0, x) && Orderly(x) && x.life.answered == x0.life.answered
  }

  function FanStarted(x: Tree, t: TopicId, message: Payload): Tree
  {
    x.(mode := x.mode.(depth := x.mode.depth + 1, iterating := Some(t)), post := x.post.(inFlight := [message]))
  }

  lemma {:induction false} PickMore(idx: seq<nat>, messages: seq<Payload>, more: seq<Payload>)
    requires forall k :: k in idx ==> k < |messages|
    ensures Pick(idx, messages + more) == Pick(idx, messages)
  {
    forall i | 0 <= i < |idx|
      ensures Pick(idx, messages + more)[i] == Pick(idx, messages)[i]
    {
      assert idx[i] in idx;
    }
  }

  lemma OrderMore(x: Tree, y: Tree, s: SubId)
    requires s in x.post.due && s in x.post.received && s in x.post.indices && s in y.post.due && s in y.post.received
    requires s in y.post.indices
    requires y.post.due[s] == x.post.due[s] && y.post.received[s] == x.post.received[s] && Owed(y, s) == Owed(x, s)
    requires y.post.outgoing == x.post.outgoing && (forall k :: k in Owed(x, s) ==> k < |x.post.outgoing|)
    ensures InOrder(x, s) ==> InOrder(y, s)
  {
    PickMore(Owed(x, s), x.post.outgoing, x.post.inFlight);
    PickMore(Owed(x, s), x.post.outgoing, y.post.inFlight);
  }

  /** A message that nobody has been given yet may be put in flight, and taken out again. */
  lemma InFlightKeeps(x: Tree, inFlight: seq<Payload>)
    requires Bounded(x) && x.post.indices.Keys == x.post.received.Keys == x.post.due.Keys && Delivering(x)
    requires |inFlight| <= 1
    requires (forall s :: Fresh(x.post, s)) && x.post.taker.None?
    ensures var y := x.(post := x.post.(inFlight := inFlight)); Bounded(y) && Delivering(y)
  {
    hide InOrder;
    var y := x.(post := x.post.(inFlight := inFlight));
    forall s | s in y.post.indices
      ensures forall k :: k in y.post.indices[s] ==> k < |y.post.outgoing|
    {
      assert Fresh(x.post, s);
    }
    forall u | !x.post.truncated && u in y.post.due && u !in y.life.doomed && u !in y.post.stoppers
      ensures InOrder(y, u)
    {
      assert InOrder(x, u) && Fresh(x.post, u) && Owed(x, u) == x.post.indices[u];
      OrderMore(x, y, u);
    }
  }

  lemma FanStartInv(x: Tree, t: TopicId, message: Payload)
    requires Inv(x) && Ready(x) && t in x.rel.members
    ensures (forall s :: Fresh(x.post, s)) && Inv(FanStarted(x, t, message))
  {
    hide RelOk, Linked, Onward, InOrder;
    InFlightKeeps(x, [message]);
    var y := FanStarted(x, t, message);
    var z := x.(post := x.post.(inFlight := [message]));
    forall u | !y.post.truncated && u in y.post.due && u !in y.life.doomed && u !in y.post.stoppers
      ensures InOrder(y, u)
    {
      OrderStays(z, y, u);
    }
  }

  /** `publish` need not drain anyone first. */
  predicate HasRoom(x: Tree) { |x.post.outgoing| < UINT16_MAX || x.links.head.None? }

  /** No delivery is going on; changes may be being replayed. */
  ghost predicate Ready(x: Tree)
  {
    && x.mode.depth == 0 && x.mode.iterating.None? && !x.mode.sweeping
    && x.post.taker.None? && x.post.taking == [] && x.post.inFlight == []
  }

  /** Between deliveries nothing is queued but by a replay. */
  lemma NothingWaits(x: Tree)
    requires Inv(x) && Ready(x)
    ensures x.mode.applying || (x.rel.ops == [] && x.life.doomed == {} && !x.mode.pending)
    ensures Orderly(x)
  {
    hide RelOk, Listed, Bounded, Delivering;
  }

  lemma FanStarts(x: Tree, t: TopicId, sender: Option<SubId>, message: Payload)
    requires Inv(x) && Ready(x) && t in x.rel.members && (!x.post.leaked ==> |x.post.outgoing| <= UINT16_MAX)
    ensures var y := FanStarted(x, t, message);
              Fanning(y, y, t, sender, message, y.rel.members[t], {}) && y.mode.depth == 1
  {
    hide Inv, FanRoom;
    RoomStarts(FanStarted(x, t, message), t, sender);
    NothingWaits(x);
    FanStartInv(x, t, message);
    var y := FanStarted(x, t, message);
    forall s ensures Fresh(y.post, s) { assert Fresh(x.post, s); }
    assert forall s :: s in y.post.due ==> y.post.due[s] == y.post.due[s] + [];
  }

  lemma FanSkip(x0: Tree, x: Tree, t: TopicId, sender: Option<SubId>, message: Payload, todo: set<SubId>,
                reached: set<SubId>, s: SubId)
    requires Fanning(x0, x, t, sender, message, todo, reached) && s in todo
    requires Some(s) == sender || s in x.life.doomed || s !in x.rel.held || t !in x.rel.held[s]
    ensures Fanning(x0, x, t, sender, message, todo - {s}, reached)
  {
    hide Inv, FanRoom, RelOk, FanFrame;
    FanFrameSize(x0, x, t, message);
    RoomSkips(x0, x, t, sender, todo, reached, s);
    InvRegistered(x);
    MembersLive(x, t);
    if Some(s) != sender && s !in x.life.doomed {
      LeftIsQueued(x.rel, s, t);
    }
  }

  lemma MembersLive(x: Tree, t: TopicId)
    requires Inv(x) && t in x.rel.members
    ensures x.rel.members[t] <= x.rel.held.Keys
  {
    RelParts(x.rel);
  }

  lemma FanDrain(x0: Tree, x: Tree, y: Tree, t: TopicId, sender: Option<SubId>, message: Payload, todo: set<SubId>,
                 reached: set<SubId>, s: SubId)
    requires Fanning(x0, x, t, sender, message, todo, reached) && s in todo && Drained(x, y, s) && Inv(y)
    requires Some(s) != sender && s in x.post.indices && |x.post.indices[s]| == MAX_INDICES
    ensures Fanning(x0, y, t, sender, message, todo, reached)
  {
    hide Inv, FanRoom, HeardOn;
    RoomDrains(x0, x, y, t, sender, todo, reached, s);
    FanDrainFrame(x0, x, y, t, message, s);
    forall u | u !in reached
      ensures Fresh(y.post, u)
    {
      assert Fresh(x.post, u);
      FreshDrained(x, y, s, u);
    }
    if reached != {} && !y.post.leaked {
      var u :| u in reached && u in x.links.chain;
      assert u in y.links.chain;
    }
    forall u | u in y.rel.members[t] && u !in todo && u !in reached && Some(u) != sender && u !in y.life.doomed
      ensures LeftQueued(y.rel.ops, u, t)
    {
      LeftStays(x.rel.ops, y.rel.ops, u, t);
    }
    forall u | u in x0.links.chain && u !in y.rel.members[t]
      ensures Kept(x0, y, u)
    {
      assert Kept(x0, x, u);
    }
  }

  lemma LeftStays(ops: seq<Op>, ops': seq<Op>, s: SubId, t: TopicId)
    requires LeftQueued(ops, s, t) && ops <= ops'
    ensures LeftQueued(ops', s, t)
  {
    var k :| 0 <= k < |ops| && ops[k] == UnsubscribeOp(s, t);
    assert ops'[k] == ops[k];
  }

  lemma FanDrainFrame(x0: Tree, x: Tree, y: Tree, t: TopicId, message: Payload, s: SubId)
    requires FanFrame(x0, x, t, message) && Drained(x, y, s)
    ensures FanFrame(x0, y, t, message) && y.post.due == x.post.due
  {
    hide Onwards;
    SpentTrans(x0, x, y);
    OnwardsTrans(x0, x, y);
  }

  lemma SpentTrans(a: Tree, b: Tree, c: Tree)
    requires Spent(a, b) && Spent(b, c)
    ensures Spent(a, c)
  {
    hide HeardOn;
    HeardMore(a, b, c);
  }

  lemma FreshDrained(x: Tree, y: Tree, s: SubId, u: SubId)
    requires Drained(x, y, s) && Fresh(x.post, u) && Inv(y) && !y.mode.sweeping
    ensures Fresh(y.post, u)
  {
    hide RelOk, Delivering, Linked, Onward;
  }

  lemma OneDrainedBy(x: Tree, z: Tree, s: SubId)
    requires Inv(x) && s in x.post.indices && |x.post.indices[s]| > 0 && !x.mode.sweeping && Linked(z.links)
    requires Linked(x.links) && s in x.links.chain
    requires var d := Taken(Detached(x, s), s); Stirred(d, z) && Unclaimed(d, z) && Spent(d, z) && z.post.taking == []
    ensures OneDrained(x, Settled(z), s)
  {
    hide Inv, Linked, Unlinked, Orderly, Onwards;
    InvListed(x);
    DetachedListed(x, s);
    HeadIsFirst(z.links);
    OneDrainedOnwards(x, z, s);
  }

  lemma OneDrainedOnwards(x: Tree, z: Tree, s: SubId)
    requires s in x.post.indices && Linked(x.links) && s in x.links.chain && Stirred(Taken(Detached(x, s), s), z)
    ensures Onwards(Deeper(x), Settled(z)) && (Orderly(Deeper(x)) ==> Orderly(Settled(z)))
  {
    hide Linked, Unlinked;
  }

  lemma HeadIsFirst(l: Links)
    requires Linked(l)
    ensures l.head.None? <==> l.chain == []
  {
  }

  /** No delivery and no replay is going on. */
  ghost predicate AtEase(x: Tree)
  {
    Ready(x) && !x.mode.applying
  }

  /** The parts of the invariant the methods lean on. */
  lemma InvRegistered(x: Tree)
    requires Inv(x)
    ensures RelOk(x.rel) && Registered(x.rel) && (x.rel.ops != [] ==> x.mode.pending)
    ensures forall n :: n in x.rel.topics ==> x.rel.topics[n] in x.rel.members
  {
  }

  lemma InvListed(x: Tree)
    requires Inv(x)
    ensures Listed(x) && Linked(x.links) && x.rel.held.Keys == x.post.indices.Keys
    ensures forall s :: s in x.post.indices && x.post.indices[s] != [] ==> s in x.links.chain
  {
  }

  /** While nothing is pending every member of a topic holds it, and none is freed. */
  lemma NobodyDetached(x: Tree, s: SubId, t: TopicId)
    requires Inv(x) && !x.mode.pending && t in x.rel.members && s in x.rel.members[t]
    ensures s in x.rel.held && t in x.rel.held[s] && s !in x.life.doomed
  {
    MembersHeld(x.rel, t);
  }

  function Empty(script: seq<Reaction>): Tree
  {
    Tree(Rel(map[], map[], map[], map[], []), Links([], None, map[], map[]),
         Post(map[], [], map[], map[], [], None, [], {}, false, false, []), Mode(0, None, false, false, false, []),
         Life({}, [], 0, [], [], []), script)
  }

  ghost function Created(x: Tree): Tree
  {
    var s := x.life.nextId;
    x.(life := x.life.(nextId := s + 1), rel := x.rel.(held := x.rel.held[s := {}]),
       post := x.post.(indices := x.post.indices[s := []], received := x.post.received[s := []], due :=
         x.post.due[s := []]))
  }

  lemma CreatedShape(x: Tree)
    requires RelOk(x.rel) && Shape(x) && Flags(x)
    ensures RelOk(Created(x).rel) && Shape(Created(x)) && Flags(Created(x))
  {
    hide RelOk;
    ComeKeeps(x.rel, x.life.nextId);
  }

  lemma CreatedListed(x: Tree)
    requires Shape(x) && Listed(x) && Bounded(x) && Tidy(x)
    ensures Listed(Created(x)) && Bounded(Created(x)) && Tidy(Created(x))
  {
    hide Linked, Onward;
  }

  lemma CreatedDelivers(x: Tree)
    requires Shape(x) && Delivering(x)
    ensures Created(x).post.indices.Keys == Created(x).post.received.Keys == Created(x).post.due.Keys
    ensures Delivering(Created(x))
  {
    hide InOrder;
    var y := Created(x);
    forall u | !x.post.truncated && u in y.post.due && u !in y.life.doomed && u !in y.post.stoppers
      ensures InOrder(y, u)
    {
      if u == x.life.nextId { OrderStarts(y, u); } else { OrderStays(x, y, u); }
    }
  }

  lemma CreatedKeeps(x: Tree)
    requires Inv(x)
    ensures Inv(Created(x))
  {
    hide RelOk, Shape, Flags, Listed, Bounded, Tidy, Delivering;
    CreatedShape(x);
    CreatedListed(x);
    CreatedDelivers(x);
  }

  lemma OrderStarts(x: Tree, s: SubId)
    requires s in x.post.due && s in x.post.received && s in x.post.indices
    requires x.post.due[s] == x.post.received[s] == [] && x.post.indices[s] == [] && x.post.taker != Some(s)
    ensures InOrder(x, s)
  {
  }

  lemma OrderStays(x: Tree, y: Tree, s: SubId)
    requires s in x.post.due && s in x.post.received && s in x.post.indices && s in y.post.due && s in y.post.received
    requires s in y.post.indices
    requires y.post.due[s] == x.post.due[s] && y.post.received[s] == x.post.received[s] && Owed(y, s) == Owed(x, s)
    requires y.post.outgoing + y.post.inFlight == x.post.outgoing + x.post.inFlight
    ensures InOrder(x, s) ==> InOrder(y, s)
  {
  }

  // ---------------------------------------------------------------- reaching one subscriber

  function Listing(l: Links, s: SubId, first: bool): Links
  {
    if first then Push(l, s) else l
  }

  /** The index of the message in flight is stored, truncated to sixteen bits. */
  function Reached(x: Tree, s: SubId, message: Payload): Tree
    requires s in x.post.indices && s in x.post.due
  {
    x.(links := Listing(x.links, s, |x.post.indices[s]| == 0), post := ReachedPost(x.post, s, message))
  }

  function ReachedPost(p: Post, s: SubId, message: Payload): Post
    requires s in p.indices && s in p.due
  {
    p.(indices := p.indices[s := p.indices[s] + [|p.outgoing| % 65536]], due := p.due[s := p.due[s] + [message]],
       truncated := p.truncated || |p.outgoing| > UINT16_MAX)
  }

  lemma ReachedListed(x: Tree, s: SubId, message: Payload)
    requires Listed(x) && s in x.post.indices && s in x.post.due && s !in x.life.doomed && !x.mode.sweeping
    ensures Listed(Reached(x, s, message))
    ensures s in Reached(x, s, message).links.chain
    ensures forall u :: u in x.links.chain ==> u in Reached(x, s, message).links.chain
    ensures forall u :: u in Reached(x, s, message).links.chain ==> u in x.links.chain || u == s
  {
    hide Linked;
    if |x.post.indices[s]| == 0 { PushKeeps(x.links, s); }
  }

  lemma ReachedBounded(x: Tree, s: SubId, message: Payload)
    requires Bounded(x) && s in x.post.indices && s in x.post.due && |x.post.indices[s]| < MAX_INDICES
    requires |x.post.inFlight| == 1
    ensures Bounded(Reached(x, s, message))
  {
    hide Listing;
    var y := Reached(x, s, message);
    var n := |x.post.outgoing| % 65536;
    assert n <= UINT16_MAX && n <= |x.post.outgoing|;
    assert forall k :: k in y.post.indices[s] <==> k in x.post.indices[s] || k == n;
  }

  lemma OrderReached(x: Tree, s: SubId, message: Payload)
    requires s in x.post.due && s in x.post.received && s in x.post.indices && x.post.taker.None?
    requires x.post.inFlight == [message]
    requires |x.post.outgoing| <= UINT16_MAX && InOrder(x, s)
    ensures InOrder(Reached(x, s, message), s)
  {
    hide Listing;
    var messages, n := x.post.outgoing + [message], |x.post.outgoing| % 65536;
    PickConcat(x.post.indices[s], [n], messages);
    assert Pick([n], messages) == [message];
    assert Owed(x, s) == x.post.indices[s];
    assert Owed(Reached(x, s, message), s) == x.post.indices[s] + [n];
  }

  lemma ReachedDelivers(x: Tree, s: SubId, message: Payload)
    requires s in x.post.indices && x.post.indices.Keys == x.post.received.Keys == x.post.due.Keys && Delivering(x)
    requires x.post.taker.None? && x.post.inFlight == [message]
    ensures var y := Reached(x, s, message);
              y.post.indices.Keys == y.post.received.Keys == y.post.due.Keys && Delivering(y)
  {
    hide InOrder, Listing;
    var y := Reached(x, s, message);
    forall u | !y.post.truncated && u in y.post.due && u !in y.life.doomed && u !in y.post.stoppers
      ensures InOrder(y, u)
    {
      assert InOrder(x, u);
      if u == s { OrderReached(x, s, message); } else { OrderStays(x, y, u); }
    }
  }

  lemma ReachedKeeps(x: Tree, s: SubId, message: Payload)
    requires Inv(x) && Alive(x, s) && s in x.post.indices && s in x.post.due && |x.post.indices[s]| < MAX_INDICES
    requires x.post.inFlight == [message] && x.post.taker.None? && !x.mode.sweeping
    requires (!x.post.leaked ==> |x.post.outgoing| <= UINT16_MAX)
    ensures Inv(Reached(x, s, message))
  {
    hide RelOk, Listed, Bounded, Delivering, Listing;
    ReachedListed(x, s, message);
    ReachedBounded(x, s, message);
    ReachedDelivers(x, s, message);
  }

  lemma FanReachFrame(x0: Tree, x: Tree, t: TopicId, message: Payload, s: SubId)
    requires FanFrame(x0, x, t, message) && s in x.post.indices && s in x.post.due
    ensures FanFrame(x0, Reached(x, s, message), t, message)
  {
    hide Listing;
  }

  lemma FanReach(x0: Tree, x: Tree, t: TopicId, sender: Option<SubId>, message: Payload, todo: set<SubId>,
                 reached: set<SubId>, s: SubId)
    requires Fanning(x0, x, t, sender, message, todo, reached) && s in todo && Some(s) != sender && Alive(x, s)
    requires s in x.post.indices && s in x.post.due && |x.post.indices[s]| < MAX_INDICES
    ensures Fanning(x0, Reached(x, s, message), t, sender, message, todo - {s}, reached + {s})
  {
    hide Inv, FanFrame, Listing, FanRoom;
    var y := Reached(x, s, message);
    FanFrameSize(x0, x, t, message);
    RoomReaches(x0, x, t, sender, message, todo, reached, s);
    FanningParts(x0, x, t, sender, message, todo, reached);
    ReachedKeeps(x, s, message);
    InvListed(x);
    ReachedListed(x, s, message);
    FanReachFrame(x0, x, t, message, s);
    forall u | u !in reached + {s}
      ensures Fresh(y.post, u)
    {
      assert Fresh(x.post, u);
    }
    forall u | u in x0.post.due
      ensures y.post.due[u] == x0.post.due[u] + (if u in reached + {s} then [message] else [])
    {
      assert u == s ==> x.post.due[u] == x0.post.due[u] + [];
    }
    forall u | u in x0.links.chain && u !in y.rel.members[t]
      ensures Kept(x0, y, u)
    {
      assert Kept(x0, x, u);
    }
  }

  lemma FanFrameSize(x0: Tree, x: Tree, t: TopicId, message: Payload)
    requires FanFrame(x0, x, t, message)
    ensures !x.post.leaked ==> |x.post.outgoing| <= UINT16_MAX
    ensures t in x.rel.members && t in x0.rel.members && |x.post.outgoing| <= |x0.post.outgoing|
  {
  }

  /** The shared vector gets the message if anyone was given its index. */
  function FanEnded(x: Tree, message: Payload, referenced: bool): Tree
  {
    x.(mode := x.mode.(iterating := None),
       post := x.post.(inFlight := [], outgoing := if referenced then x.post.outgoing + [message] else x.post.outgoing))
  }

  lemma FanEndsUsed(x: Tree, message: Payload)
    requires Bounded(x) && x.post.indices.Keys == x.post.received.Keys == x.post.due.Keys && Delivering(x)
    requires x.post.inFlight == [message] && x.post.taker.None? && x.post.taking == []
    ensures Bounded(FanEnded(x, message, true)) && Delivering(FanEnded(x, message, true))
  {
    hide InOrder;
    var y := FanEnded(x, message, true);
    assert y.post.outgoing + [] == y.post.outgoing;
    forall u | !x.post.truncated && u in y.post.due && u !in y.life.doomed && u !in y.post.stoppers
      ensures InOrder(y, u)
    {
      OrderStays(x, y, u);
    }
  }

  lemma FanningDone(x0: Tree, x: Tree, t: TopicId, sender: Option<SubId>, message: Payload, reached: set<SubId>)
    requires Fanning(x0, x, t, sender, message, {}, reached)
    ensures Inv(x) && x.post.inFlight == [message] && x.post.taker.None? && x.post.taking == [] && !x.mode.sweeping
    ensures if reached == {} then forall s :: Fresh(x.post, s) else x.post.leaked || x.links.chain != []
    ensures !x.post.leaked ==> |x.post.outgoing| <= UINT16_MAX
  {
    hide Inv;
  }

  lemma FanEnds(x0: Tree, x: Tree, t: TopicId, sender: Option<SubId>, message: Payload, reached: set<SubId>)
    requires Fanning(x0, x, t, sender, message, {}, reached) && x.mode.depth == 1
    ensures var y := FanEnded(x, message, reached != {}); Inv(y)
  {
    hide RelOk, Listed, Bounded, Delivering, Fanning;
    FanningDone(x0, x, t, sender, message, reached);
    var y := FanEnded(x, message, reached != {});
    if reached == {} {
      InFlightKeeps(x, []);
      var z := x.(post := x.post.(inFlight := []));
      BoundedSame(z, y);
    } else {
      FanEndsUsed(x, message);
    }
    ListedMode(x, y);
  }

  lemma BoundedSame(x: Tree, y: Tree)
    requires y.post == x.post && y.life == x.life && Bounded(x)
    requires x.post.indices.Keys == x.post.received.Keys == x.post.due.Keys && Delivering(x)
    ensures Bounded(y) && Delivering(y)
  {
    hide InOrder;
    forall u | !x.post.truncated && u in y.post.due && u !in y.life.doomed && u !in y.post.stoppers
      ensures InOrder(y, u)
    {
      OrderStays(x, y, u);
    }
  }

  lemma ListedMode(x: Tree, y: Tree)
    requires Listed(x) && y.links == x.links && y.mode.sweeping == x.mode.sweeping && y.mode.order == x.mode.order
    requires y.post.indices == x.post.indices && y.life.doomed == x.life.doomed
    ensures Listed(y)
  {
  }

  /** What the loop of `publish` can count on. */
  lemma FanningParts(x0: Tree, x: Tree, t: TopicId, sender: Option<SubId>, message: Payload, todo: set<SubId>,
                     reached: set<SubId>)
    requires Fanning(x0, x, t, sender, message, todo, reached)
    ensures Inv(x) && t in x.rel.members && todo <= x.rel.members[t] && x.mode.depth == x0.mode.depth
    ensures x.mode.depth > 0
    ensures !x.mode.sweeping && x.post.taker.None? && x.post.taking == [] && x.post.inFlight == [message] && Orderly(x)
    ensures forall s :: s in todo ==>
              && s in x.rel.held && s in x.post.indices && s in x.post.due && Fresh(x.post, s)
              && |x.post.indices[s]| <= MAX_INDICES
              && (!x.mode.pending ==> s !in x.life.doomed)
  {
    hide RelOk, Listed, Delivering, Tidy, Fresh, Orderly, Onwards;
    MembersLive(x, t);
  }

  lemma DrainedParts(x: Tree, y: Tree, s: SubId)
    requires Drained(x, y, s)
    ensures s in y.post.indices && y.post.indices[s] == []
  {
  }

  /** What publishing to `t` does before `leaveDraining`: `reached`, none of them the sender, are due the message and
    * nobody else is; a member is missed only if it was freed or its leaving is queued. */
  ghost predicate FannedOut(a: Tree, b: Tree, t: TopicId, sender: Option<SubId>, message: Payload, reached: set<SubId>)
  {
    && t in a.rel.members && reached <= a.rel.members[t] && (forall s :: s in reached ==> Some(s) != sender)
    && a.post.due.Keys == b.post.due.Keys
    && (forall s :: s in a.post.due ==> b.post.due[s] == a.post.due[s] + (if s in reached then [message] else []))
    && (forall s :: s in a.rel.members[t] && s !in reached && Some(s) != sender ==>
      s in b.life.doomed || LeftQueued(b.rel.ops, s, t))
    && b.mode.depth == a.mode.depth + 1 && b.mode.applying == a.mode.applying && b.mode.iterating.None?
    && !b.mode.sweeping
    && b.post.inFlight == [] && b.post.taker.None? && b.post.taking == []
    && a.rel.ops <= b.rel.ops && a.life.doomed <= b.life.doomed && a.rel.held.Keys == b.rel.held.Keys
    && (a.post.leaked ==> b.post.leaked) && Spent(a, b) && Onwards(a, b) && |b.post.outgoing| <= |a.post.outgoing| + 1
    && b.life.answered == a.life.answered
    && (reached != {} ==> b.post.leaked || exists u :: u in reached && u in b.links.chain)
    && (forall u :: u in a.links.chain && u !in a.rel.members[t] && !b.post.leaked ==>
          u in b.links.chain && b.post.outgoing == a.post.outgoing + if reached == {} then [] else [message])
    && FanRoomOut(a, b, t, sender, message, reached)
  }

  lemma FannedOutBy(a: Tree, x0: Tree, x: Tree, t: TopicId, sender: Option<SubId>, message: Payload,
                    reached: set<SubId>)
    requires x0 == FanStarted(a, t, message) && t in a.rel.members && Fanning(x0, x, t, sender, message, {}, reached)
    ensures FannedOut(a, FanEnded(x, message, reached != {}), t, sender, message, reached)
  {
    hide Inv, FanRoom, FanRoomOut, HeardOn;
    RoomEnds(a, x, t, sender, message, reached);
    forall u | u in a.links.chain && u !in a.rel.members[t] && !x.post.leaked
      ensures u in x.links.chain && x.post.outgoing == a.post.outgoing
    {
      assert Kept(x0, x, u);
    }
    assert a.post.outgoing + [] == a.post.outgoing;
  }

  // ---------------------------------------------------------------- draining everyone

  function SweepStarted(x: Tree): Tree
  {
    x.(mode := x.mode.(depth := x.mode.depth + 1, sweeping := true, order := x.links.chain))
  }

  function Forgotten(x: Tree): Tree
  {
    x.(post := x.post.(taker := None))
  }

  function SweepEnded(x: Tree): Tree
  {
    x.(mode := x.mode.(sweeping := false), links := x.links.(chain := [], head := None), post :=
      x.post.(outgoing := []))
  }

  /** The loop of `drain`: everyone before position `pos` of the original list has been served. */
  ghost predicate Sweeping(x0: Tree, x: Tree, cursor: Option<SubId>, pos: nat)
  {
    && Inv(x) && Stirred(x0, x) && Spent(x0, x) && x.mode.sweeping && x.mode.depth == 1 && x.mode.iterating.None?
    && x.post.taker.None? && x.post.taking == [] && x.post.inFlight == []
    && cursor == At(x.mode.order, pos) && pos <= |x.mode.order| && x.mode.order != []
    && (x.post.leaked || forall i :: 0 <= i < |x.mode.order| ==> x.mode.order[i] in x.links.chain)
    && (forall i :: 0 <= i < |x.mode.order| ==> x.mode.order[i] in x.post.indices)
    && (forall i :: 0 <= i < pos ==> x.post.indices[x.mode.order[i]] == []) && Orderly(x)
  }

  lemma SweepStartInv(x: Tree)
    requires Inv(x) && Ready(x) && x.links.head.Some?
    ensures Inv(SweepStarted(x))
  {
    hide RelOk, Linked, InOrder, Onward;
    var y := SweepStarted(x);
    HeadIsFirst(x.links);
    WalkStarts(x.links);
    forall u | !y.post.truncated && u in y.post.due && u !in y.life.doomed && u !in y.post.stoppers
      ensures InOrder(y, u)
    {
      OrderStays(x, y, u);
    }
  }

  lemma SweepStarts(x: Tree)
    requires Inv(x) && Ready(x) && x.links.head.Some?
    ensures var y := SweepStarted(x); Inv(y) && Sweeping(y, y, y.links.head, 0)
  {
    hide RelOk, Linked, Delivering, Onward, Stirred, Onwards, HeardOn;
    SweepStartInv(x);
    var y := SweepStarted(x);
    HeadIsFirst(x.links);
    HeardNothing(y);
    StirredSelf(y);
    HeadIs(x.links);
  }

  lemma HeadIs(l: Links)
    requires Linked(l)
    ensures l.head == At(l.chain, 0)
  {
  }

  lemma SweepingParts(x0: Tree, x: Tree, cursor: Option<SubId>, pos: nat)
    requires Sweeping(x0, x, cursor, pos)
    ensures x.mode.sweeping && x.post.taker.None? && x.post.inFlight == [] && Orderly(x)
    ensures Inv(x) && x.mode.depth == 1 && x.mode.order == x0.mode.order && cursor == At(x.mode.order, pos)
    ensures pos <= |x.mode.order|
    ensures cursor.Some? ==>
              cursor.value in x.post.indices && cursor.value in x.links.next && cursor.value in x.post.received
  {
    hide RelOk, Linked, Bounded, Delivering, Skips, Orderly, Onwards;
  }

  /** The pointer saved before the handlers run leads to the next one still on the list. */
  lemma SweepNext(x: Tree, pos: nat) returns (j: nat)
    requires Inv(x) && x.mode.sweeping && pos < |x.mode.order|
    ensures pos < j <= |x.mode.order| && x.mode.order[pos] in x.links.next
    ensures x.links.next[x.mode.order[pos]] == At(x.mode.order, j)
    ensures forall k :: pos < k < j ==> x.mode.order[k] !in x.links.chain
  {
    hide RelOk, Linked;
    var order, to := x.mode.order, x.links.next[x.mode.order[pos]];
    assert Skips(order, x.links.chain, pos, to);
    match to {
      case None => j := |order|;
      case Some(y) => j :| pos < j < |order| && order[j] == y && forall k :: pos < k < j ==> order[k] !in x.links.chain;
    }
  }

  lemma TakenSweepKeeps(x: Tree, s: SubId)
    requires Inv(x) && x.mode.sweeping && s in x.post.indices && x.post.taker.None? && x.post.inFlight == []
    ensures Inv(Taken(x, s))
  {
    hide RelOk, Linked, Onward, Delivering;
    TakenDelivers(x, Taken(x, s), s);
  }

  lemma OffTheList(x: Tree, s: SubId)
    requires Inv(x) && s in x.post.indices && (s !in x.links.chain || s in x.life.doomed)
    ensures x.post.indices[s] == []
  {
  }

  lemma SweepSkip(x0: Tree, x: Tree, pos: nat, j: nat, s: SubId)
    requires Sweeping(x0, x, Some(s), pos) && s in x.life.doomed && pos < j <= |x.mode.order|
    requires forall k :: pos < k < j ==> x.mode.order[k] !in x.links.chain
    ensures Sweeping(x0, x, At(x.mode.order, j), j)
  {
    hide Inv;
    forall i | 0 <= i < j
      ensures x.post.indices[x.mode.order[i]] == []
    {
      if i >= pos { OffTheList(x, x.mode.order[i]); }
    }
  }

  lemma SweepStep(x0: Tree, x: Tree, z: Tree, pos: nat, j: nat, s: SubId)
    requires Sweeping(x0, x, Some(s), pos) && pos < j <= |x.mode.order| && s !in x.life.doomed
    requires forall k :: pos < k < j ==> x.mode.order[k] !in x.links.chain
    requires Inv(z) && Stirred(Taken(x, s), z) && Unclaimed(Taken(x, s), z) && Spent(Taken(x, s), z)
    requires z.post.taking == []
    ensures Sweeping(x0, Forgotten(z), At(x.mode.order, j), j)
  {
    hide Inv, Onwards, Spent, Orderly;
    var y := Forgotten(z);
    SweepSpends(x0, x, z, s);
    SweepStirs(x0, x, z, s);
    TakenOrder(x, z, s);
    forall i | 0 <= i < j
      ensures y.post.indices[y.mode.order[i]] == []
    {
      if i >= pos {
        assert i > pos ==> x.mode.order[i] !in z.links.chain;
        if i > pos { OffTheList(z, x.mode.order[i]); }
      }
    }
    assert z.post.leaked || x.mode.order[0] in z.links.chain;
    ForgottenKeeps(z);
  }

  lemma SweepSpends(x0: Tree, x: Tree, z: Tree, s: SubId)
    requires Spent(x0, x) && s in x.post.indices && Spent(Taken(x, s), z)
    ensures Spent(x0, Forgotten(z))
  {
    hide HeardOn;
    assert Spent(x, z);
    SpentTrans(x0, x, z);
  }

  lemma TakenOrder(x: Tree, z: Tree, s: SubId)
    requires Orderly(x) && s in x.post.indices && Stirred(Taken(x, s), z)
    ensures Orderly(Forgotten(z))
  {
    hide Onwards;
  }

  lemma SweepStirs(x0: Tree, x: Tree, z: Tree, s: SubId)
    requires Stirred(x0, x) && s in x.post.indices && Stirred(Taken(x, s), z)
    ensures Stirred(x0, Forgotten(z)) && z.post.indices.Keys == x.post.indices.Keys
  {
  }

  lemma ForgottenKeeps(z: Tree)
    requires Inv(z) && z.post.taking == [] && (z.post.leaked || z.links.chain != [])
    ensures Inv(Forgotten(z))
  {
    hide RelOk, Linked, Onward, InOrder;
    var y := Forgotten(z);
    forall u | !y.post.truncated && u in y.post.due && u !in y.life.doomed && u !in y.post.stoppers
      ensures InOrder(y, u)
    {
      assert Owed(y, u) == Owed(z, u);
      OrderStays(z, y, u);
    }
  }

  /** What `drain` does before `leaveDraining`. */
  ghost predicate Swept(a: Tree, b: Tree)
  {
    && b.mode.depth == 1 && b.mode.applying == a.mode.applying && b.mode.iterating.None? && !b.mode.sweeping
    && b.post.taker.None? && b.post.taking == [] && b.post.inFlight == [] && b.post.outgoing == []
    && b.links.chain == []
    && b.post.due == a.post.due && a.rel.ops <= b.rel.ops && a.life.doomed <= b.life.doomed
    && (a.post.leaked ==> b.post.leaked)
    && b.rel.held.Keys == a.rel.held.Keys && Spent(a, b) && Onwards(a, b) && b.life.answered == a.life.answered
    && b.post.truncated == a.post.truncated
    && forall s :: s in b.post.indices ==> b.post.indices[s] == []
  }

  lemma AllServed(x: Tree)
    requires Listed(x) && x.mode.sweeping
    requires (forall i :: 0 <= i < |x.mode.order| ==>
               x.mode.order[i] in x.post.indices && x.post.indices[x.mode.order[i]] == [])
    ensures forall s :: s in x.post.indices ==> x.post.indices[s] == []
  {
    hide Linked, Skips;
    forall s | s in x.post.indices
      ensures x.post.indices[s] == []
    {
      assert x.post.indices[s] != [] ==> s in x.links.chain && s in x.mode.order;
    }
  }

  lemma SweepEndsSwept(start: Tree, x0: Tree, x: Tree, pos: nat)
    requires x0 == SweepStarted(start) && Ready(start) && Sweeping(x0, x, None, pos)
    requires forall s :: s in x.post.indices ==> x.post.indices[s] == []
    ensures Swept(start, SweepEnded(x))
  {
    hide Inv;
  }

  lemma SweepEnds(start: Tree, x0: Tree, x: Tree, pos: nat)
    requires x0 == SweepStarted(start) && Ready(start) && Sweeping(x0, x, None, pos)
    ensures Inv(SweepEnded(x)) && Swept(start, SweepEnded(x))
  {
    hide RelOk, InOrder, NodeLinked, Skips, Stirred, Spent, Swept;
    assert pos == |x.mode.order|;
    AllServed(x);
    SweepEndsSwept(start, x0, x, pos);
    var y := SweepEnded(x);
    forall u | !y.post.truncated && u in y.post.due && u !in y.life.doomed && u !in y.post.stoppers
      ensures InOrder(y, u)
    {
      assert InOrder(x, u) && Owed(x, u) == Owed(y, u) == [];
      NothingOwed(x, y, u);
    }
  }

  // ---------------------------------------------------------------- winding down

  /** The last level of a delivery, with nothing under way. */
  ghost predicate Unwound(x: Tree)
  {
    && x.mode.depth == 1 && x.mode.iterating.None? && !x.mode.sweeping
    && x.post.taker.None? && x.post.taking == [] && x.post.inFlight == []
  }

  /** What a call made between deliveries leaves: reactions are only used up, and if none is, nothing changes but what
    * is delivered; during a replay, the queue only grows. */
  ghost predicate Calm(a: Tree, b: Tree)
  {
    && b.mode.applying == a.mode.applying && |b.script| <= |a.script| && (a.post.leaked ==> b.post.leaked)
    && (a.mode.applying ==> a.rel.ops <= b.rel.ops) && (a.mode.applying || !a.mode.pending ==> Spent(a, b))
    && Heard(a, b)
    && Onwards(a, b)
  }

  /** Room for one more index, if nothing leaked. */
  ghost predicate Small(a: Tree, b: Tree)
  {
    !b.post.leaked && |a.post.outgoing| <= UINT16_MAX ==> |b.post.outgoing| <= UINT16_MAX
  }

  /** The replay is over. */
  ghost predicate Applied(a: Tree, b: Tree)
  {
    !b.mode.applying && |b.script| <= |a.script| && (a.post.leaked ==> b.post.leaked) && Small(a, b) && Onwards(a, b)
    && Heard(a, b)
  }

  ghost predicate Winding(a: Tree, b: Tree)
  {
    b.mode.applying && |b.script| <= |a.script| && (a.post.leaked ==> b.post.leaked) && Small(a, b) && Onwards(a, b)
    && Heard(a, b)
  }

  function ApplyStarted(x: Tree): Tree
    requires x.mode.depth > 0
  {
    x.(mode := x.mode.(depth := x.mode.depth - 1, applying := true))
  }

  lemma LeavingApplies(x: Tree)
    requires Inv(x) && Unwound(x)
    ensures var y := ApplyStarted(x); Inv(y) && Ready(y) && y.mode.applying
  {
    hide RelOk, Listed;
    var y := ApplyStarted(x);
    BoundedSame(x, y);
    ListedMode(x, y);
  }

  lemma LeavingRests(x: Tree)
    requires Inv(x) && Unwound(x) && (x.mode.pending ==> x.mode.applying)
    ensures var y := Shallower(x); Inv(y) && Ready(y) && Calm(x, y) && Small(x, y) && y.post == x.post
  {
    hide Inv, HeardOn;
    HeardNothing(x);
    ShallowerKeeps(x);
  }

  lemma CalmApplied(x: Tree, b: Tree)
    requires x.mode.depth > 0 && !x.mode.applying && x.mode.pending && Applied(ApplyStarted(x), b)
    ensures Calm(x, b) && Small(x, b)
  {
  }

  /** The loop of `applyPending`: the changes before `i` have been made. */
  ghost predicate Replaying(x0: Tree, x: Tree, i: nat)
  {
    Inv(x) && Ready(x) && Winding(x0, x) && i <= |x.rel.ops| && AllDone(x.rel.ops, i)
  }

  lemma ReplayStarts(x: Tree)
    requires Inv(x) && Ready(x) && x.mode.applying
    ensures Replaying(x, x, 0)
  {
    hide Inv;
  }

  lemma ReplayingParts(x0: Tree, x: Tree, i: nat)
    requires Replaying(x0, x, i)
    ensures Inv(x) && Ready(x) && x.mode.applying && i <= |x.rel.ops| && AllDone(x.rel.ops, i)
    ensures x.rel.ops != [] ==> x.mode.pending
    ensures i < |x.rel.ops| && x.rel.ops[i].Touches() ==>
              x.rel.ops[i].t in x.rel.members && x.rel.ops[i].t in x.rel.names
  {
    hide Listed, Bounded, Delivering;
    RelParts(x.rel);
  }

  /** A call of `publish` is taken off the queue; it is about to be answered. */
  function Crossed(x: Tree, i: nat): Tree
    requires i < |x.rel.ops|
  {
    x.(rel := x.rel.(ops := x.rel.ops[i := Done]), life :=
      x.life.(answered := x.life.answered + Publishes([x.rel.ops[i]])))
  }

  function Cleared(x: Tree): Tree
  {
    x.(rel := x.rel.(ops := []))
  }

  function ApplyEnded(x: Tree): Tree
  {
    x.(mode := x.mode.(pending := false, applying := false))
  }

  function ReplayedRel(r: Rel, i: nat): Rel
    requires i < |r.ops| && (r.ops[i].Touches() ==> r.ops[i].t in r.members && r.ops[i].t in r.names)
  {
    if r.ops[i].Touches() then Tidied(Replayed(r, i), r.ops[i].t) else Replayed(r, i)
  }

  function ReplayedTree(x: Tree, i: nat): Tree
    requires i < |x.rel.ops|
    requires (x.rel.ops[i].Touches() ==> x.rel.ops[i].t in x.rel.members && x.rel.ops[i].t in x.rel.names)
  {
    x.(rel := ReplayedRel(x.rel, i))
  }

  function Swapped(x: Tree, r: Rel, answered: seq<Ask>): Tree
  {
    x.(rel := r, life := x.life.(answered := answered))
  }

  /** Between deliveries the relation may be replaced by any that is in order. */
  lemma SwapKeeps(x: Tree, r: Rel, answered: seq<Ask>)
    requires Inv(x) && Ready(x) && RelOk(r) && r.held.Keys == x.rel.held.Keys
    requires x.life.asked == answered + Publishes(r.ops)
    requires (forall t :: t in r.members ==> t < x.life.nextId) && (r.ops == [] || x.mode.pending)
    ensures Inv(Swapped(x, r, answered))
  {
    hide RelOk, Listed, Bounded, Delivering;
    SameQueues(x, Swapped(x, r, answered));
  }

  lemma ReplayedFrame(r: Rel, i: nat)
    requires RelOk(r) && i < |r.ops| && AllDone(r.ops, i)
    ensures r.ops[i].Touches() ==> r.ops[i].t in r.members && r.ops[i].t in r.names
    ensures var r' := ReplayedRel(r, i);
            && RelOk(r') && r'.held == r.held && r'.ops == r.ops[i := Done]
            && (forall t :: t in r'.members ==> t in r.members)
            && forall t :: t in r'.names ==> t in r.names && r'.names[t] == r.names[t]
  {
    hide RelOk, SubscribeQueued;
    RelParts(r);
    ReplayedKeeps(r, i);
  }

  lemma ReplayedOnce(x0: Tree, x: Tree, i: nat)
    requires Replaying(x0, x, i) && i < |x.rel.ops| && !x.rel.ops[i].PublishOp?
    ensures x.rel.ops[i].Touches() ==> x.rel.ops[i].t in x.rel.members && x.rel.ops[i].t in x.rel.names
    ensures var y := ReplayedTree(x, i);
            && Replaying(x0, y, i + 1) && |y.rel.ops| == |x.rel.ops| && y.script == x.script && y.mode == x.mode
            && y.post == x.post
            && y.life == x.life && Onwards(x, y)
  {
    hide RelOk, ReplayedRel, Inv, Publishes, Onwards;
    ReplayingParts(x0, x, i);
    InvRegistered(x);
    InvAnswers(x);
    ReplayedFrame(x.rel, i);
    MembersBelow(x);
    CrossingOut(x.rel.ops, i);
    OnePublish(x.rel.ops[i]);
    assert [] + Publishes(x.rel.ops[i := Done]) == Publishes(x.rel.ops[i := Done]);
    SwapKeeps(x, ReplayedRel(x.rel, i), x.life.answered);
    var y := ReplayedTree(x, i);
    assert y == Swapped(x, ReplayedRel(x.rel, i), x.life.answered);
    OnwardsSelf(x, y);
    OnwardsTrans(x0, x, y);
  }

  lemma InvAnswers(x: Tree)
    requires Inv(x)
    ensures Answering(x)
  {
  }

  lemma MembersBelow(x: Tree)
    requires Inv(x)
    ensures forall t :: t in x.rel.members ==> t < x.life.nextId
  {
  }

  lemma CrossedKeeps(x0: Tree, x: Tree, i: nat)
    requires Replaying(x0, x, i) && i < |x.rel.ops| && x.rel.ops[i].PublishOp?
    ensures var y := Crossed(x, i);
            && Replaying(x0, y, i + 1) && y.mode == x.mode && y.script == x.script && |y.rel.ops| == |x.rel.ops|
            && y.post == x.post
    ensures Inv(Crossed(x, i)) && Ready(Crossed(x, i)) && Crossed(x, i).mode.applying && Crossed(x, i).mode.depth == 0
    ensures Onwards(x, Crossed(x, i))
    ensures Crossed(x, i).life.answered == x.life.answered + [Ask(x.rel.ops[i].sender, x.rel.ops[i].name,
              x.rel.ops[i].message)]
  {
    hide RelOk, Inv, Publishes, Onwards;
    ReplayingParts(x0, x, i);
    InvRegistered(x);
    InvAnswers(x);
    ReplayedFrame(x.rel, i);
    MembersBelow(x);
    CrossingOut(x.rel.ops, i);
    OnePublish(x.rel.ops[i]);
    Assoc3(x.life.answered, Publishes([x.rel.ops[i]]), Publishes(x.rel.ops[i := Done]));
    var y := Crossed(x, i);
    SwapKeeps(x, y.rel, y.life.answered);
    assert y == Swapped(x, y.rel, y.life.answered);
    OnwardsSelf(x, y);
    OnwardsTrans(x0, x, y);
  }

  lemma ReplayPublished(x0: Tree, x: Tree, y: Tree, z: Tree, i: nat)
    requires Replaying(x0, y, i + 1) && y.mode.applying && Inv(z) && Ready(z) && Calm(y, z) && Small(y, z)
    requires |y.rel.ops| == |x.rel.ops| && y.script == x.script && Onwards(x, y)
    ensures Onwards(x, z)
    ensures Replaying(x0, z, i + 1) && z.mode.applying && i + 1 <= |z.rel.ops|
    ensures |z.script| < |x.script| || (|z.script| == |x.script| && |z.rel.ops| == |x.rel.ops|)
  {
    hide Inv, Onwards, HeardOn;
    HeardMore(x0, y, z);
    assert forall k :: 0 <= k < i + 1 ==> z.rel.ops[k] == y.rel.ops[k];
    OnwardsTrans(x0, y, z);
    OnwardsTrans(x, y, z);
  }

  lemma ReplayEnds(x0: Tree, x: Tree, i: nat)
    requires Replaying(x0, x, i) && i >= |x.rel.ops|
    ensures var y := Cleared(x); Inv(y) && Ready(y) && Winding(x0, y) && y.rel.ops == []
    ensures x.life.asked == x.life.answered
  {
    hide RelOk, Inv, Publishes, Onwards;
    InvRegistered(x);
    InvAnswers(x);
    ClearedKeeps(x.rel);
    MembersBelow(x);
    DonePublishNothing(x.rel.ops);
    DonePublishNothing([]);
    var y := Cleared(x);
    SwapKeeps(x, y.rel, x.life.answered);
    assert y == Swapped(x, y.rel, x.life.answered);
    OnwardsSelf(x, y);
    OnwardsTrans(x0, x, y);
  }

  /** Destroying subscribers changes who there is, not what is going on. */
  ghost predicate Purged(a: Tree, b: Tree)
  {
    && b.mode == a.mode && b.script == a.script && b.rel.ops == a.rel.ops && b.post.outgoing == a.post.outgoing
    && (a.post.leaked ==> b.post.leaked) && b.rel.held.Keys <= a.rel.held.Keys
    && (forall s :: s in b.post.due ==> s in a.post.due && b.post.due[s] == a.post.due[s])
    && b.life.answered == a.life.answered && b.life.asked == a.life.asked && b.post.stoppers == a.post.stoppers
    && b.post.calls == a.post.calls
    && b.post.truncated == a.post.truncated && Onwards(a, b)
  }

  /** `gone` are in no topic any more, and topics without anyone else are gone. */
  ghost predicate Parted(r0: Rel, r: Rel, gone: set<SubId>)
  {
    && r.held == r0.held - gone && r.ops == r0.ops
    && (forall t :: t in r.members <==> t in r0.members && !(r0.members[t] <= gone))
    && (forall t :: t in r.members ==> r.members[t] == r0.members[t] - gone)
  }

  predicate Undelivered(x: Tree, gone: set<SubId>)
  {
    exists s :: s in gone && s in x.post.indices && |x.post.indices[s]| > 0
  }

  /** `gone` have left; for everyone else all is as it was. */
  ghost predicate Departed(a: Tree, b: Tree, gone: set<SubId>)
  {
    && Parted(a.rel, b.rel, gone) && b.mode == a.mode && b.script == a.script
    && b.post == a.post.(indices := a.post.indices - gone, received := a.post.received - gone,
                         due := a.post.due - gone, leaked := a.post.leaked || Undelivered(a, gone))
    && b.life == a.life.(doomed := a.life.doomed - gone, pendingFree := b.life.pendingFree)
  }

  lemma WithoutDoomed(a: Tree, b: Tree, gone: set<SubId>)
    requires Departed(a, b, gone)
    ensures b.life.doomed == a.life.doomed - gone
  {
    hide Parted;
  }

  lemma NobodyGone(x: Tree)
    requires Inv(x) && x.rel.ops == []
    ensures Departed(x, x, {})
  {
    hide Listed, Bounded, Delivering, Tidy, Shape, Flags, RelOk;
    RelParts(x.rel);
    forall t | t in x.rel.members ensures x.rel.members[t] != {} { TopicHasMember(x.rel, t); }
  }

  lemma TopicHasMember(r: Rel, t: TopicId)
    requires RelOk(r) && t in r.members && r.ops == []
    ensures r.members[t] != {}
  {
    assert Paired(r, t);
  }

  lemma OneMoreGone(a: Tree, b: Tree, c: Tree, gone: set<SubId>, s: SubId)
    requires Departed(a, b, gone) && Departed(b, c, {s})
    ensures Departed(a, c, gone + {s})
  {
    forall t ensures t in c.rel.members <==> t in a.rel.members && !(a.rel.members[t] <= gone + {s}) {
      if t in b.rel.members {
        assert b.rel.members[t] <= {s} <==> a.rel.members[t] <= gone + {s};
      }
    }
    assert a.post.indices - gone - {s} == a.post.indices - (gone + {s});
    assert a.post.received - gone - {s} == a.post.received - (gone + {s});
    assert a.post.due - gone - {s} == a.post.due - (gone + {s});
    assert a.rel.held - gone - {s} == a.rel.held - (gone + {s});
    if u :| u in gone + {s} && u in a.post.indices && |a.post.indices[u]| > 0 && u !in gone {
      assert u in b.post.indices;
    }
    assert a.life.doomed - gone - {s} == a.life.doomed - (gone + {s});
  }

  lemma GoneWithout(x: Tree, r: Rel, s: SubId)
    requires Inv(x) && x.rel.ops == [] && s in x.rel.held && RelOk(r) && Leaving(x.rel, r, s, {})
    requires Linked(x.links) && s in x.post.indices && (|x.post.indices[s]| > 0 ==> s in x.links.chain)
    ensures Departed(x, Gone(x.(rel := r), s), {s})
  {
    hide RelOk, Linked, Unlinked, Inv, Leaving;
    InvRegistered(x);
    LeftEverything(x.rel, r, s);
    forall t | t in x.rel.members ensures x.rel.members[t] <= {s} <==> x.rel.members[t] == {s} {
      TopicHasMember(x.rel, t);
    }
  }

  lemma PurgedSelf(x: Tree)
    ensures Purged(x, x)
  {
  }

  lemma PurgedTrans(a: Tree, b: Tree, c: Tree)
    requires Purged(a, b) && Purged(b, c)
    ensures Purged(a, c)
  {
    hide Onwards;
    OnwardsTrans(a, b, c);
  }

  lemma ApplyEnds(x0: Tree, y: Tree, z: Tree)
    requires Winding(x0, y) && Purged(y, z) && Heard(y, z) && Inv(z) && Ready(z) && z.rel.ops == []
    requires z.life.doomed == {}
    ensures var b := ApplyEnded(z); Inv(b) && Ready(b) && Applied(x0, b)
  {
    hide RelOk, Listed, Bounded, Delivering, HeardOn;
    HeardMore(x0, y, z);
    var b := ApplyEnded(z);
    BoundedSame(z, b);
    ListedMode(z, b);
  }

  lemma FirstDoomed(x: Tree)
    requires Inv(x) && x.life.pendingFree != []
    ensures x.life.pendingFree[0] in x.rel.held && x.life.pendingFree[0] in x.life.doomed
  {
    assert x.life.pendingFree[0] in x.life.pendingFree;
  }

  lemma NobodyDoomed(x: Tree)
    requires Inv(x) && x.life.pendingFree == []
    ensures x.life.doomed == {}
  {
    assert forall s :: s in x.life.doomed ==> s in x.life.pendingFree;
  }

  // ---------------------------------------------------------------- a subscriber goes

  /** `s` has left its topics, all but `todo`; those it was alone in are gone. */
  ghost predicate Leaving(r0: Rel, r: Rel, s: SubId, todo: set<TopicId>)
  {
    && s in r0.held && todo <= r0.held[s] && r.held == r0.held[s := todo] && r.ops == r0.ops
    && (forall t :: t in r.names ==> t in r0.names && r.names[t] == r0.names[t])
    && (forall t :: t in r.members ==> t in r0.members)
    && (forall t :: t in r0.members ==>
          if t in r0.held[s] - todo then
            (t in r.members <==> r0.members[t] != {s}) && (t in r.members ==> r.members[t] == r0.members[t] - {s})
          else t in r.members && r.members[t] == r0.members[t])
  }

  lemma LeavingStarts(r: Rel, s: SubId)
    requires s in r.held
    ensures Leaving(r, r, s, r.held[s])
  {
    assert r.held == r.held[s := r.held[s]];
  }

  lemma LeavingNext(r0: Rel, r: Rel, s: SubId, todo: set<TopicId>, t: TopicId)
    requires RelOk(r) && Leaving(r0, r, s, todo) && t in todo && r.ops == []
    ensures s in r.held && t in r.members && t in r.names && s in r.members[t] && t in r.held[s]
    ensures |r.members[t]| == 1 <==> r.members[t] == {s}
    ensures var r' := (if |r.members[t]| == 1 then Drop(r, t)
              else r.(members := r.members[t := r.members[t] - {s}])).(held := r.held[s := r.held[s] - {t}]);
            RelOk(r') && Leaving(r0, r', s, todo - {t})
  {
    hide RelOk;
    RelParts(r);
    assert s in r.held && r.held[s] == todo;
    AtRest(r, s, t);
    OnlyOne(r.members[t], s);
    LeaveKeeps(r, s, t);
    var l := Leave(r, s, t);
    assert !SubscribeQueued(r.ops, t);
    if r.members[t] == {s} {
      assert l.members[t] == {};
      assert Drop(l, t).members == r.members - {t};
    }
  }

  lemma OnlyOne(m: set<SubId>, s: SubId)
    requires s in m
    ensures |m| == 1 <==> m == {s}
    ensures m - {s} == {} <==> m == {s}
  {
    RemoveOne(m, s);
    assert m == (m - {s}) + {s};
  }

  /** Everywhere `s` was it is no more, and it is held nowhere. */
  ghost predicate WithoutSubscriber(r0: Rel, r: Rel, s: SubId)
  {
    && r.held == r0.held - {s} && r.ops == r0.ops
    && (forall t :: t in r.members <==> t in r0.members && r0.members[t] != {s})
    && (forall t :: t in r.members ==> r.members[t] == r0.members[t] - {s})
  }

  function ForgottenPost(p: Post, s: SubId): Post
  {
    p.(indices := p.indices - {s}, received := p.received - {s}, due := p.due - {s})
  }

  function ForgottenLife(l: Life, s: SubId): Life
  {
    l.(doomed := l.doomed - {s},
       pendingFree := if s in l.doomed then l.pendingFree[if |l.pendingFree| > 0 then 1 else 0..] else l.pendingFree)
  }

  /** `s` is out of the tree; `x.rel` has it hold nothing. */
  ghost function Gone(x: Tree, s: SubId): Tree
    requires s in x.post.indices && Linked(x.links) && (|x.post.indices[s]| > 0 ==> s in x.links.chain)
  {
    x.(rel := x.rel.(held := x.rel.held - {s}),
       links := if |x.post.indices[s]| > 0 then Unlinked(x.links, s) else x.links,
       post := ForgottenPost(x.post.(leaked := x.post.leaked || |x.post.indices[s]| > 0), s),
       life := ForgottenLife(x.life, s))
  }

  lemma ForgottenTwice(p: Post, s: SubId)
    requires s in p.indices
    ensures ForgottenPost(p.(indices := p.indices[s := []], leaked := p.leaked || |p.indices[s]| > 0), s) ==
            ForgottenPost(p.(leaked := p.leaked || |p.indices[s]| > 0), s)
  {
    assert p.indices[s := []] - {s} == p.indices - {s};
  }

  lemma LeftEverything(r0: Rel, r: Rel, s: SubId)
    requires RelOk(r0) && RelOk(r) && s in r0.held && Leaving(r0, r, s, {}) && r0.ops == []
    ensures var r' := r.(held := r.held - {s}); RelOk(r') && WithoutSubscriber(r0, r', s)
  {
    hide RelOk;
    GoneKeeps(r, s);
    forall t | t in r0.members
      ensures t !in r0.held[s] ==> s !in r0.members[t]
    {
      AtRest(r0, s, t);
    }
    assert r.held - {s} == r0.held - {s};
  }

  lemma GoneListed(x: Tree, s: SubId)
    requires Listed(x) && s in x.post.indices && !x.mode.sweeping && Linked(x.links)
    requires (|x.post.indices[s]| > 0 ==> s in x.links.chain)
    ensures Listed(Gone(x, s)) && forall u :: u in Gone(x, s).links.chain ==> u in x.links.chain && u != s
    ensures !Gone(x, s).post.leaked ==> Gone(x, s).links.chain == x.links.chain && x.post.indices[s] == []
  {
    hide Linked, Onward, Unlink;
    if |x.post.indices[s]| > 0 {
      UnlinkKeeps(x.links, Position(x.links.chain, s));
    }
  }

  lemma GoneDelivers(x: Tree, s: SubId)
    requires x.post.indices.Keys == x.post.received.Keys == x.post.due.Keys && Bounded(x) && Delivering(x)
    requires x.post.taker.None?
    requires s in x.post.indices && Linked(x.links) && (|x.post.indices[s]| > 0 ==> s in x.links.chain)
    ensures var y := Gone(x, s);
              y.post.indices.Keys == y.post.received.Keys == y.post.due.Keys && Bounded(y) && Delivering(y)
  {
    hide Linked, InOrder, Unlinked;
    var y := Gone(x, s);
    forall u | !x.post.truncated && u in y.post.due && u !in y.life.doomed && u !in y.post.stoppers
      ensures InOrder(y, u)
    {
      OrderStays(x, y, u);
    }
  }

  lemma GoneShape(x: Tree, r: Rel, s: SubId)
    requires Shape(x) && Flags(x) && Ready(x) && s in x.post.indices && x.rel.ops == []
    requires r.held.Keys == x.rel.held.Keys && r.ops == x.rel.ops && forall t :: t in r.members ==> t in x.rel.members
    requires s in x.life.doomed ==> x.life.pendingFree != [] && x.life.pendingFree[0] == s
    requires Linked(x.links) && (|x.post.indices[s]| > 0 ==> s in x.links.chain)
    requires forall u :: u in Gone(x.(rel := r), s).links.chain ==> u in x.links.chain && u != s
    ensures Shape(Gone(x.(rel := r), s)) && Flags(Gone(x.(rel := r), s))
  {
    hide Linked, Unlinked;
    var y := Gone(x.(rel := r), s);
    if s in x.life.doomed {
      var p := x.life.pendingFree;
      assert forall u :: u in p[1..] <==> u in p && u != s by {
        forall u
          ensures u in p[1..] <==> u in p && u != s
        {
          TailOf(p, u);
        }
      }
      assert Distinct(p[1..]);
    }
  }

  lemma TailOf(p: seq<SubId>, u: SubId)
    requires Distinct(p) && p != []
    ensures u in p[1..] <==> u in p && u != p[0]
  {
    if u in p && u != p[0] {
      var i :| 0 <= i < |p| && p[i] == u;
      assert p[1..][i - 1] == u;
    }
    if u in p[1..] {
      var i :| 0 <= i < |p[1..]| && p[1..][i] == u;
      assert p[i + 1] == u && p[0] != u;
    }
  }

  lemma GoneInv(x: Tree, r: Rel, s: SubId)
    requires Inv(x) && Ready(x) && x.rel.ops == [] && s in x.rel.held
    requires s in x.life.doomed ==> x.life.pendingFree != [] && x.life.pendingFree[0] == s
    requires RelOk(r) && Leaving(x.rel, r, s, {})
    ensures Linked(x.links) && s in x.post.indices && (|x.post.indices[s]| > 0 ==> s in x.links.chain)
    ensures Inv(Gone(x.(rel := r), s))
  {
    hide RelOk, Listed, Linked, Bounded, Delivering, Unlinked, WithoutSubscriber, Leaving, Tidy, Answering, Publishes;
    InvListed(x);
    var z := x.(rel := r);
    assert r.held.Keys == x.rel.held.Keys && r.ops == x.rel.ops && forall t :: t in r.members ==>
             t in x.rel.members by {
      LeavingFrame(x.rel, r, s);
    }
    LeftEverything(x.rel, r, s);
    SameQueues(x, z);
    GoneListed(z, s);
    GoneDelivers(z, s);
    GoneShape(x, r, s);
    GoneTidy(x, r, s);
  }

  lemma LeavingFrame(r0: Rel, r: Rel, s: SubId)
    requires Leaving(r0, r, s, {})
    ensures r.held.Keys == r0.held.Keys && r.ops == r0.ops && forall t :: t in r.members ==> t in r0.members
  {
  }

  lemma GoneTidy(x: Tree, r: Rel, s: SubId)
    requires Listed(x) && Tidy(x) && Answering(x) && x.post.taker.None? && r.ops == x.rel.ops && !x.mode.sweeping
    requires Linked(x.links) && s in x.post.indices && (|x.post.indices[s]| > 0 ==> s in x.links.chain)
    ensures Tidy(Gone(x.(rel := r), s)) && Answering(Gone(x.(rel := r), s))
  {
    hide Linked, Unlinked, Publishes, Listed;
  }

  lemma GoneFacts(x: Tree, r: Rel, s: SubId)
    requires Inv(x) && Ready(x) && x.rel.ops == [] && s in x.rel.held
    requires s in x.life.doomed ==> x.life.pendingFree != [] && x.life.pendingFree[0] == s
    requires RelOk(r) && Leaving(x.rel, r, s, {})
    requires Linked(x.links) && s in x.post.indices && (|x.post.indices[s]| > 0 ==> s in x.links.chain)
    ensures var y := Gone(x.(rel := r), s);
            && Ready(y) && Purged(x, y) && WithoutSubscriber(x.rel, y.rel, s) && y.rel.ops == []
            && (s in x.life.doomed ==> Heard(x, y))
            && y.life.pendingFree == (if s in x.life.doomed then x.life.pendingFree[1..] else x.life.pendingFree)
  {
    hide RelOk, Linked, Unlinked, Inv, WithoutSubscriber, HeardOn;
    InvRegistered(x);
    LeftEverything(x.rel, r, s);
    if s in x.life.doomed {
      OffTheList(x, s);
      HeardGone(HearingOf(x), s);
      assert HearingOf(Gone(x.(rel := r), s)).held == x.rel.held.Keys - {s};
    }
  }

  /** Whoever is freed may go. */
  lemma HeardGone(a: Hearing, s: SubId)
    requires s in a.doomed
    ensures HeardOn(a, a.(doomed := a.doomed - {s}, held := a.held - {s}))
  {
    hide StoppedOf;
  }

  lemma CalmApplying(x: Tree, y: Tree)
    requires Calm(x, y)
    ensures y.mode.applying == x.mode.applying && |y.script| <= |x.script|
    ensures (!y.post.leaked ==> |y.post.outgoing| <= UINT16_MAX) ==> Small(x, y)
  {
  }

  lemma CalmSelf(x: Tree)
    ensures Calm(x, x) && Small(x, x)
  {
  }

  lemma SweptParts(a: Tree, b: Tree)
    requires Swept(a, b)
    ensures Unwound(b) && b.mode.applying == a.mode.applying && b.post.outgoing == []
  {
  }

  lemma CalmSwept(a: Tree, b: Tree, c: Tree)
    requires Swept(a, b) && Calm(b, c) && Small(b, c)
    ensures Calm(a, c) && (!c.post.leaked ==> |c.post.outgoing| <= UINT16_MAX)
  {
    hide HeardOn;
    HeardMore(a, b, c);
    if a.mode.applying { SpentTrans(a, b, c); }
  }

  lemma NobodyListed(x: Tree)
    requires Inv(x) && Ready(x) && x.links.head.None?
    ensures !x.post.leaked ==> x.post.outgoing == []
  {
    HeadIsFirst(x.links);
  }

  lemma FannedParts(a: Tree, b: Tree, t: TopicId, sender: Option<SubId>, message: Payload, reached: set<SubId>)
    requires FannedOut(a, b, t, sender, message, reached) && Ready(a)
    ensures Unwound(b) && b.mode.applying == a.mode.applying
  {
  }

  lemma CalmFanned(x: Tree, y: Tree, z: Tree, c: Tree, t: TopicId, sender: Option<SubId>, message: Payload,
                   reached: set<SubId>)
    requires Calm(x, y) && FannedOut(y, z, t, sender, message, reached) && Calm(z, c) && Small(z, c)
    requires x.mode.applying && !y.post.leaked ==> |y.post.outgoing| < UINT16_MAX
    ensures Calm(x, c) && (x.mode.applying ==> Small(x, c))
  {
    hide HeardOn;
    HeardMore(x, y, z);
    HeardMore(x, z, c);
    if x.mode.applying {
      SpentTrans(x, y, z);
      SpentTrans(x, z, c);
    }
  }

  lemma OneDrainedParts(x: Tree, y: Tree, s: SubId)
    requires OneDrained(x, y, s) && Ready(x)
    ensures Unwound(y) && y.mode.applying == x.mode.applying
  {
  }

  lemma CalmDrained(x: Tree, y: Tree, c: Tree, s: SubId)
    requires OneDrained(x, y, s) && Calm(y, c)
    ensures Calm(x, c)
  {
    hide HeardOn;
    HeardMore(x, y, c);
    if x.mode.applying { SpentTrans(x, y, c); }
  }

  /** With nothing in flight every index has its message. */
  lemma AllFresh(x: Tree)
    requires Inv(x) && Ready(x)
    ensures (forall s :: Fresh(x.post, s)) && x.post.taker.None? && !x.mode.sweeping
  {
    hide RelOk, Listed, Delivering;
  }

  /** Between deliveries nothing waits, so every contract on changes is met. */
  lemma NothingQueued(x: Tree)
    requires Inv(x) && AtEase(x)
    ensures x.rel.ops == [] && x.life.doomed == {} && !x.mode.pending && Orderly(x)
  {
    hide RelOk, Listed, Bounded, Delivering;
  }

  /** Outside replay handlers may change any subscription: what is queued is about the topic being iterated. */
  lemma OutsideReplay(x: Tree, s: SubId, name: string)
    requires Orderly(x) && !x.mode.applying
    ensures ToggleAllowed(x.rel, x.mode.iterating, s, name)
  {
  }

  /** At rest: a subscriber is in a topic's set exactly when the topic is in the subscriber's set, no topic is empty,
    * and names lead to topics one to one. */
  lemma RestingRelation(x: Tree, s: SubId, t: TopicId)
    requires Inv(x) && AtEase(x) && s in x.rel.held && t in x.rel.members
    ensures (s in x.rel.members[t] <==> t in x.rel.held[s]) && x.rel.members[t] != {}
    ensures t in x.rel.names && x.rel.names[t] in x.rel.topics && x.rel.topics[x.rel.names[t]] == t
  {
    hide RelOk, Listed, Bounded, Delivering;
    NothingQueued(x);
    RelParts(x.rel);
    AtRest(x.rel, s, t);
  }

  /** First in, first out: what a subscriber was given is what was published to it so far, in order, up to the messages
    * its indices keep; with none kept, all of it.  This holds for subscribers that never cut a batch short, as long
    * as every index stored did fit sixteen bits. */
  lemma FirstInFirstOut(x: Tree, s: SubId)
    requires Inv(x) && Ready(x) && Alive(x, s) && s !in x.post.stoppers && !x.post.truncated
    ensures s in x.post.due && s in x.post.received && s in x.post.indices && |x.post.indices[s]| <= MAX_INDICES
    ensures forall i | 0 <= i < |x.post.indices[s]| :: x.post.indices[s][i] < |x.post.outgoing|
              && x.post.indices[s][i] <= UINT16_MAX
    ensures x.post.due[s] == x.post.received[s] + Pick(x.post.indices[s], x.post.outgoing)
    ensures x.post.indices[s] == [] ==> x.post.received[s] == x.post.due[s]
  {
    hide RelOk, Listed;
    assert InOrder(x, s);
    assert x.post.outgoing + [] == x.post.outgoing;
    forall i | 0 <= i < |x.post.indices[s]|
      ensures x.post.indices[s][i] < |x.post.outgoing| && x.post.indices[s][i] <= UINT16_MAX
    {
      assert x.post.indices[s][i] in x.post.indices[s];
    }
  }

  // ---------------------------------------------------------------- big messages

  function BigStarted(x: Tree, t: TopicId): Tree
  {
    x.(mode := x.mode.(depth := x.mode.depth + 1, iterating := Some(t)))
  }

  function BigEnded(x: Tree): Tree
  {
    x.(mode := x.mode.(iterating := None))
  }

  /** The socket of `s` has sent a message that was never stored. */
  function Handed(x: Tree, s: SubId, big: Payload): Tree
    requires s in x.post.received && s in x.post.due
  {
    x.(post := x.post.(received := x.post.received[s := x.post.received[s] + [big]], due :=
      x.post.due[s := x.post.due[s] + [big]]))
  }

  ghost predicate FanningBig(x0: Tree, x: Tree, t: TopicId, sender: Option<SubId>, big: Payload, todo: set<SubId>,
                             reached: set<SubId>)
  {
    && Inv(x) && BigFrame(x0, x, t)
    && todo <= x.rel.members[t] && reached <= x.rel.members[t] && reached !! todo
    && (forall s :: s in reached ==> Some(s) != sender)
    && (forall s :: s in x0.post.due ==>
      s in x.post.due && x.post.due[s] == x0.post.due[s] + (if s in reached then [big] else []))
    && (forall s :: s in reached ==> s in x.post.indices && x.post.indices[s] == [])
    && (forall s :: s in x.rel.members[t] && s !in todo && s !in reached && Some(s) != sender ==>
      s in x.life.doomed || LeftQueued(x.rel.ops, s, t))
  }

  ghost predicate BigFrame(x0: Tree, x: Tree, t: TopicId)
  {
    && Spent(x0, x) && Onwards(x0, x) && Orderly(x) && x.life.answered == x0.life.answered
    && (x0.post.leaked ==> x.post.leaked)
    && x.mode.depth == x0.mode.depth == 1 && x.mode.applying == x0.mode.applying && x.mode.iterating == Some(t)
    && !x.mode.sweeping
    && x.post.inFlight == [] && x.post.taker.None? && x.post.taking == []
    && t in x.rel.members && t in x0.rel.members && x.rel.members[t] == x0.rel.members[t]
    && x.post.due.Keys == x0.post.due.Keys && x.post.truncated == x0.post.truncated
  }

  lemma BigStarts(x: Tree, t: TopicId, sender: Option<SubId>, big: Payload)
    requires Inv(x) && Ready(x) && t in x.rel.members
    ensures var y := BigStarted(x, t); FanningBig(y, y, t, sender, big, y.rel.members[t], {})
  {
    hide RelOk, Listed, Bounded, Delivering;
    var y := BigStarted(x, t);
    BoundedSame(x, y);
    ListedMode(x, y);
    assert forall s :: s in y.post.due ==> y.post.due[s] == y.post.due[s] + [];
  }

  lemma BigParts(x0: Tree, x: Tree, t: TopicId, sender: Option<SubId>, big: Payload, todo: set<SubId>,
                 reached: set<SubId>)
    requires FanningBig(x0, x, t, sender, big, todo, reached)
    ensures Inv(x) && t in x.rel.members && todo <= x.rel.members[t] && x.mode.depth == 1
    ensures !x.mode.sweeping && x.post.taker.None? && x.post.taking == [] && x.post.inFlight == [] && Orderly(x)
    ensures forall s :: s in todo ==> s in x.post.indices && Fresh(x.post, s) && (s in x.rel.held)
  {
    hide RelOk, Listed, Delivering, Tidy;
    MembersLive(x, t);
  }

  lemma BigSkip(x0: Tree, x: Tree, t: TopicId, sender: Option<SubId>, big: Payload, todo: set<SubId>,
                reached: set<SubId>, s: SubId)
    requires FanningBig(x0, x, t, sender, big, todo, reached) && s in todo
    requires Some(s) == sender || s in x.life.doomed || s !in x.rel.held || t !in x.rel.held[s]
    ensures FanningBig(x0, x, t, sender, big, todo - {s}, reached)
  {
    hide Inv;
    InvRegistered(x);
    MembersLive(x, t);
    if Some(s) != sender && s !in x.life.doomed {
      hide RelOk;
      LeftIsQueued(x.rel, s, t);
    }
  }

  lemma BigDrain(x0: Tree, x: Tree, y: Tree, t: TopicId, sender: Option<SubId>, big: Payload, todo: set<SubId>,
                 reached: set<SubId>, s: SubId)
    requires FanningBig(x0, x, t, sender, big, todo, reached) && s in todo && Drained(x, y, s) && Inv(y)
    ensures FanningBig(x0, y, t, sender, big, todo, reached)
    ensures s in y.post.indices && y.post.indices[s] == [] && s in y.post.received && s in y.post.due
  {
    hide Inv, HeardOn;
    SpentTrans(x0, x, y);
    InvKeys(y);
    forall u | u in y.rel.members[t] && u !in todo && u !in reached && Some(u) != sender && u !in y.life.doomed
      ensures LeftQueued(y.rel.ops, u, t)
    {
      LeftStays(x.rel.ops, y.rel.ops, u, t);
    }
  }

  lemma InvKeys(x: Tree)
    requires Inv(x)
    ensures x.rel.held.Keys == x.post.indices.Keys == x.post.received.Keys == x.post.due.Keys
  {
  }

  lemma HandedKeeps(x: Tree, s: SubId, big: Payload)
    requires Inv(x) && s in x.post.indices && x.post.indices[s] == [] && x.post.taker.None?
    ensures s in x.post.received && s in x.post.due && Inv(Handed(x, s, big))
  {
    hide RelOk, Listed, InOrder;
    var y := Handed(x, s, big);
    ListedSame(x, y);
    forall u | !x.post.truncated && u in y.post.due && u !in y.life.doomed && u !in y.post.stoppers
      ensures InOrder(y, u)
    {
      assert InOrder(x, u);
      if u == s { OrderHanded(x, s, big); } else { OrderStays(x, y, u); }
    }
  }

  lemma OrderHanded(x: Tree, s: SubId, big: Payload)
    requires s in x.post.due && s in x.post.received && s in x.post.indices && InOrder(x, s)
    requires x.post.indices[s] == [] && x.post.taker.None?
    ensures InOrder(Handed(x, s, big), s)
  {
    assert Owed(x, s) == [] && Pick([], x.post.outgoing + x.post.inFlight) == [];
  }

  lemma BigHand(x0: Tree, x: Tree, t: TopicId, sender: Option<SubId>, big: Payload, todo: set<SubId>,
                reached: set<SubId>, s: SubId)
    requires FanningBig(x0, x, t, sender, big, todo, reached) && s in todo && Some(s) != sender
    requires s in x.post.indices && x.post.indices[s] == [] && s in x.post.received && s in x.post.due
    ensures FanningBig(x0, Handed(x, s, big), t, sender, big, todo - {s}, reached + {s})
  {
    hide Inv;
    HandedKeeps(x, s, big);
    var y := Handed(x, s, big);
    forall u | u in x0.post.due
      ensures y.post.due[u] == x0.post.due[u] + (if u in reached + {s} then [big] else [])
    {
      assert u == s ==> x.post.due[u] == x0.post.due[u] + [];
    }
  }

  /** `reached` are due the message, and have received it after everything that waited for them. */
  ghost predicate BigOut(a: Tree, b: Tree, t: TopicId, sender: Option<SubId>, big: Payload, reached: set<SubId>)
  {
    && t in a.rel.members && reached <= a.rel.members[t] && (forall s :: s in reached ==> Some(s) != sender)
    && (forall s :: s in a.post.due ==>
      s in b.post.due && b.post.due[s] == a.post.due[s] + (if s in reached then [big] else []))
    && (forall s :: s in a.rel.members[t] && s !in reached && Some(s) != sender ==>
      s in b.life.doomed || LeftQueued(b.rel.ops, s, t))
    && (forall s :: s in reached && s !in b.life.doomed && s !in b.post.stoppers && !b.post.truncated ==>
          s in b.post.due && s in b.post.received && b.post.received[s] == b.post.due[s])
    && a.post.due.Keys == b.post.due.Keys && Spent(a, b) && Onwards(a, b) && (a.post.leaked ==> b.post.leaked)
    && b.life.answered == a.life.answered && b.post.truncated == a.post.truncated
  }

  lemma BigEnds(a: Tree, x0: Tree, x: Tree, t: TopicId, sender: Option<SubId>, big: Payload, reached: set<SubId>)
    requires x0 == BigStarted(a, t) && t in a.rel.members && FanningBig(x0, x, t, sender, big, {}, reached)
    ensures var b := BigEnded(x);
              Inv(b) && Unwound(b) && b.mode.applying == a.mode.applying && BigOut(a, b, t, sender, big, reached)
  {
    hide RelOk, Listed, Bounded, Delivering, InOrder, Onwards, BigOut, HeardOn, Spent;
    var b := BigEnded(x);
    BoundedSame(x, b);
    ListedMode(x, b);
    BigOutBy(a, x0, x, t, sender, big, reached);
  }

  lemma BigOutBy(a: Tree, x0: Tree, x: Tree, t: TopicId, sender: Option<SubId>, big: Payload, reached: set<SubId>)
    requires x0 == BigStarted(a, t) && t in a.rel.members && FanningBig(x0, x, t, sender, big, {}, reached)
    ensures BigOut(a, BigEnded(x), t, sender, big, reached)
  {
    hide Inv, HeardOn;
    var b := BigEnded(x);
    forall s | s in reached && s !in b.life.doomed && s !in b.post.stoppers && !b.post.truncated
      ensures s in b.post.due && s in b.post.received && b.post.received[s] == b.post.due[s]
    {
      EverythingReceived(x, s);
    }
  }

  /** Who has no index left has received everything. */
  lemma EverythingReceived(x: Tree, s: SubId)
    requires Inv(x) && s in x.post.indices && x.post.indices[s] == [] && x.post.taker.None?
    requires s !in x.life.doomed && s !in x.post.stoppers && !x.post.truncated
    ensures s in x.post.due && s in x.post.received && x.post.received[s] == x.post.due[s]
  {
    hide RelOk, Listed, Bounded, InOrder, Tidy, Flags;
    assert InOrder(x, s);
    AllReceived(x, s);
  }

  lemma AllReceived(x: Tree, s: SubId)
    requires s in x.post.due && s in x.post.received && s in x.post.indices && InOrder(x, s)
    requires x.post.indices[s] == [] && x.post.taker.None?
    ensures x.post.received[s] == x.post.due[s]
  {
    assert Owed(x, s) == [] && Pick([], x.post.outgoing + x.post.inFlight) == [];
  }

  lemma UnwoundDepth(x: Tree)
    requires Unwound(x)
    ensures x.mode.depth == 1
  {
  }
}
