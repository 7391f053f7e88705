/** Runs of the publish/subscribe tree: any calls, in any order, with handlers that react to what they are given. */
module TopicTreeRuns {
  import opened Bytes
  import opened TopicRelation
  import opened IntrusiveList
  import opened TopicTreeState
  import opened TopicTreeStory
  import opened TopicTreeSolo
  import opened TopicTreeChain
  import opened Class = TopicTree

  // ---------------------------------------------------------------- what a run is

  datatype Call =
    | Create
    | Subscribe(s: SubId, name: string)
    | Unsubscribe(s: SubId, name: string)
    | Publish(ask: Ask)
    | PublishBig(ask: Ask)
    | Drain(s: SubId)
    | DrainEveryone
    | Free(s: SubId)

  /** What was handed out during a call; `own` of it for the call itself, the rest for calls of handlers. */
  datatype Part = Part(hs: seq<Handout>, own: Option<nat>)

  const QUIET := Part([], None)

  /** The hand-outs of a call made between deliveries, and the tree it leaves. */
  ghost predicate Ran(x: Tree, call: Call, p: Part, y: Tree)
  {
    match call
    case Create => p == QUIET && y == Created(x)
    case Subscribe(s, name) =>
      p == QUIET && if s in x.rel.held && Registered(x.rel) then y == Subscribed(x, s, name) else y == x
    case Unsubscribe(s, name) =>
      p == QUIET && if s in x.rel.held && Registered(x.rel) then y == Unsubscribed(x, s, name) else y == x
    case Publish(ask) => p.own.Some? && PublishChain(x, y, p.hs, p.own.value, ask)
    case PublishBig(ask) =>
      if ask.name in x.rel.topics then p.own == Some(0) && BigChain(x, y, p.hs, ask) else p == QUIET && y == x
    case Drain(s) =>
      p.own.None? && if s in x.post.indices then DrainChain(x, y, s, p.hs) else p == QUIET && y == x
    case DrainEveryone => p.own.None? && AllDrained(x, y, p.hs)
    case Free(s) => p == QUIET && if s in x.rel.held then Departed(x, y, {s}) else y == x
  }

  /** The trees between the calls, and what was handed out. */
  ghost predicate Run(script: seq<Reaction>, calls: seq<Call>, trees: seq<Tree>, parts: seq<Part>)
  {
    && |trees| == |calls| + 1 && |parts| == |calls| && trees[0] == Empty(script)
    && (forall i: nat | i <= |calls| :: Inv(trees[i]) && AtEase(trees[i]))
    && forall i: nat | i < |calls| :: Ran(trees[i], calls[i], parts[i], trees[i + 1])
  }

  /** The call comes to a call of `publish` that loses the topic it has looked up. */
  ghost predicate Loses(x: Tree, call: Call)
  {
    match call
    case Publish(ask) => PublishLoses(x, ask)
    case PublishBig(ask) => BigLoses(x, ask)
    case Drain(s) => DrainLoses(x, s)
    case DrainEveryone => DrainAllLoses(x)
    case _ => false
  }

  /** The calls of the run that come before the first such call, and that call. */
  ghost predicate RunLoses(script: seq<Reaction>, calls: seq<Call>, trees: seq<Tree>, parts: seq<Part>, k: nat)
  {
    && k < |calls| && k < |trees| && k <= |parts|
    && Run(script, calls[..k], trees[..k + 1], parts[..k]) && Loses(trees[k], calls[k])
  }

  /** Everything handed out, in order. */
  function Hands(parts: seq<Part>): seq<Handout>
  {
    if parts == [] then [] else Hands(parts[..|parts| - 1]) + parts[|parts| - 1].hs
  }

  /** What of it answers calls of handlers. */
  function Replays(parts: seq<Part>): seq<Handout>
  {
    if parts == [] then [] else Replays(parts[..|parts| - 1]) + Replayed(parts[|parts| - 1])
  }

  function Replayed(p: Part): seq<Handout>
  {
    if p.own.Some? && p.own.value < |p.hs| then p.hs[..p.own.value] + p.hs[p.own.value + 1..] else p.hs
  }

  ghost predicate FreeIn(calls: seq<Call>)
  {
    exists c :: c in calls && c.Free?
  }

  /** Without what calls of `freeSubscriber` change. */
  function Hush(h: Hearing, freed: bool): Hearing
  {
    h.(doomed := {}, held := {}, leaked := h.leaked && !freed)
  }

  /** What can be said of the tree after a run. */
  ghost predicate Accounts(script: seq<Reaction>, calls: seq<Call>, parts: seq<Part>, y: Tree)
  {
    && (forall h :: h in Hands(parts) ==> HandoutOk(h))
    && (forall s :: s in y.post.due ==> y.post.due[s] == GivenBy(Hands(parts), s))
    && ReachedBelow(Hands(parts), y.life.nextId)
    && y.life.answered == Asks(Replays(parts)) && (y.post.truncated ==> CutIn(Hands(parts)))
    && HeardOn(HearingOf(Empty(script)), Hush(HearingOf(y), FreeIn(calls)))
  }

  // ---------------------------------------------------------------- what every run comes to

  lemma HandsMore(parts: seq<Part>, p: Part)
    ensures Hands(parts + [p]) == Hands(parts) + p.hs && Replays(parts + [p]) == Replays(parts) + Replayed(p)
  {
    assert (parts + [p])[..|parts|] == parts;
  }

  lemma FreeMore(calls: seq<Call>, call: Call)
    ensures FreeIn(calls + [call]) <==> FreeIn(calls) || call.Free?
  {
    assert call in calls + [call];
    assert forall c :: c in calls + [call] <==> c in calls || c == call;
  }

  lemma HushSum(a: Hearing, b: Hearing, freed: bool)
    requires HeardOn(a, b)
    ensures HeardOn(Hush(a, freed), Hush(b, freed))
  {
    hide Frees, Rest, StoppedOf;
  }

  /** Hand-outs that are chained, and those they answer. */
  lemma AccountsOn(script: seq<Reaction>, calls: seq<Call>, parts: seq<Part>, x: Tree, call: Call, p: Part, y: Tree)
    requires Accounts(script, calls, parts, x) && !call.Free? && Sum(x, y, p.hs)
    requires y.life.answered == x.life.answered + Asks(Replayed(p))
    ensures Accounts(script, calls + [call], parts + [p], y)
  {
    hide Hands, Replays, Replayed, FreeIn, Hush, HeardOn, CutIn, HandoutOk, GivenBy, Asks;
    HandsMore(parts, p);
    FreeMore(calls, call);
    CutInMore(Hands(parts), p.hs);
    HushSum(HearingOf(x), HearingOf(y), FreeIn(calls));
    HeardTrans(HearingOf(Empty(script)), Hush(HearingOf(x), FreeIn(calls)), Hush(HearingOf(y), FreeIn(calls)));
    forall s | s in y.post.due ensures y.post.due[s] == GivenBy(Hands(parts) + p.hs, s) {
      GivenByConcat(Hands(parts), p.hs, s);
    }
  }

  /** A call that hands out nothing. */
  lemma AccountsQuiet(script: seq<Reaction>, calls: seq<Call>, parts: seq<Part>, x: Tree, call: Call, y: Tree)
    requires Accounts(script, calls, parts, x) && !call.Free? && Sum(x, y, []) && y.life.answered == x.life.answered
    ensures Accounts(script, calls + [call], parts + [QUIET], y)
  {
    hide Accounts, Sum;
    assert Replayed(QUIET) == [] && Asks([]) == [] && x.life.answered + [] == x.life.answered;
    AccountsOn(script, calls, parts, x, call, QUIET, y);
  }

  lemma {:induction false} NotReached(hs: seq<Handout>, s: SubId)
    requires forall h :: h in hs ==> s !in h.reached
    ensures GivenBy(hs, s) == []
    decreases |hs|
  {
    if hs != [] {
      NotReached(hs[..|hs| - 1], s);
    }
  }

  lemma AccountsCreate(script: seq<Reaction>, calls: seq<Call>, parts: seq<Part>, x: Tree)
    requires Accounts(script, calls, parts, x)
    ensures Accounts(script, calls + [Create], parts + [QUIET], Created(x))
  {
    hide Hands, Replays, FreeIn, HeardOn, CutIn, HandoutOk, GivenBy, Asks;
    HandsMore(parts, QUIET);
    FreeMore(calls, Create);
    NotReached(Hands(parts), x.life.nextId);
    assert Hands(parts) + [] == Hands(parts) && Replays(parts) + [] == Replays(parts);
    assert Hush(HearingOf(Created(x)), FreeIn(calls)) == Hush(HearingOf(x), FreeIn(calls));
  }

  lemma AccountsFree(script: seq<Reaction>, calls: seq<Call>, parts: seq<Part>, x: Tree, s: SubId, y: Tree)
    requires Accounts(script, calls, parts, x) && (y == x || Departed(x, y, {s}))
    ensures Accounts(script, calls + [Free(s)], parts + [QUIET], y)
  {
    hide Hands, Replays, FreeIn, CutIn, HandoutOk, GivenBy, Asks, Parted, Undelivered, Frees, Rest, StoppedOf;
    HandsMore(parts, QUIET);
    FreeMore(calls, Free(s));
    assert Hands(parts) + [] == Hands(parts) && Replays(parts) + [] == Replays(parts);
  }

  lemma AccountsNext(script: seq<Reaction>, calls: seq<Call>, parts: seq<Part>, x: Tree, call: Call, p: Part, y: Tree)
    requires Accounts(script, calls, parts, x) && Ran(x, call, p, y)
    ensures Accounts(script, calls + [call], parts + [p], y)
  {
    hide Accounts, Sum, Asks, PublishChain, BigChain, DrainChain, AllDrained, SubscribedRel, UnsubscribedRel, Departed;
    match call {
      case Create => AccountsCreate(script, calls, parts, x);
      case Free(s) => AccountsFree(script, calls, parts, x, s, y);
      case Publish(ask) =>
        PublishSum(x, y, p.hs, p.own.value, ask);
        PublishAnswers(x, y, p.hs, p.own.value, ask);
        ChainAsk(x, y, p.hs, p.own.value, ask);
        AccountsOn(script, calls, parts, x, call, p, y);
      case PublishBig(ask) =>
        if ask.name in x.rel.topics {
          BigSum(x, y, p.hs, ask);
          BigAnswers(x, y, p.hs, ask);
          BigAsk(x, y, p.hs, ask);
          assert p.hs[..0] + p.hs[1..] == p.hs[1..];
          AccountsOn(script, calls, parts, x, call, p, y);
        } else {
          SameSum(x, y);
          AccountsQuiet(script, calls, parts, x, call, y);
        }
      case Drain(s) =>
        if s in x.post.indices {
          DrainSum(x, y, s, p.hs);
          DrainAnswers(x, y, s, p.hs);
          AccountsOn(script, calls, parts, x, call, p, y);
        } else {
          SameSum(x, y);
          AccountsQuiet(script, calls, parts, x, call, y);
        }
      case DrainEveryone =>
        RoomSum(x, y, p.hs);
        RoomAnswers(x, y, p.hs);
        AccountsOn(script, calls, parts, x, call, p, y);
      case Subscribe(s, name) =>
        SubscribedSum(x, s, name, y);
        AccountsQuiet(script, calls, parts, x, call, y);
      case Unsubscribe(s, name) =>
        UnsubscribedSum(x, s, name, y);
        AccountsQuiet(script, calls, parts, x, call, y);
    }
  }

  lemma BigAsk(a: Tree, b: Tree, hs: seq<Handout>, ask: Ask)
    requires BigChain(a, b, hs, ask)
    ensures 0 < |hs| && hs[0].ask == ask && hs[0].big
  {
    hide HandoutOk, Wound;
  }

  lemma SubscribedSum(x: Tree, s: SubId, name: string, y: Tree)
    requires if s in x.rel.held && Registered(x.rel) then y == Subscribed(x, s, name) else y == x
    ensures Sum(x, y, []) && y.life.answered == x.life.answered
  {
    hide Sum;
    SameSum(x, y);
  }

  lemma UnsubscribedSum(x: Tree, s: SubId, name: string, y: Tree)
    requires if s in x.rel.held && Registered(x.rel) then y == Unsubscribed(x, s, name) else y == x
    ensures Sum(x, y, []) && y.life.answered == x.life.answered
  {
    hide Sum;
    SameSum(x, y);
  }

  lemma RunLess(script: seq<Reaction>, calls: seq<Call>, trees: seq<Tree>, parts: seq<Part>)
    requires Run(script, calls, trees, parts) && calls != []
    ensures var n := |calls| - 1;
            && Run(script, calls[..n], trees[..n + 1], parts[..n]) && trees[..n + 1][n] == trees[n]
            && Ran(trees[n], calls[n], parts[n], trees[n + 1])
            && calls == calls[..n] + [calls[n]] && parts == parts[..n] + [parts[n]]
  {
    hide Ran, Inv, AtEase, Empty;
    var n := |calls| - 1;
    var c, t, p := calls[..n], trees[..n + 1], parts[..n];
    forall i: nat | i < n ensures Ran(t[i], c[i], p[i], t[i + 1]) {
      assert Ran(trees[i], calls[i], parts[i], trees[i + 1]);
    }
    forall i: nat | i <= n ensures Inv(t[i]) && AtEase(t[i]) {
      assert t[i] == trees[i];
    }
  }

  lemma RunStarts(script: seq<Reaction>)
    ensures Accounts(script, [], [], Empty(script))
  {
    hide StoppedOf;
    assert Asks([]) == [];
  }

  lemma {:induction false} RunAccounts(script: seq<Reaction>, calls: seq<Call>, trees: seq<Tree>, parts: seq<Part>)
    requires Run(script, calls, trees, parts)
    ensures Accounts(script, calls, parts, trees[|calls|])
    decreases |calls|
  {
    hide Accounts, Ran, Inv;
    if calls == [] {
      RunStarts(script);
      assert parts == [];
    } else {
      var n := |calls| - 1;
      RunLess(script, calls, trees, parts);
      RunAccounts(script, calls[..n], trees[..n + 1], parts[..n]);
      AccountsNext(script, calls[..n], parts[..n], trees[n], calls[n], parts[n], trees[n + 1]);
    }
  }

  /** After any run: what handlers published has been handed out, each call once and in the order of the calls; and
    * whoever has not stopped a batch of its own has received, or has waiting, just what was handed out to it, in this
    * order.  That fails only if an index was cut, in a hand-out that met more than 65535 messages, for which someone
    * must have been freed. */
  ghost predicate InOrderFor(script: seq<Reaction>, calls: seq<Call>, parts: seq<Part>, y: Tree)
  {
    && y.life.asked == Asks(Replays(parts))
    && (forall s :: s in y.rel.held && !StoppedOf(y.post.calls, 0, s) && !y.post.truncated ==>
          && s in y.post.received && s in y.post.indices
          && GivenBy(Hands(parts), s) == y.post.received[s] + Pick(y.post.indices[s], y.post.outgoing))
    && (y.post.truncated ==> CutIn(Hands(parts)) && (FreeIn(calls) || Frees(script, |script|) != {}))
    && (forall k | 0 <= k < |y.post.calls| :: y.post.calls[k].stop == StopsAt(script, k))
  }

  /** What the source does otherwise.  A change that is noted the source makes, and breaks the relation with it; so from
    * the first one on the run is not one of the source.  If no handler subscribes anyone or has anyone leave, there is
    * none. */
  ghost predicate NotedFor(script: seq<Reaction>, y: Tree)
  {
    && (forall k | 0 <= k < |y.life.missed| :: Breaks(y.life.missed[k]))
    && (y.life.missed != [] ==> Toggles(script, |script|))
  }

  lemma RunDelivers(script: seq<Reaction>, calls: seq<Call>, trees: seq<Tree>, parts: seq<Part>)
    requires Run(script, calls, trees, parts)
    ensures InOrderFor(script, calls, parts, trees[|calls|]) && NotedFor(script, trees[|calls|])
  {
    hide Hands, Replays, CutIn, HandoutOk, GivenBy, Asks, Inv, Ran, StoppedOf, Frees, Rest, Toggles, Breaks;
    RunAccounts(script, calls, trees, parts);
    var y := trees[|calls|];
    assert Inv(y) && AtEase(y);
    EverythingAnswered(y);
    RunHeard(script, calls, y);
    NothingWaits(y);
    InvKeys(y);
    forall s | s in y.rel.held && !StoppedOf(y.post.calls, 0, s) && !y.post.truncated
      ensures GivenBy(Hands(parts), s) == y.post.received[s] + Pick(y.post.indices[s], y.post.outgoing)
    {
      FirstInFirstOut(y, s);
    }
    if y.post.truncated { CutLeaks(y); }
  }

  lemma CutLeaks(y: Tree)
    requires Inv(y) && y.post.truncated
    ensures y.post.leaked
  {
    hide RelOk, Listed, Bounded, Delivering;
  }

  /** What the handlers called have to do with it. */
  lemma RunHeard(script: seq<Reaction>, calls: seq<Call>, y: Tree)
    requires HeardOn(HearingOf(Empty(script)), Hush(HearingOf(y), FreeIn(calls)))
    ensures forall k | 0 <= k < |y.post.calls| :: y.post.calls[k].stop == StopsAt(script, k)
    ensures forall s :: s in y.post.stoppers ==> StoppedOf(y.post.calls, 0, s)
    ensures y.post.leaked ==> FreeIn(calls) || Frees(script, |script|) != {}
    ensures NotedFor(script, y)
  {
    hide Frees, Rest, StoppedOf, FreeIn, Toggles, Breaks;
    FreesAll(script, |y.post.calls|);
  }

  // ---------------------------------------------------------------- a run

  lemma QuietAnswers(x: Tree)
    requires Inv(x) && AtEase(x)
    ensures Registered(x.rel) && x.rel.ops == [] && x.life.doomed == {} && x.mode.iterating.None?
    ensures forall s, name :: ToggleAllowed(x.rel, x.mode.iterating, s, name)
    ensures x.rel.held.Keys == x.post.indices.Keys
  {
    hide Inv;
    InvRegistered(x);
    NothingWaits(x);
    InvKeys(x);
  }

  method Toggle(tree: TopicTree, call: Call)
    requires Inv(tree.Now()) && AtEase(tree.Now()) && (call.Subscribe? || call.Unsubscribe?)
    modifies tree
    ensures Inv(tree.Now()) && AtEase(tree.Now()) && tree.fault == old(tree.fault)
    ensures Ran(old(tree.Now()), call, QUIET, tree.Now())
  {
    hide Inv, Registered, ToggleAllowed, SubscribedRel, UnsubscribedRel;
    QuietAnswers(tree.Now());
    match call {
      case Subscribe(s, name) =>
        if s in tree.held {
          var _ := tree.Subscribe(s, name);
        }
      case Unsubscribe(s, name) =>
        if s in tree.held {
          var _, _, _ := tree.Unsubscribe(s, name);
        }
    }
  }

  /** One call; those of someone who is not there are not made. */
  method Make(tree: TopicTree, call: Call) returns (ghost p: Part)
    requires Inv(tree.Now()) && AtEase(tree.Now())
    modifies tree
    ensures Inv(tree.Now()) && AtEase(tree.Now()) && Blamed(old(tree.fault), tree.fault, old(tree.Now()), tree.Now())
    ensures |tree.script| <= |old(tree.script)|
    ensures tree.fault && !old(tree.fault) ==> Loses(old(tree.Now()), call)
    ensures tree.fault || Ran(old(tree.Now()), call, p, tree.Now())
  {
    hide Inv, PublishChain, BigChain, DrainChain, AllDrained, Registered, Departed, Calm, Published, Told, SolosDone,
      Served, EveryoneServed, PublishLoses, BigLoses, DrainLoses, DrainAllLoses;
    ghost var x := tree.Now();
    QuietAnswers(x);
    p := QUIET;
    match call {
      case Create => var _ := tree.CreateSubscriber();
      case Subscribe(_, _) => Toggle(tree, call);
      case Unsubscribe(_, _) => Toggle(tree, call);
      case Publish(ask) =>
        var _, hs, own, _ := tree.Publish(ask.sender, ask.name, ask.message);
        CalmApplying(x, tree.Now());
        p := Part(hs, Some(own));
      case PublishBig(ask) =>
        var ok, hs := tree.PublishBig(ask.sender, ask.name, ask.message);
        p := if ok then Part(hs, Some(0)) else QUIET;
      case Drain(s) =>
        if s in tree.indices {
          ghost var hs := tree.Drain(s);
          CalmApplying(x, tree.Now());
          p := Part(hs, None);
        }
      case DrainEveryone =>
        ghost var hs := tree.DrainAll();
        CalmApplying(x, tree.Now());
        p := Part(hs, None);
      case Free(s) =>
        if s in tree.held {
          tree.FreeSubscriber(s);
        }
    }
  }

  lemma RunMore(script: seq<Reaction>, calls: seq<Call>, trees: seq<Tree>, parts: seq<Part>, call: Call, p: Part,
                y: Tree)
    requires Run(script, calls, trees, parts) && Ran(trees[|calls|], call, p, y) && Inv(y) && AtEase(y)
    ensures Run(script, calls + [call], trees + [y], parts + [p])
  {
    hide Ran, Inv, AtEase, Empty;
    var c, t, q := calls + [call], trees + [y], parts + [p];
    forall i: nat | i < |c| ensures Ran(t[i], c[i], q[i], t[i + 1]) {
      if i < |calls| {
        assert Ran(trees[i], calls[i], parts[i], trees[i + 1]);
      }
    }
    forall i: nat | i <= |c| ensures Inv(t[i]) && AtEase(t[i]) {
      if i <= |calls| { assert t[i] == trees[i]; }
    }
  }

  /** Any calls, in any order, from an empty tree on.  The run is one of those above, and comes to what they come to,
    * unless a topic is erased under a call of `publish`, for which a handler must have reacted; up to there it is.  It
    * is a run of the source unless a change was noted (`NotedFor`). */
  method Play(script: seq<Reaction>, calls: seq<Call>)
    returns (tree: TopicTree, ghost trees: seq<Tree>, ghost parts: seq<Part>, ghost lost: nat)
    ensures fresh(tree) && Inv(tree.Now()) && AtEase(tree.Now())
    ensures forall s, t :: s in tree.held && t in tree.members ==>
              (s in tree.members[t] <==> t in tree.held[s]) && tree.members[t] != {}
    ensures tree.fault ==> |tree.script| < |script| && RunLoses(script, calls, trees, parts, lost)
    ensures tree.fault || (Run(script, calls, trees, parts) && trees[|calls|] == tree.Now())
    ensures tree.fault || (InOrderFor(script, calls, parts, tree.Now()) && NotedFor(script, tree.Now()))
  {
    hide Inv, AtEase, Ran, InOrderFor, NotedFor, Loses;
    tree := new TopicTree(script);
    trees, parts, lost := [tree.Now()], [], 0;
    assert calls[..0] == [] && calls[..|calls|] == calls;
    for i := 0 to |calls|
      invariant fresh(tree) && Inv(tree.Now()) && AtEase(tree.Now()) && |trees| == i + 1
      invariant |tree.script| <= |script| && (tree.fault ==> |tree.script| < |script|)
      invariant tree.fault || (Run(script, calls[..i], trees, parts) && trees[i] == tree.Now())
      invariant |parts| == i && (tree.fault ==> RunLoses(script, calls, trees, parts, lost) && lost < i)
    {
      ghost var was := tree.fault;
      ghost var p := Make(tree, calls[i]);
      assert calls[..i + 1] == calls[..i] + [calls[i]];
      if !tree.fault {
        RunMore(script, calls[..i], trees, parts, calls[i], p, tree.Now());
      } else {
        lost := if was then lost else i;
        assert (trees + [tree.Now()])[..lost + 1] == trees[..lost + 1] && (parts + [p])[..lost] == parts[..lost];
        assert !was ==> trees[..i + 1] == trees && parts[..i] == parts;
      }
      trees, parts := trees + [tree.Now()], parts + [p];
    }
    if !tree.fault {
      RunDelivers(script, calls, trees, parts);
    }
    forall s, t | s in tree.held && t in tree.members
      ensures (s in tree.members[t] <==> t in tree.held[s]) && tree.members[t] != {}
    {
      RestingRelation(tree.Now(), s, t);
    }
  }

  // ---------------------------------------------------------------- a run in which an index is cut

  /** Nobody is there, and `n` messages are stored for nobody. */
  ghost predicate Spare(x: Tree, first: Payload, n: nat)
  {
    && Inv(x) && AtEase(x) && x.script == [] && !x.post.truncated && x.rel.held == map[]
    && |x.post.outgoing| == n > 0 && x.post.outgoing[0] == first
  }

  /** Just `s` is there, in one topic, with `batch` waiting. */
  ghost predicate Alone(x: Tree, s: SubId, first: Payload, n: nat, due: seq<Payload>, batch: seq<nat>)
  {
    && Inv(x) && AtEase(x) && x.script == [] && x.rel.held.Keys == {s}
    && x.post.indices == map[s := batch] && x.post.received == map[s := []] && x.post.due == map[s := due]
    && |x.post.outgoing| == n > 0 && x.post.outgoing[0] == first
  }

  ghost predicate InTopic(x: Tree, s: SubId, name: string)
  {
    name in x.rel.topics && x.rel.topics[name] in x.rel.members && x.rel.members[x.rel.topics[name]] == {s}
  }

  lemma SpareIsEmpty(x: Tree, first: Payload, n: nat)
    requires Spare(x, first, n)
    ensures x.rel.topics == map[] && x.rel.members == map[] && HasRoom(x) && x.links.chain == [] && Registered(x.rel)
    ensures x.post.indices == map[] && x.post.received == map[] && x.post.due == map[] && x.life.doomed == {}
    ensures x.rel.ops == [] && x.mode.iterating.None?
  {
    hide Inv;
    InvRegistered(x);
    InvListed(x);
    InvKeys(x);
    NothingWaits(x);
    HeadIsFirst(x.links);
    ChainHeld(x);
    forall t | t in x.rel.members ensures false {
      MembersLive(x, t);
      TopicHasMember(x.rel, t);
    }
  }

  lemma ChainHeld(x: Tree)
    requires Inv(x)
    ensures forall s :: s in x.links.chain ==> s in x.rel.held
    ensures x.links.chain != [] ==> x.links.chain[0] in x.rel.held
  {
    hide RelOk, Listed, Bounded, Delivering, Tidy;
    if x.links.chain != [] {
      assert x.links.chain[0] in x.links.chain;
    }
  }

  lemma Arrives(x: Tree, name: string, first: Payload, n: nat)
    requires Spare(x, first, n)
    ensures var c, s := Created(x), x.life.nextId;
            && Inv(c) && Registered(c.rel) && Alive(c, s) && ToggleAllowed(c.rel, c.mode.iterating, s, name)
            && var y := Subscribed(c, s, name);
               (Inv(y) ==> Alone(y, s, first, n, [], []) && InTopic(y, s, name) && HasRoom(y) && !y.post.truncated)
  {
    hide Inv;
    CreatedKeeps(x);
    InvRegistered(Created(x));
    SpareIsEmpty(x, first, n);
  }

  method Arrive(tree: TopicTree, name: string, ghost first: Payload, ghost n: nat) returns (s: SubId)
    requires Spare(tree.Now(), first, n)
    modifies tree
    ensures var y := tree.Now();
            Alone(y, s, first, n, [], []) && InTopic(y, s, name) && HasRoom(y) && !y.post.truncated
  {
    hide Inv, Registered, Alive, ToggleAllowed, Subscribed, Created, InTopic, Alone, HasRoom;
    Arrives(tree.Now(), name, first, n);
    s := tree.CreateSubscriber();
    var _ := tree.Subscribe(s, name);
  }

  /** The message is stored at the end; its index is cut to sixteen bits. */
  lemma Stores(x: Tree, s: SubId, name: string, message: Payload, first: Payload, n: nat, b: Tree)
    requires Alone(x, s, first, n, [], []) && InTopic(x, s, name) && HasRoom(x) && !x.post.truncated
    requires SolosDone(x, b, Ask(None, name, message)) && Inv(b)
    ensures Alone(b, s, first, n + 1, [message], [n % 65536]) && (b.post.truncated <==> n > UINT16_MAX)
  {
    hide Inv, Solo, FannedSolo;
    var ask := Ask(None, name, message);
    NothingWaits(x);
    SoloAtEase(x, s, ask);
    SoloStores(x, s, ask);
    SoloExactly(x, s, ask);
    assert SoloDone(x, b, s, ask);
    assert [] + [n % 65536] == [n % 65536] && [] + [message] == [message];
  }

  method Store(tree: TopicTree, s: SubId, name: string, message: Payload, ghost first: Payload, ghost n: nat)
    requires var x := tree.Now();
             Alone(x, s, first, n, [], []) && InTopic(x, s, name) && HasRoom(x) && !x.post.truncated
    modifies tree
    ensures var y := tree.Now();
            Alone(y, s, first, n + 1, [message], [n % 65536]) && (y.post.truncated <==> n > UINT16_MAX)
  {
    hide Inv, SolosDone, HasRoom, InTopic;
    ghost var x := tree.Now();
    PublishAt(tree, x, name, message);
    Stores(x, s, name, message, first, n, tree.Now());
  }

  lemma Leaves(x: Tree, s: SubId, first: Payload, n: nat, y: Tree)
    requires Inv(x) && AtEase(x) && x.script == [] && !x.post.truncated && x.rel.held.Keys == {s}
    requires |x.post.outgoing| == n > 0 && x.post.outgoing[0] == first
    requires Departed(x, y, {s}) && Inv(y)
    ensures Spare(y, first, n)
  {
    hide Inv;
  }

  method Leave(tree: TopicTree, s: SubId, ghost first: Payload, ghost n: nat)
    requires var x := tree.Now();
             && Inv(x) && AtEase(x) && x.script == [] && !x.post.truncated && x.rel.held.Keys == {s}
             && |x.post.outgoing| == n > 0 && x.post.outgoing[0] == first
    modifies tree
    ensures Spare(tree.Now(), first, n)
  {
    hide Inv, Departed, Purged, Spare;
    ghost var x := tree.Now();
    QuietAnswers(x);
    tree.FreeSubscriber(s);
    Leaves(x, s, first, n, tree.Now());
  }

  /** Two subscribers leave with the vector full of messages that neither has been given. */
  method Abandon(first: Payload) returns (tree: TopicTree)
    ensures fresh(tree) && Spare(tree.Now(), first, UINT16_MAX)
  {
    hide Inv, Departed, Purged, Spare, Busy;
    tree := FillUp(first);
    ghost var x := tree.Now();
    QuietAnswers(x);
    Untruncated(x);
    assert tree.outgoingMessages[0] in tree.outgoingMessages;
    assert x.rel.held == Busy().rel.held;
    tree.FreeSubscriber(0);
    OneLeaves(x, tree.Now());
    Leave(tree, 1, first, UINT16_MAX);
  }

  lemma Untruncated(x: Tree)
    requires Inv(x) && !x.post.leaked
    ensures !x.post.truncated
  {
    hide RelOk, Listed, Bounded, Delivering;
  }

  lemma OneLeaves(x: Tree, y: Tree)
    requires x.rel.held == map[0 := {2}, 1 := {3}] && Departed(x, y, {0}) && AtEase(x)
    ensures AtEase(y) && y.script == x.script && y.post.truncated == x.post.truncated
    ensures y.post.outgoing == x.post.outgoing && y.rel.held.Keys == {1}
  {
  }

  /** Whoever is called next is given the first message there is. */
  lemma SweepGives(x: Tree, s: SubId, first: Payload, n: nat, due: seq<Payload>)
    requires Alone(x.(script := []), s, first, n, due, [0]) && x.script == [Reaction([], false)] && Inv(x)
    ensures Ready(x) && x.links.head.Some?
    ensures s in SweepReacted(x).post.received && SweepReacted(x).post.received[s] == [first]
  {
    hide Inv, ActedAll, FirstReacted, Orderly, Taken;
    OnTheList(x, s);
    SweepReactedIs(x);
    SweepFirst(x);
    var g := FirstFinds(SweepStarted(x), s);
    assert [] + [first] == [first];
  }

  lemma OnTheList(x: Tree, s: SubId)
    requires Inv(x) && AtEase(x) && x.rel.held.Keys == {s} && s in x.post.indices && x.post.indices[s] != []
    ensures x.links.head == Some(s)
  {
    hide RelOk, Bounded, Delivering, Tidy, Linked;
    HeadIs(x.links);
    assert s in x.links.chain;
    assert x.links.chain[0] in x.links.chain;
  }

  /** Nobody is freed by a handler that does nothing. */
  lemma StaysThere(x: Tree, y: Tree, s: SubId)
    requires Heard(x, y) && x.script == [Reaction([], false)] && x.life.doomed == {} && s in x.rel.held
    ensures s in y.rel.held
  {
    hide StoppedOf;
    assert x.script[1..] == [];
    assert Frees(x.script, |y.post.calls| - |x.post.calls|) == {};
  }

  /** From an empty tree, with nothing but calls, to one that has 65536 messages stored which nobody is left to be
    * given.  The next message is stored behind them under index 0, so that its only reader, who stops nothing, is
    * given the first of the others. */
  method MeetCut(first: Payload, late: Payload) returns (tree: TopicTree, s: SubId, ghost due: seq<Payload>)
    ensures due == [late] && s in tree.received && [first] <= tree.received[s]
  {
    hide Inv, Spare, Alone, InTopic, HasRoom, Purged, Departed, Onwards, SweepReacted, Calm, Told, EveryoneServed;
    tree := Abandon(first);
    var u := Arrive(tree, "early", first, UINT16_MAX);
    Store(tree, u, "early", first, first, UINT16_MAX);
    AloneParts(tree.Now(), u, first, UINT16_MAX + 1, [first], [UINT16_MAX]);
    Leave(tree, u, first, UINT16_MAX + 1);
    s := Arrive(tree, "late", first, UINT16_MAX + 1);
    Store(tree, s, "late", late, first, UINT16_MAX + 1);
    ghost var was := tree.Now();
    AloneParts(was, s, first, UINT16_MAX + 2, [late], [0]);
    due := tree.due[s];
    tree.script := [Reaction([], false)];
    ghost var x := tree.Now();
    ScriptFree(was, x.script);
    assert x == was.(script := x.script) && x.(script := []) == was;
    SweepGives(x, s, first, UINT16_MAX + 2, [late]);
    ghost var _ := tree.DrainAll();
    CutGiven(x, tree.Now(), s, first);
  }

  lemma AloneParts(x: Tree, s: SubId, first: Payload, n: nat, due: seq<Payload>, batch: seq<nat>)
    requires Alone(x, s, first, n, due, batch)
    ensures Inv(x) && AtEase(x) && x.script == [] && x.rel.held.Keys == {s} && s in x.post.due && x.post.due[s] == due
    ensures |x.post.outgoing| == n > 0 && x.post.outgoing[0] == first
  {
    hide Inv;
  }

  lemma CutGiven(x: Tree, y: Tree, s: SubId, first: Payload)
    requires Inv(x) && Ready(x) && x.links.head.Some? && x.script == [Reaction([], false)] && AtEase(x)
    requires s in SweepReacted(x).post.received && SweepReacted(x).post.received[s] == [first]
    requires Onwards(SweepReacted(x), y) && Calm(x, y) && Inv(y) && s in x.rel.held
    ensures s in y.post.received && [first] <= y.post.received[s]
  {
    hide Inv, SweepReacted, HeardOn;
    NothingWaits(x);
    StaysThere(x, y, s);
    InvKeys(y);
  }
}
