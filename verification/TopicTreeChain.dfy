/** How the hand-outs of a call follow from one another: each begins with the tree the run has come to, and the run
  * goes on with the tree it leaves.  What lies between two of them is given in full, so that no queued call can be
  * passed over or answered by a hand-out that is not one of the run. */
module TopicTreeChain {
  import opened Bytes
  import opened TopicRelation
  import opened TopicTreeState
  import opened TopicTreeStory

  /** Handlers were called for one batch after the other, of those that waited in `x`. */
  ghost predicate Batched(x: Tree, y: Tree, trees: seq<Tree>, subs: seq<SubId>)
  {
    && |trees| == |subs| + 1 && SameGiven(x, trees[0]) && SameGiven(trees[|subs|], y)
    && forall i: nat | i < |subs| :: OneOfBatches(x, trees[i], subs[i], trees[i + 1])
  }

  ghost predicate SameGiven(x: Tree, y: Tree)
  {
    y.post.calls == x.post.calls && y.post.received == x.post.received
  }

  ghost predicate OneOfBatches(x: Tree, y: Tree, s: SubId, z: Tree)
  {
    && s in x.post.indices && s in y.post.indices && y.post.outgoing == x.post.outgoing
    && (y.post.indices[s] == x.post.indices[s] || y.post.indices[s] == []) && BatchGiven(y, s, z)
  }

  /** `drain` of everyone, before `leaveDraining`. */
  ghost predicate Sweeps(x: Tree, y: Tree)
  {
    Swept(x, y) && exists trees, subs :: Batched(x, y, trees, subs)
  }

  /** The drain of everyone before a call of `publish` for which there is no room, inside a replay. */
  ghost predicate RoomNow(x: Tree, w: Tree)
  {
    if HasRoom(x) then w == x
    else exists m: Tree :: Sweeps(x, m) && m.mode.depth > 0 && w == Shallower(m)
  }

  /** `h` is the hand-out of its call, made in `x`, to the topic its name led to. */
  ghost predicate OwnHandout(x: Tree, h: Handout)
  {
    && !h.big && HandoutOk(h) && h.ask.name in x.rel.topics && h.ask.name in h.before.rel.topics
    && h.before.rel.topics[h.ask.name] == x.rel.topics[h.ask.name]
  }

  /** A replayed call of `publish`, from `y` to `z`. */
  ghost predicate Answers(y: Tree, h: Handout, z: Tree)
  {
    if h.ask.name !in y.rel.topics then h == Handout(y, y, h.ask, {}, false) && z == y && HandoutOk(h)
    else OwnHandout(y, h) && RoomNow(y, h.before) && h.after.mode.depth > 0 && z == Shallower(h.after)
  }

  /** What the replay makes of the `k`th entry of the queue: a call of `publish` is answered by its own hand-out, and
    * any other change is made. */
  ghost predicate ReplayStep(x: Tree, k: nat, step: Option<Handout>, z: Tree)
  {
    && k < |x.rel.ops|
    && var op := x.rel.ops[k];
       if op.PublishOp? then
         step.Some? && step.value.ask == Ask(op.sender, op.name, op.message) && Answers(Crossed(x, k), step.value, z)
       else
         && step == None && (op.Touches() ==> op.t in x.rel.members && op.t in x.rel.names)
         && z == ReplayedTree(x, k)
  }

  /** The trees a replay goes through, and what it hands out on the way. */
  ghost predicate Trail(x: Tree, trail: seq<Tree>, steps: seq<Option<Handout>>)
  {
    && |trail| == |steps| + 1 && trail[0] == x
    && forall k: nat | k < |steps| :: ReplayStep(trail[k], k, steps[k], trail[k + 1])
  }

  function HandedOut(steps: seq<Option<Handout>>): seq<Handout>
  {
    if steps == [] then [] else
      var last := steps[|steps| - 1];
      HandedOut(steps[..|steps| - 1]) + if last.Some? then [last.value] else []
  }

  /** The whole queue is replayed, entry after entry; then it is emptied and the freed are destroyed. */
  ghost predicate ReplayOf(x: Tree, y: Tree, hs: seq<Handout>, trail: seq<Tree>, steps: seq<Option<Handout>>, p: Tree)
  {
    && Trail(x, trail, steps) && |steps| >= |trail[|steps|].rel.ops| && hs == HandedOut(steps)
    && Departed(Cleared(trail[|steps|]), p, trail[|steps|].life.doomed) && Heard(Cleared(trail[|steps|]), p)
    && y == ApplyEnded(p)
  }

  ghost predicate ReplayRan(x: Tree, y: Tree, hs: seq<Handout>)
  {
    exists trail, steps, p :: ReplayOf(x, y, hs, trail, steps, p)
  }

  /** `leaveDraining`: from `x` to `y`, handing out `hs`. */
  ghost predicate Wound(x: Tree, y: Tree, hs: seq<Handout>)
  {
    && x.mode.depth > 0
    && if !x.mode.pending || x.mode.applying then y == Shallower(x) && hs == []
       else ReplayRan(ApplyStarted(x), y, hs)
  }

  /** `drain` of everyone. */
  ghost predicate AllDrained(x: Tree, y: Tree, hs: seq<Handout>)
  {
    if x.links.head.None? then y == x && hs == []
    else exists m: Tree :: Sweeps(x, m) && Wound(m, y, hs)
  }

  /** What a call of `publish` does first. */
  ghost predicate RoomMade(x: Tree, y: Tree, hs: seq<Handout>)
  {
    if HasRoom(x) then y == x && hs == [] else AllDrained(x, y, hs)
  }

  /** `publish` between deliveries: room is made, the message handed out, and what was queued meanwhile replayed. */
  ghost predicate PublishChain(a: Tree, b: Tree, hs: seq<Handout>, own: nat, ask: Ask)
  {
    && own < |hs| && hs[own].ask == ask
    && if ask.name !in a.rel.topics then hs == [Handout(a, a, ask, {}, false)] && b == a && HandoutOk(hs[0])
       else
         && OwnHandout(a, hs[own]) && RoomMade(a, hs[own].before, hs[..own])
         && Wound(hs[own].after, b, hs[own + 1..])
  }

  /** `drain` of one subscriber. */
  ghost predicate DrainChain(a: Tree, b: Tree, s: SubId, hs: seq<Handout>)
    requires s in a.post.indices
  {
    if a.post.indices[s] == [] then b == a && hs == []
    else exists m: Tree :: OneDrained(a, m, s) && BatchGiven(a, s, m) && Wound(m, b, hs)
  }

  /** `publishBig` */
  ghost predicate BigChain(a: Tree, b: Tree, hs: seq<Handout>, ask: Ask)
  {
    && 0 < |hs| && hs[0].big && hs[0].ask == ask && hs[0].before == a && HandoutOk(hs[0])
    && Wound(hs[0].after, b, hs[1..])
  }

  // ---------------------------------------------------------------- a topic erased under the call that looked it up

  /** Everyone is drained in `x`, and with that `t` goes. */
  ghost predicate LosesTopic(x: Tree, t: TopicId)
  {
    !HasRoom(x) && exists y: Tree, hs: seq<Handout> :: AllDrained(x, y, hs) && t !in y.rel.members
  }

  /** A replayed call of `publish` loses its topic. */
  ghost predicate LostAt(x: Tree, trail: seq<Tree>, steps: seq<Option<Handout>>)
  {
    && Trail(x, trail, steps)
    && var y, k := trail[|steps|], |steps|;
       && k < |y.rel.ops| && y.rel.ops[k].PublishOp? && y.rel.ops[k].name in y.rel.topics
       && LosesTopic(Crossed(y, k), y.rel.topics[y.rel.ops[k].name])
  }

  ghost predicate ReplayLoses(x: Tree)
  {
    exists trail, steps :: LostAt(x, trail, steps)
  }

  /** `leaveDraining` comes to such a call. */
  ghost predicate WoundLoses(x: Tree)
  {
    x.mode.depth > 0 && x.mode.pending && !x.mode.applying && ReplayLoses(ApplyStarted(x))
  }

  ghost predicate DrainAllLoses(x: Tree)
  {
    x.links.head.Some? && exists m: Tree :: Sweeps(x, m) && WoundLoses(m)
  }

  ghost predicate DrainLoses(x: Tree, s: SubId)
  {
    exists m: Tree :: OneDrained(x, m, s) && WoundLoses(m)
  }

  /** `publish` comes to one: itself, behind the drain for room, or behind its own delivery. */
  ghost predicate PublishLoses(x: Tree, ask: Ask)
  {
    && ask.name in x.rel.topics
    && (LosesTopic(x, x.rel.topics[ask.name]) || (!HasRoom(x) && DrainAllLoses(x))
        || exists hs, h: Handout ::
             h.ask == ask && OwnHandout(x, h) && RoomMade(x, h.before, hs) && WoundLoses(h.after))
  }

  ghost predicate BigLoses(x: Tree, ask: Ask)
  {
    exists h: Handout :: h.big && h.ask == ask && h.before == x && HandoutOk(h) && WoundLoses(h.after)
  }

  lemma WoundLosesBy(x: Tree)
    requires x.mode.depth > 0 && x.mode.pending && !x.mode.applying && ReplayLoses(ApplyStarted(x))
    ensures WoundLoses(x)
  {
    hide ReplayLoses;
  }

  lemma DrainAllLosesBy(x: Tree, m: Tree)
    requires x.links.head.Some? && Sweeps(x, m) && WoundLoses(m)
    ensures DrainAllLoses(x)
  {
    hide Sweeps, WoundLoses;
  }

  lemma DrainLosesBy(x: Tree, m: Tree, s: SubId)
    requires OneDrained(x, m, s) && WoundLoses(m)
    ensures DrainLoses(x, s)
  {
    hide OneDrained, WoundLoses;
  }

  lemma LosesTopicBy(x: Tree, y: Tree, hs: seq<Handout>, t: TopicId)
    requires !HasRoom(x) && AllDrained(x, y, hs) && t !in y.rel.members
    ensures LosesTopic(x, t)
  {
    hide AllDrained;
  }

  lemma OwnLosesBy(x: Tree, hs: seq<Handout>, h: Handout, t: TopicId)
    requires Inv(x) && Inv(h.before) && Inv(h.after) && Calm(x, h.before) && !h.big && h.ask.name in x.rel.topics
    requires x.rel.topics[h.ask.name] == t && t in x.rel.members && t in h.before.rel.members
    requires FannedOut(h.before, h.after, t, h.ask.sender, h.ask.message, h.reached)
    requires RoomMade(x, h.before, hs) && WoundLoses(h.after)
    ensures PublishLoses(x, h.ask)
  {
    hide Inv, Calm, FannedOut, RoomMade, WoundLoses, HandoutOk, OwnHandout, LosesTopic, DrainAllLoses;
    FannedHandout(x, h, t);
    OwnBy(x, h);
  }

  lemma RoomLosesBy(x: Tree, ask: Ask)
    requires ask.name in x.rel.topics
    requires LosesTopic(x, x.rel.topics[ask.name]) || (!HasRoom(x) && DrainAllLoses(x))
    ensures PublishLoses(x, ask)
  {
    hide LosesTopic, DrainAllLoses;
  }

  lemma BigLosesBy(h: Handout)
    requires h.big && HandoutOk(h) && WoundLoses(h.after)
    ensures BigLoses(h.before, h.ask)
  {
    hide HandoutOk, WoundLoses;
  }

  /** Inside a replay it can only be the call itself. */
  lemma LosesInReplay(x: Tree, ask: Ask)
    requires PublishLoses(x, ask) && x.mode.applying
    ensures LosesTopic(x, x.rel.topics[ask.name])
  {
    hide LosesTopic, Spent, Onwards, ReplayLoses, ReplayRan, Inv, HeardOn;
  }

  /** Or nothing was lost at all. */
  lemma ReplayLost(was: bool, before: bool, now: bool, x0: Tree, trail: seq<Tree>, steps: seq<Option<Handout>>,
                   ask: Ask)
    requires |trail| == |steps| + 1 && |steps| < |trail[|steps|].rel.ops| && trail[|steps|].mode.applying
    requires var op := trail[|steps|].rel.ops[|steps|]; op.PublishOp? && ask == Ask(op.sender, op.name, op.message)
    requires before || Trail(x0, trail, steps)
    requires before && !was ==> ReplayLoses(x0)
    requires now && !before ==> PublishLoses(Crossed(trail[|steps|], |steps|), ask)
    ensures now && !was ==> before || ReplayLoses(x0)
  {
    hide Trail, ReplayLoses, PublishLoses, Crossed;
    if now && !before {
      ReplayLosesBy(x0, trail, steps, ask);
    }
  }

  lemma ReplayLosesBy(x0: Tree, trail: seq<Tree>, steps: seq<Option<Handout>>, ask: Ask)
    requires Trail(x0, trail, steps) && |trail| == |steps| + 1 && |steps| < |trail[|steps|].rel.ops|
    requires var op := trail[|steps|].rel.ops[|steps|]; op.PublishOp? && ask == Ask(op.sender, op.name, op.message)
    requires trail[|steps|].mode.applying && PublishLoses(Crossed(trail[|steps|], |steps|), ask)
    ensures ReplayLoses(x0)
  {
    hide Trail, LosesTopic, DrainAllLoses, OwnHandout, RoomMade, WoundLoses, Publishes;
    LosesInReplay(Crossed(trail[|steps|], |steps|), ask);
    assert LostAt(x0, trail, steps);
  }

  // ---------------------------------------------------------------- building the chain

  lemma BatchedMore(x: Tree, y: Tree, z: Tree, w: Tree, trees: seq<Tree>, subs: seq<SubId>, s: SubId)
    requires Batched(x, y, trees, subs) && OneOfBatches(x, y, s, z) && SameGiven(z, w)
    ensures Batched(x, w, trees[..|subs|] + [y, z], subs + [s])
  {
    hide BatchGiven;
    var t, u := trees[..|subs|] + [y, z], subs + [s];
    forall i: nat | i < |u| ensures OneOfBatches(x, t[i], u[i], t[i + 1]) {
      if i + 1 < |subs| {
        assert OneOfBatches(x, trees[i], subs[i], trees[i + 1]);
      } else if i < |subs| {
        assert OneOfBatches(x, trees[i], subs[i], trees[i + 1]);
        BatchGivenSame(trees[i], subs[i], trees[i + 1], trees[i], y);
      }
    }
  }

  lemma BatchesStart(x: Tree)
    ensures Batched(x, SweepStarted(x), [x], [])
  {
  }

  /** The next batch of a sweep. */
  lemma BatchesGoOn(start: Tree, x0: Tree, x: Tree, z: Tree, s: Option<SubId>, pos: nat, trees: seq<Tree>,
                    subs: seq<SubId>)
    requires Batched(start, x, trees, subs) && x0 == SweepStarted(start) && x.post.outgoing == start.post.outgoing
    requires s.Some? && s.value in x.post.indices && Sweeping(x0, x, s, pos) && BatchGiven(x, s.value, z)
    requires Unclaimed(Taken(x, s.value), z)
    ensures |trees| == |subs| + 1 && Batched(start, Forgotten(z), trees[..|subs|] + [x, z], subs + [s.value])
    ensures z.post.outgoing == start.post.outgoing
  {
    hide BatchGiven, Inv, Spent, Onwards, Orderly;
    BatchedMore(start, x, z, Forgotten(z), trees, subs, s.value);
  }

  lemma SweepEndedSame(z: Tree)
    ensures SameGiven(z, SweepEnded(z))
  {
  }

  lemma SweepsBy(x: Tree, y: Tree, z: Tree, trees: seq<Tree>, subs: seq<SubId>)
    requires Swept(x, z) && Batched(x, y, trees, subs) && SameGiven(y, z)
    ensures Sweeps(x, z)
  {
    hide Swept, OneOfBatches;
    assert Batched(x, z, trees, subs);
  }

  lemma TrailStarts(x: Tree)
    ensures Trail(x, [x], []) && HandedOut([]) == []
  {
  }

  lemma TrailMore(x: Tree, trail: seq<Tree>, steps: seq<Option<Handout>>, step: Option<Handout>, z: Tree)
    requires Trail(x, trail, steps) && ReplayStep(trail[|steps|], |steps|, step, z)
    ensures Trail(x, trail + [z], steps + [step])
    ensures HandedOut(steps + [step]) == HandedOut(steps) + if step.Some? then [step.value] else []
  {
    hide ReplayStep, HandedOut;
    HandedMore(steps, step);
    var t, u := trail + [z], steps + [step];
    forall k: nat | k < |u|
      ensures ReplayStep(t[k], k, u[k], t[k + 1])
    {
      if k < |steps| {
        assert ReplayStep(trail[k], k, steps[k], trail[k + 1]);
      }
    }
  }

  lemma HandedMore(steps: seq<Option<Handout>>, step: Option<Handout>)
    ensures HandedOut(steps + [step]) == HandedOut(steps) + if step.Some? then [step.value] else []
  {
    assert (steps + [step])[..|steps|] == steps;
  }

  lemma WoundRests(x: Tree)
    requires x.mode.depth > 0 && (!x.mode.pending || x.mode.applying)
    ensures Wound(x, Shallower(x), [])
  {
  }

  lemma WoundReplays(x: Tree, y: Tree, hs: seq<Handout>)
    requires x.mode.depth > 0 && x.mode.pending && !x.mode.applying && ReplayRan(ApplyStarted(x), y, hs)
    ensures Wound(x, y, hs)
  {
    hide ReplayRan;
  }

  lemma DrainedBoth(x: Tree, m: Tree, y: Tree, hs: seq<Handout>)
    requires x.links.head.Some? && Sweeps(x, m) && Wound(m, y, hs)
    ensures AllDrained(x, y, hs)
  {
    hide Sweeps, Wound;
  }

  lemma ChainOfPublish(a: Tree, y: Tree, b: Tree, hs: seq<Handout>, h: Handout, more: seq<Handout>)
    requires OwnHandout(a, h) && RoomMade(a, h.before, hs) && Wound(h.after, b, more)
    ensures PublishChain(a, b, hs + [h] + more, |hs|, h.ask)
  {
    hide OwnHandout, RoomMade, Wound;
    var all := hs + [h] + more;
    assert all[..|hs|] == hs && all[|hs|] == h && all[|hs| + 1..] == more;
    assert h.ask.name in a.rel.topics by { OwnTopic(a, h); }
  }

  /** What a call of `publish` has to show for itself. */
  lemma PublishStory(a: Tree, b: Tree, hs: seq<Handout>, h: Handout, more: seq<Handout>, t: TopicId)
    requires Inv(a) && Inv(h.before) && Inv(h.after) && Calm(a, h.before) && !h.big && h.ask.name in a.rel.topics
    requires a.rel.topics[h.ask.name] == t && t in a.rel.members && t in h.before.rel.members
    requires FannedOut(h.before, h.after, t, h.ask.sender, h.ask.message, h.reached)
    requires Told(a, h.before, hs) && RoomMade(a, h.before, hs) && Told(h.after, b, more) && Wound(h.after, b, more)
    requires h.after.life.answered == h.before.life.answered
    requires |h.before.script| <= |a.script| && |b.script| <= |h.after.script| && Onwards(h.after, b) && Rests(h, b)
    requires a.mode.applying ==> hs == [] && more == []
    requires HasRoom(a) ==> hs == [] && h.before == a
    ensures Published(a, b, hs + [h] + more, |hs|, h.ask) && PublishChain(a, b, hs + [h] + more, |hs|, h.ask)
  {
    hide Inv, Calm, FannedOut, Told, RoomMade, Wound, Onwards, Rests, HandoutOk, Published, PublishChain, OwnHandout;
    FannedHandout(a, h, t);
    PublishedBy(a, h.before, h.after, b, hs, h, more);
    OwnBy(a, h);
    ChainOfPublish(a, h.before, b, hs, h, more);
  }

  lemma ChainToNobody(a: Tree, ask: Ask)
    requires Inv(a) && ask.name !in a.rel.topics
    ensures PublishChain(a, a, [Handout(a, a, ask, {}, false)], 0, ask)
  {
    hide Inv;
  }

  lemma OwnTopic(x: Tree, h: Handout)
    requires OwnHandout(x, h)
    ensures h.ask.name in x.rel.topics
  {
    hide HandoutOk;
  }

  /** Inside a replay a call of `publish` is answered by one hand-out. */
  lemma ChainInReplay(y: Tree, z: Tree, hs: seq<Handout>, own: nat, ask: Ask)
    requires PublishChain(y, z, hs, own, ask) && y.mode.applying && |hs| == 1
    ensures Answers(y, hs[0], z)
  {
    hide HandoutOk, ReplayRan, Spent, Onwards;
    assert own == 0 && hs[..0] == [] && hs[1..] == [];
    if ask.name in y.rel.topics {
      OwnApplying(y, hs[0]);
    }
  }

  lemma OwnApplying(y: Tree, h: Handout)
    requires OwnHandout(y, h) && RoomMade(y, h.before, []) && y.mode.applying
    ensures RoomNow(y, h.before) && h.after.mode.applying
  {
    hide Spent, Onwards, Inv, ReplayRan;
  }

  lemma NobodyDrained(x: Tree)
    ensures x.links.head.None? ==> AllDrained(x, x, [])
  {
  }

  lemma OwnBy(x: Tree, h: Handout)
    requires !h.big && HandoutOk(h) && h.ask.name in x.rel.topics && h.ask.name in h.before.rel.topics
    requires h.before.rel.topics[h.ask.name] == x.rel.topics[h.ask.name]
    ensures OwnHandout(x, h)
  {
    hide HandoutOk;
  }

  lemma ChangeStep(x: Tree, k: nat)
    requires k < |x.rel.ops| && !x.rel.ops[k].PublishOp?
    requires x.rel.ops[k].Touches() ==> x.rel.ops[k].t in x.rel.members && x.rel.ops[k].t in x.rel.names
    ensures ReplayStep(x, k, None, ReplayedTree(x, k))
  {
  }

  lemma CallStep(x: Tree, y: Tree, z: Tree, k: nat, one: seq<Handout>, own: nat)
    requires k < |x.rel.ops| && x.rel.ops[k].PublishOp? && y == Crossed(x, k) && y.mode.applying && |one| == 1
    requires PublishChain(y, z, one, own, Ask(x.rel.ops[k].sender, x.rel.ops[k].name, x.rel.ops[k].message))
    ensures ReplayStep(x, k, Some(one[0]), z)
  {
    hide Answers;
    ChainInReplay(y, z, one, own, Ask(x.rel.ops[k].sender, x.rel.ops[k].name, x.rel.ops[k].message));
    ChainAsk(y, z, one, own, Ask(x.rel.ops[k].sender, x.rel.ops[k].name, x.rel.ops[k].message));
  }

  lemma ChainAsk(y: Tree, z: Tree, hs: seq<Handout>, own: nat, ask: Ask)
    requires PublishChain(y, z, hs, own, ask)
    ensures own < |hs| && hs[own].ask == ask
  {
    hide OwnHandout, RoomMade, Wound;
  }

  lemma TrailOn(fault: bool, x0: Tree, trail: seq<Tree>, steps: seq<Option<Handout>>, x: Tree, step: Option<Handout>,
                z: Tree)
    requires |trail| == |steps| + 1 && trail[|steps|] == x
    requires fault || (Trail(x0, trail, steps) && ReplayStep(x, |steps|, step, z))
    ensures fault || Trail(x0, trail + [z], steps + [step])
    ensures HandedOut(steps + [step]) == HandedOut(steps) + if step.Some? then [step.value] else []
  {
    hide ReplayStep, HandedOut, Trail;
    HandedMore(steps, step);
    if !fault { TrailMore(x0, trail, steps, step, z); }
  }

  lemma TrailEnds(x0: Tree, y: Tree, hs: seq<Handout>, trail: seq<Tree>, steps: seq<Option<Handout>>, p: Tree)
    requires Trail(x0, trail, steps) && hs == HandedOut(steps) && |trail| == |steps| + 1
    requires |steps| >= |trail[|steps|].rel.ops|
    requires Departed(Cleared(trail[|steps|]), p, trail[|steps|].life.doomed) && Heard(Cleared(trail[|steps|]), p)
    requires y == ApplyEnded(p)
    ensures ReplayRan(x0, y, hs)
  {
    hide Trail, HandedOut, Onwards;
    assert ReplayOf(x0, y, hs, trail, steps, p);
  }

  // ---------------------------------------------------------------- what a replay comes to

  /** A step of the replay answers the call it crosses out, and no other. */
  lemma StepAnswers(x: Tree, k: nat, step: Option<Handout>, z: Tree)
    requires ReplayStep(x, k, step, z)
    ensures z.life.answered == x.life.answered + if step.Some? then [step.value.ask] else []
  {
    hide Spent, Onwards, Inv, Publishes, ReplayedRel;
    OnePublish(x.rel.ops[k]);
    assert x.life.answered + [] == x.life.answered;
  }

  lemma {:induction false} TrailAnswers(x: Tree, trail: seq<Tree>, steps: seq<Option<Handout>>)
    requires Trail(x, trail, steps)
    ensures trail[|steps|].life.answered == x.life.answered + Asks(HandedOut(steps))
    decreases |steps|
  {
    hide ReplayStep, Asks;
    if steps == [] {
      assert Asks([]) == [];
    } else {
      var n := |steps| - 1;
      TrailLess(x, trail, steps);
      TrailAnswers(x, trail[..n + 1], steps[..n]);
      StepAnswers(trail[n], n, steps[n], trail[n + 1]);
      var last := if steps[n].Some? then [steps[n].value] else [];
      assert Asks(last) == if steps[n].Some? then [steps[n].value.ask] else [];
      Assoc3(x.life.answered, Asks(HandedOut(steps[..n])), Asks(last));
    }
  }

  lemma TrailLess(x: Tree, trail: seq<Tree>, steps: seq<Option<Handout>>)
    requires Trail(x, trail, steps) && steps != []
    ensures Trail(x, trail[..|steps|], steps[..|steps| - 1]) && trail[..|steps|][|steps| - 1] == trail[|steps| - 1]
    ensures ReplayStep(trail[|steps| - 1], |steps| - 1, steps[|steps| - 1], trail[|steps|])
  {
    hide ReplayStep;
    var t, u := trail[..|steps|], steps[..|steps| - 1];
    forall k: nat | k < |u|
      ensures ReplayStep(t[k], k, u[k], t[k + 1])
    {
      assert ReplayStep(trail[k], k, steps[k], trail[k + 1]);
    }
  }

  /** The calls a replay answers are those it hands out, in this order, each once. */
  lemma ReplayAnswers(x: Tree, y: Tree, hs: seq<Handout>)
    requires ReplayRan(x, y, hs)
    ensures y.life.answered == x.life.answered + Asks(hs)
  {
    hide Trail, HandedOut, Onwards, Asks;
    var trail, steps, p :| ReplayOf(x, y, hs, trail, steps, p);
    TrailAnswers(x, trail, steps);
    TrailEnd(x, trail, steps);
  }

  lemma TrailEnd(x: Tree, trail: seq<Tree>, steps: seq<Option<Handout>>)
    requires Trail(x, trail, steps)
    ensures |trail| == |steps| + 1
  {
    hide ReplayStep;
  }

  // ---------------------------------------------------------------- what a chain comes to

  /** In one of these hand-outs an index did not fit: more than 65535 messages were stored when it began. */
  ghost predicate CutIn(hs: seq<Handout>)
  {
    exists h :: h in hs && !h.big && Cutting(h.before, h.reached != {})
  }

  /** What chained hand-outs amount to: nobody is due anything else, handlers do what the script says, and an index is
    * only cut in one of them. */
  ghost predicate Sum(a: Tree, b: Tree, hs: seq<Handout>)
  {
    && Story(a, b, hs) && Heard(a, b) && a.life.nextId <= b.life.nextId && ReachedBelow(hs, b.life.nextId)
    && (b.post.truncated ==> a.post.truncated || CutIn(hs))
  }

  /** Everyone reached is one of the first `n`. */
  ghost predicate ReachedBelow(hs: seq<Handout>, n: nat)
  {
    forall h :: h in hs ==> forall s :: s in h.reached ==> s < n
  }

  lemma CutInMore(x: seq<Handout>, y: seq<Handout>)
    ensures CutIn(x) || CutIn(y) ==> CutIn(x + y)
  {
    if CutIn(x) {
      var h :| h in x && !h.big && Cutting(h.before, h.reached != {});
      assert h in x + y;
    }
    if CutIn(y) {
      var h :| h in y && !h.big && Cutting(h.before, h.reached != {});
      assert h in x + y;
    }
  }

  lemma SumTrans(a: Tree, b: Tree, c: Tree, x: seq<Handout>, y: seq<Handout>)
    requires Sum(a, b, x) && Sum(b, c, y)
    ensures Sum(a, c, x + y)
  {
    hide Story, Heard, CutIn;
    StoryTrans(a, b, c, x, y);
    HeardMore(a, b, c);
    CutInMore(x, y);
  }

  lemma SumAfter(a: Tree, b: Tree, c: Tree, hs: seq<Handout>)
    requires Sum(a, b, []) && Sum(b, c, hs)
    ensures Sum(a, c, hs)
  {
    hide Sum;
    SumTrans(a, b, c, [], hs);
    assert [] + hs == hs;
  }

  lemma SumBefore(a: Tree, b: Tree, c: Tree, hs: seq<Handout>)
    requires Sum(a, b, hs) && Sum(b, c, [])
    ensures Sum(a, c, hs)
  {
    hide Sum;
    SumTrans(a, b, c, hs, []);
    assert hs + [] == hs;
  }

  /** Nothing was handed out. */
  lemma SumNone(a: Tree, b: Tree)
    requires Heard(a, b) && a.life.nextId <= b.life.nextId && b.post.truncated == a.post.truncated
    requires forall s :: s in b.post.due ==> s in a.post.due && b.post.due[s] == a.post.due[s]
    ensures Sum(a, b, [])
  {
    hide Heard, Story;
    StoryNone(a, b);
  }

  lemma HandoutSum(h: Handout)
    requires HandoutOk(h)
    ensures Sum(h.before, h.after, [h])
  {
    hide Story, Inv, HeardOn, Roomy;
    StoryOne(h);
    assert h in [h];
    HeardNothing(h.before);
    HandoutReaches(h);
  }

  lemma HandoutReaches(h: Handout)
    requires HandoutOk(h)
    ensures h.before.life.nextId <= h.after.life.nextId && forall s :: s in h.reached ==> s < h.after.life.nextId
  {
    hide Listed, Bounded, Delivering, Tidy, RelOk, Spent;
    if h.ask.name in h.before.rel.topics {
      MembersLive(h.before, h.before.rel.topics[h.ask.name]);
    }
  }

  /** If the batches of those a message is meant for have room, an index is cut exactly if there are too many messages
    * and there is someone to hand it to; no handler is called, and everyone but the sender is reached. */
  lemma CutExactly(h: Handout)
    requires HandoutOk(h) && !h.big && AtEase(h.before) && h.ask.name in h.before.rel.topics
    requires !h.before.post.truncated
    requires var t := h.before.rel.topics[h.ask.name];
             t in h.before.rel.members && Roomy(h.before, t, h.ask.sender)
    ensures var t := h.before.rel.topics[h.ask.name];
            && h.reached == (set s | s in h.before.rel.members[t] && Some(s) != h.ask.sender)
            && (h.after.post.truncated <==> |h.before.post.outgoing| > UINT16_MAX && h.reached != {})
            && h.after.post.calls == h.before.post.calls
  {
    hide Inv, Onwards, Spent, Roomy;
    UndisturbedReach(h);
  }

  lemma SameSum(a: Tree, b: Tree)
    requires b.post == a.post && a.life.nextId <= b.life.nextId && b.script == a.script
    requires b.life.doomed == a.life.doomed && b.rel.held.Keys == a.rel.held.Keys && b.life.missed == a.life.missed
    ensures Sum(a, b, [])
  {
    HeardNothing(a);
    SumNone(a, b) by { hide HeardOn; assert HearingOf(b) == HearingOf(a); }
  }

  lemma SweptSum(a: Tree, b: Tree)
    requires Sweeps(a, b)
    ensures Sum(a, b, [])
  {
    hide HeardOn;
    SumNone(a, b);
  }

  lemma DepartedSum(a: Tree, b: Tree)
    requires Departed(a, b, a.life.doomed) && Heard(a, b)
    ensures Sum(a, b, [])
  {
    hide Sum, Parted, Heard;
    SumNone(a, b);
  }

  /** A replayed call of `publish`. */
  lemma AnswersSum(y: Tree, h: Handout, z: Tree)
    requires Answers(y, h, z)
    ensures Sum(y, z, [h])
  {
    hide HandoutOk, Sum, Sweeps;
    HandoutSum(h);
    if h.ask.name in y.rel.topics {
      if !HasRoom(y) {
        var m: Tree :| Sweeps(y, m) && m.mode.depth > 0 && h.before == Shallower(m);
        SweptSum(y, m);
        SameSum(m, h.before);
        SumAfter(y, m, h.before, []);
      } else {
        SameSum(y, h.before);
      }
      SameSum(h.after, z);
      SumAfter(y, h.before, h.after, [h]);
      SumBefore(y, h.after, z, [h]);
    }
  }

  lemma StepSum(x: Tree, k: nat, step: Option<Handout>, z: Tree)
    requires ReplayStep(x, k, step, z)
    ensures Sum(x, z, if step.Some? then [step.value] else [])
  {
    hide Sum, Answers;
    if step.Some? {
      CrossedSum(x, k);
      AnswersSum(Crossed(x, k), step.value, z);
      SumAfter(x, Crossed(x, k), z, [step.value]);
    } else {
      ReplayedSum(x, k);
    }
  }

  lemma CrossedSum(x: Tree, k: nat)
    requires k < |x.rel.ops|
    ensures Sum(x, Crossed(x, k), [])
  {
    hide Sum;
    SameSum(x, Crossed(x, k));
  }

  lemma ReplayedSum(x: Tree, k: nat)
    requires k < |x.rel.ops| && !x.rel.ops[k].PublishOp?
    requires x.rel.ops[k].Touches() ==> x.rel.ops[k].t in x.rel.members && x.rel.ops[k].t in x.rel.names
    ensures Sum(x, ReplayedTree(x, k), [])
  {
    hide Sum;
    SameSum(x, ReplayedTree(x, k));
  }

  lemma {:induction false} TrailSum(x: Tree, trail: seq<Tree>, steps: seq<Option<Handout>>)
    requires Trail(x, trail, steps)
    ensures Sum(x, trail[|steps|], HandedOut(steps))
    decreases |steps|
  {
    hide ReplayStep, Sum;
    if steps == [] {
      SameSum(x, x);
    } else {
      var n := |steps| - 1;
      TrailLess(x, trail, steps);
      TrailSum(x, trail[..n + 1], steps[..n]);
      StepSum(trail[n], n, steps[n], trail[n + 1]);
      SumTrans(x, trail[n], trail[n + 1], HandedOut(steps[..n]), if steps[n].Some? then [steps[n].value] else []);
    }
  }

  lemma WoundSum(x: Tree, y: Tree, hs: seq<Handout>)
    requires Wound(x, y, hs)
    ensures Sum(x, y, hs)
  {
    hide Trail, HandedOut, Departed, Sum, Heard;
    if !x.mode.pending || x.mode.applying {
      SameSum(x, y);
    } else {
      var trail, steps, p :| ReplayOf(ApplyStarted(x), y, hs, trail, steps, p);
      SameSum(x, ApplyStarted(x));
      TrailSum(ApplyStarted(x), trail, steps);
      TrailEnd(ApplyStarted(x), trail, steps);
      EndSum(trail[|steps|], p);
      SumAfter(x, ApplyStarted(x), trail[|steps|], hs);
      SumBefore(x, trail[|steps|], y, hs);
    }
  }

  lemma EndSum(x: Tree, p: Tree)
    requires Departed(Cleared(x), p, x.life.doomed) && Heard(Cleared(x), p)
    ensures Sum(x, ApplyEnded(p), [])
  {
    hide Departed, Sum, Heard;
    SameSum(x, Cleared(x));
    DepartedSum(Cleared(x), p);
    SameSum(p, ApplyEnded(p));
    SumAfter(x, Cleared(x), p, []);
    SumAfter(x, p, ApplyEnded(p), []);
  }

  lemma RoomSum(x: Tree, y: Tree, hs: seq<Handout>)
    requires RoomMade(x, y, hs) || AllDrained(x, y, hs)
    ensures Sum(x, y, hs)
  {
    hide Wound, Sweeps, Sum;
    if m: Tree :| Sweeps(x, m) && Wound(m, y, hs) {
      SweptSum(x, m);
      WoundSum(m, y, hs);
      SumAfter(x, m, y, hs);
    } else {
      SameSum(x, y);
    }
  }

  /** A call of `publish` between deliveries. */
  lemma PublishSum(a: Tree, b: Tree, hs: seq<Handout>, own: nat, ask: Ask)
    requires PublishChain(a, b, hs, own, ask)
    ensures Sum(a, b, hs)
  {
    hide RoomMade, Wound, HandoutOk, Sum;
    var h := hs[own];
    HandoutSum(h);
    if ask.name in a.rel.topics {
      RoomSum(a, h.before, hs[..own]);
      WoundSum(h.after, b, hs[own + 1..]);
      SumTrans(a, h.before, h.after, hs[..own], [h]);
      SumTrans(a, h.after, b, hs[..own] + [h], hs[own + 1..]);
      assert hs == hs[..own] + [h] + hs[own + 1..];
    }
  }

  lemma DrainSum(a: Tree, b: Tree, s: SubId, hs: seq<Handout>)
    requires s in a.post.indices && DrainChain(a, b, s, hs)
    ensures Sum(a, b, hs)
  {
    hide Wound, Sum, OneDrained, BatchGiven;
    if a.post.indices[s] != [] {
      var m: Tree :| OneDrained(a, m, s) && Wound(m, b, hs);
      OneDrainedSum(a, m, s);
      WoundSum(m, b, hs);
      SumAfter(a, m, b, hs);
    } else {
      SameSum(a, b);
    }
  }

  lemma OneDrainedSum(a: Tree, m: Tree, s: SubId)
    requires OneDrained(a, m, s)
    ensures Sum(a, m, [])
  {
    hide HeardOn;
    SumNone(a, m);
  }

  lemma BigSum(a: Tree, b: Tree, hs: seq<Handout>, ask: Ask)
    requires BigChain(a, b, hs, ask)
    ensures Sum(a, b, hs)
  {
    hide Wound, HandoutOk, Sum;
    HandoutSum(hs[0]);
    WoundSum(hs[0].after, b, hs[1..]);
    SumTrans(a, hs[0].after, b, [hs[0]], hs[1..]);
    assert hs == [hs[0]] + hs[1..];
  }

  // ---------------------------------------------------------------- which calls it answers

  lemma WoundAnswers(x: Tree, y: Tree, hs: seq<Handout>)
    requires Wound(x, y, hs)
    ensures y.life.answered == x.life.answered + Asks(hs)
  {
    hide ReplayRan, Asks;
    if !x.mode.pending || x.mode.applying {
      assert Asks(hs) == [] && x.life.answered + [] == x.life.answered;
    } else {
      ReplayAnswers(ApplyStarted(x), y, hs);
    }
  }

  lemma RoomAnswers(x: Tree, y: Tree, hs: seq<Handout>)
    requires RoomMade(x, y, hs) || AllDrained(x, y, hs)
    ensures y.life.answered == x.life.answered + Asks(hs)
  {
    hide Wound, Asks, Spent, Onwards;
    if m: Tree :| Sweeps(x, m) && Wound(m, y, hs) {
      WoundAnswers(m, y, hs);
    } else {
      assert Asks(hs) == [] && x.life.answered + [] == x.life.answered;
    }
  }

  /** All but its own hand-out answer calls of handlers. */
  lemma PublishAnswers(a: Tree, b: Tree, hs: seq<Handout>, own: nat, ask: Ask)
    requires PublishChain(a, b, hs, own, ask)
    ensures b.life.answered == a.life.answered + Asks(hs[..own] + hs[own + 1..])
  {
    hide RoomMade, Wound, Asks, Spent, Onwards, Inv;
    var h := hs[own];
    if ask.name in a.rel.topics {
      RoomAnswers(a, h.before, hs[..own]);
      WoundAnswers(h.after, b, hs[own + 1..]);
      Assoc3(a.life.answered, Asks(hs[..own]), Asks(hs[own + 1..]));
    } else {
      assert own == 0 && hs[..own] + hs[own + 1..] == [] && Asks([]) == [];
      assert a.life.answered + [] == a.life.answered;
    }
  }

  lemma DrainAnswers(a: Tree, b: Tree, s: SubId, hs: seq<Handout>)
    requires s in a.post.indices && DrainChain(a, b, s, hs)
    ensures b.life.answered == a.life.answered + Asks(hs)
  {
    hide Wound, Asks, Spent, Onwards, BatchGiven;
    if a.post.indices[s] != [] {
      var m: Tree :| OneDrained(a, m, s) && Wound(m, b, hs);
      WoundAnswers(m, b, hs);
    } else {
      assert Asks(hs) == [] && a.life.answered + [] == a.life.answered;
    }
  }

  lemma BigAnswers(a: Tree, b: Tree, hs: seq<Handout>, ask: Ask)
    requires BigChain(a, b, hs, ask)
    ensures b.life.answered == a.life.answered + Asks(hs[1..])
  {
    hide Wound, Asks, Spent, Onwards, Inv;
    WoundAnswers(hs[0].after, b, hs[1..]);
  }
}
