/** The subscription relation of TopicTree.h as values: who is in which topic, who holds which topic, and the
  * changes that wait for a delivery to finish. */
module TopicRelation {
  import opened Bytes

  type SubId = nat
  type TopicId = nat
  type Payload = string

  /** `PendingOp`; `Done` once it has been replayed. */
  datatype Op =
    | SubscribeOp(s: SubId, t: TopicId)
    | UnsubscribeOp(s: SubId, t: TopicId)
    | PublishOp(sender: Option<SubId>, name: string, message: Payload)
    | Done
  {
    predicate On(topic: TopicId) { (SubscribeOp? || UnsubscribeOp?) && t == topic }
    predicate Touches() { SubscribeOp? || UnsubscribeOp? }
  }

  // ---------------------------------------------------------------- what the queue amounts to

  /** One queued change of topic `t`. */
  function Change(m: set<SubId>, op: Op, t: TopicId): set<SubId>
  {
    if !op.On(t) then m else if op.SubscribeOp? then m + {op.s} else m - {op.s}
  }

  /** The members of `t` once the queue has been replayed. */
  function Replay(m: set<SubId>, ops: seq<Op>, t: TopicId): set<SubId>
    decreases |ops|
  {
    if ops == [] then m else Replay(Change(m, ops[0], t), ops[1..], t)
  }

  /** Every queued change of `t` changes something when its turn comes. */
  ghost predicate Fits(m: set<SubId>, ops: seq<Op>, t: TopicId)
    decreases |ops|
  {
    ops == [] || ((ops[0].On(t) ==> (ops[0].SubscribeOp? <==> ops[0].s !in m))
      && Fits(Change(m, ops[0], t), ops[1..], t))
  }

  /** What `numSubscribers` adds for the queue. */
  function Net(ops: seq<Op>, t: TopicId): int
  {
    if ops == [] then 0
    else (if !ops[0].On(t) then 0 else if ops[0].SubscribeOp? then 1 else -1) + Net(ops[1..], t)
  }

  predicate SubscribeQueued(ops: seq<Op>, t: TopicId)
  {
    exists k :: 0 <= k < |ops| && ops[k].SubscribeOp? && ops[k].t == t
  }

  /** A queued change of the pair. */
  predicate Queued(ops: seq<Op>, s: SubId, t: TopicId)
  {
    exists k :: 0 <= k < |ops| && ops[k].On(t) && ops[k].s == s
  }

  lemma {:induction false} ReplayCount(m: set<SubId>, ops: seq<Op>, t: TopicId)
    requires Fits(m, ops, t)
    ensures |Replay(m, ops, t)| == |m| + Net(ops, t)
    decreases |ops|
  {
    if ops != [] {
      ReplayCount(Change(m, ops[0], t), ops[1..], t);
      if ops[0].On(t) {
        if ops[0].SubscribeOp? { AddOne(m, ops[0].s); } else { RemoveOne(m, ops[0].s); }
      }
    }
  }

  lemma AddOne(m: set<SubId>, s: SubId)
    requires s !in m
    ensures |m + {s}| == |m| + 1
  {
  }

  lemma RemoveOne(m: set<SubId>, s: SubId)
    requires s in m
    ensures |m - {s}| == |m| - 1
  {
    assert m == (m - {s}) + {s};
  }

  lemma {:induction false} ReplayAppend(m: set<SubId>, ops: seq<Op>, op: Op, t: TopicId)
    ensures Replay(m, ops + [op], t) == Change(Replay(m, ops, t), op, t)
    ensures Fits(m, ops, t) && (op.On(t) ==> (op.SubscribeOp? <==> op.s !in Replay(m, ops, t))) ==>
              Fits(m, ops + [op], t)
    decreases |ops|
  {
    if ops == [] {
      assert [op][1..] == [];
    } else {
      assert (ops + [op])[1..] == ops[1..] + [op];
      ReplayAppend(Change(m, ops[0], t), ops[1..], op, t);
    }
  }

  /** A change of a pair nothing is queued for goes through the queue unhindered. */
  lemma {:induction false} ReplayOther(m: set<SubId>, ops: seq<Op>, s: SubId, t: TopicId)
    requires !Queued(ops, s, t)
    ensures Replay(m + {s}, ops, t) == Replay(m, ops, t) + {s}
    ensures Replay(m - {s}, ops, t) == Replay(m, ops, t) - {s}
    ensures Fits(m, ops, t) ==> Fits(m + {s}, ops, t) && Fits(m - {s}, ops, t)
    decreases |ops|
  {
    if ops != [] {
      assert !(ops[0].On(t) && ops[0].s == s);
      QueuedLater(ops, s, t);
      var m' := Change(m, ops[0], t);
      ReplayOther(m', ops[1..], s, t);
      assert Change(m + {s}, ops[0], t) == m' + {s};
      assert Change(m - {s}, ops[0], t) == m' - {s};
    }
  }

  lemma QueuedLater(ops: seq<Op>, s: SubId, t: TopicId)
    requires ops != []
    ensures Queued(ops[1..], s, t) ==> Queued(ops, s, t)
    ensures SubscribeQueued(ops[1..], t) ==> SubscribeQueued(ops, t)
  {
    if Queued(ops[1..], s, t) {
      var k :| 0 <= k < |ops[1..]| && ops[1..][k].On(t) && ops[1..][k].s == s;
      assert ops[k + 1].On(t) && ops[k + 1].s == s;
    }
    if SubscribeQueued(ops[1..], t) {
      var k :| 0 <= k < |ops[1..]| && ops[1..][k].SubscribeOp? && ops[1..][k].t == t;
      assert ops[k + 1].SubscribeOp? && ops[k + 1].t == t;
    }
  }

  /** A change of a pair something is queued for is undone by the queue. */
  lemma {:induction false} ReplaySame(m: set<SubId>, ops: seq<Op>, s: SubId, t: TopicId)
    requires Queued(ops, s, t)
    ensures Replay(m + {s}, ops, t) == Replay(m, ops, t) == Replay(m - {s}, ops, t)
    decreases |ops|
  {
    var m' := Change(m, ops[0], t);
    if ops[0].On(t) && ops[0].s == s {
      assert Change(m + {s}, ops[0], t) == m' == Change(m - {s}, ops[0], t);
    } else {
      assert Change(m + {s}, ops[0], t) == m' + {s};
      assert Change(m - {s}, ops[0], t) == m' - {s};
      var k :| 0 <= k < |ops| && ops[k].On(t) && ops[k].s == s;
      assert ops[1..][k - 1].On(t) && ops[1..][k - 1].s == s;
      ReplaySame(m', ops[1..], s, t);
    }
  }

  /** What is not queued for `t` does not matter to it. */
  lemma {:induction false} ReplayIdle(m: set<SubId>, ops: seq<Op>, t: TopicId)
    requires forall k | 0 <= k < |ops| :: !ops[k].On(t)
    ensures Replay(m, ops, t) == m && Fits(m, ops, t) && Net(ops, t) == 0
    decreases |ops|
  {
    if ops != [] {
      ReplayIdle(m, ops[1..], t);
    }
  }

  /** The next queued change is made and crossed out. */
  lemma {:induction false} ReplayNext(m: set<SubId>, ops: seq<Op>, i: nat, t: TopicId)
    requires i < |ops| && forall k | 0 <= k < i :: !ops[k].Touches()
    ensures Replay(Change(m, ops[i], t), ops[i := Done], t) == Replay(m, ops, t)
    ensures Fits(m, ops, t) ==> Fits(Change(m, ops[i], t), ops[i := Done], t)
    ensures Fits(m, ops, t) && ops[i].On(t) ==> (ops[i].SubscribeOp? <==> ops[i].s !in m)
    decreases i
  {
    if i == 0 {
      assert ops[0 := Done][1..] == ops[1..];
    } else {
      assert !ops[0].Touches();
      assert ops[i := Done][1..] == ops[1..][i - 1 := Done];
      assert ops[i := Done][0] == ops[0];
      ReplayNext(m, ops[1..], i - 1, t);
    }
  }

  /** An empty topic that no queued subscription will fill has nothing queued at all. */
  lemma {:induction false} NothingToEmpty(ops: seq<Op>, t: TopicId)
    requires Fits({}, ops, t) && !SubscribeQueued(ops, t)
    ensures forall k | 0 <= k < |ops| :: !ops[k].On(t)
    decreases |ops|
  {
    if ops != [] {
      assert !ops[0].On(t);
      QueuedLater(ops, 0, t);
      NothingToEmpty(ops[1..], t);
      forall k | 0 <= k < |ops|
        ensures !ops[k].On(t)
      {
        if k > 0 { assert ops[k] == ops[1..][k - 1]; }
      }
    }
  }

  // ---------------------------------------------------------------- the relation

  /** Topics by name, names and members of topics, topics held by subscribers, and the queue. */
  datatype Rel = Rel(topics: map<string, TopicId>, names: map<TopicId, string>, members: map<TopicId, set<SubId>>,
                     held: map<SubId, set<TopicId>>, ops: seq<Op>)

  function Holders(held: map<SubId, set<TopicId>>, t: TopicId): set<SubId>
  {
    set s | s in held && t in held[s]
  }

  /** Names and topics are one to one. */
  ghost predicate Registered(r: Rel)
  {
    && r.names.Keys == r.members.Keys
    && (forall n :: n in r.topics ==> r.topics[n] in r.names && r.names[r.topics[n]] == n)
    && (forall t :: t in r.names ==> r.names[t] in r.topics && r.topics[r.names[t]] == t)
  }

  ghost predicate Known(r: Rel)
  {
    && (forall k :: 0 <= k < |r.ops| && r.ops[k].Touches() ==> r.ops[k].t in r.members && r.ops[k].s in r.held)
    && (forall s, t :: s in r.held && t in r.held[s] ==> t in r.members)
    && (forall t, s :: t in r.members && s in r.members[t] ==> s in r.held)
  }

  /** A subscriber holds `t` exactly when it is a member of it, what is queued included. */
  ghost predicate Paired(r: Rel, t: TopicId)
    requires t in r.members
  {
    && Fits(r.members[t], r.ops, t)
    && Holders(r.held, t) == Replay(r.members[t], r.ops, t)
    && (r.members[t] == {} ==> SubscribeQueued(r.ops, t))
  }

  /** What every step keeps: nobody holds, and nothing queued mentions, a topic that is gone. */
  ghost predicate RelOk(r: Rel)
  {
    Registered(r) && Known(r) && forall t :: t in r.members ==> Paired(r, t)
  }

  /** At rest a subscriber is in a topic's set exactly when the topic is in the subscriber's, and no topic is empty. */
  lemma AtRest(r: Rel, s: SubId, t: TopicId)
    requires RelOk(r) && (forall k | 0 <= k < |r.ops| :: !r.ops[k].Touches()) && t in r.members && s in r.held
    ensures (s in r.members[t] <==> t in r.held[s]) && r.members[t] != {}
  {
    assert Paired(r, t);
    ReplayIdle(r.members[t], r.ops, t);
    assert s in Holders(r.held, t) <==> t in r.held[s];
  }

  lemma MembersHeld(r: Rel, t: TopicId)
    requires RelOk(r) && (forall k | 0 <= k < |r.ops| :: !r.ops[k].On(t)) && t in r.members
    ensures r.members[t] == Holders(r.held, t)
  {
    assert Paired(r, t);
    ReplayIdle(r.members[t], r.ops, t);
  }

  /** The count `numSubscribers` computes is the number of subscribers that hold the topic. */
  lemma CountIsHolders(r: Rel, t: TopicId)
    requires RelOk(r) && t in r.members
    ensures |r.members[t]| + Net(r.ops, t) == |Holders(r.held, t)|
  {
    assert Paired(r, t);
    ReplayCount(r.members[t], r.ops, t);
  }

  // ---------------------------------------------------------------- the steps

  function Hold(held: map<SubId, set<TopicId>>, s: SubId, t: TopicId): map<SubId, set<TopicId>>
    requires s in held
  {
    held[s := held[s] + {t}]
  }

  function Release(held: map<SubId, set<TopicId>>, s: SubId, t: TopicId): map<SubId, set<TopicId>>
    requires s in held
  {
    held[s := held[s] - {t}]
  }

  lemma HoldersChange(held: map<SubId, set<TopicId>>, s: SubId, t: TopicId, u: TopicId)
    requires s in held
    ensures Holders(Hold(held, s, t), u) == if u == t then Holders(held, u) + {s} else Holders(held, u)
    ensures Holders(Release(held, s, t), u) == if u == t then Holders(held, u) - {s} else Holders(held, u)
  {
  }

  /** `topics.erase` for a topic that has just become empty. */
  function Drop(r: Rel, t: TopicId): Rel
    requires t in r.names
  {
    r.(topics := r.topics - {r.names[t]}, names := r.names - {t}, members := r.members - {t})
  }

  /** A new topic for its first subscriber. */
  function NewTopic(r: Rel, name: string, s: SubId, t: TopicId): Rel
    requires s in r.held
  {
    r.(topics := r.topics[name := t], names := r.names[t := name], members := r.members[t := {s}], held :=
      Hold(r.held, s, t))
  }

  lemma NewTopicKeeps(r: Rel, name: string, s: SubId, t: TopicId)
    requires RelOk(r) && s in r.held && name !in r.topics && t !in r.members
    ensures RelOk(NewTopic(r, name, s, t))
  {
    var r' := NewTopic(r, name, s, t);
    forall u | u in r'.members
      ensures Paired(r', u)
    {
      HoldersChange(r.held, s, t, u);
      if u == t {
        ReplayIdle({s}, r.ops, t);
        assert Holders(r.held, t) == {};
      } else {
        assert Paired(r, u);
      }
    }
  }

  function Join(r: Rel, s: SubId, t: TopicId): Rel
    requires s in r.held && t in r.members
  {
    r.(members := r.members[t := r.members[t] + {s}], held := Hold(r.held, s, t))
  }

  function Leave(r: Rel, s: SubId, t: TopicId): Rel
    requires s in r.held && t in r.members
  {
    r.(members := r.members[t := r.members[t] - {s}], held := Release(r.held, s, t))
  }

  lemma JoinKeeps(r: Rel, s: SubId, t: TopicId)
    requires RelOk(r) && s in r.held && t in r.members && !Queued(r.ops, s, t)
    ensures RelOk(Join(r, s, t))
  {
    hide Fits, Replay;
    var r' := Join(r, s, t);
    ReplayOther(r.members[t], r.ops, s, t);
    forall u | u in r'.members
      ensures Paired(r', u)
    {
      assert Paired(r, u);
      HoldersChange(r.held, s, t, u);
    }
  }

  /** Subscribing or leaving at once, past a queued change of the same pair, breaks the relation; otherwise it is
    * kept. */
  lemma ToggleExact(r: Rel, s: SubId, t: TopicId)
    requires RelOk(r) && s in r.held && t in r.members
    ensures t !in r.held[s] ==>
              (Holders(Join(r, s, t).held, t) == Replay(Join(r, s, t).members[t], r.ops, t) <==> !Queued(r.ops, s, t))
    ensures t in r.held[s] ==>
              (Holders(Leave(r, s, t).held, t) == Replay(Leave(r, s, t).members[t], r.ops, t) <==> !Queued(r.ops, s, t))
  {
    hide Fits, Replay;
    assert Paired(r, t);
    HoldersChange(r.held, s, t, t);
    assert s in Holders(r.held, t) <==> t in r.held[s];
    if Queued(r.ops, s, t) {
      ReplaySame(r.members[t], r.ops, s, t);
      if t in r.held[s] {
        assert s !in Holders(Leave(r, s, t).held, t);
      } else {
        assert s in Holders(Join(r, s, t).held, t);
      }
    } else {
      ReplayOther(r.members[t], r.ops, s, t);
    }
  }

  /** `eraseFromTopic`: an empty topic goes unless a queued subscription will fill it. */
  function Tidied(r: Rel, t: TopicId): Rel
    requires t in r.members && t in r.names
  {
    if r.members[t] == {} && !SubscribeQueued(r.ops, t) then Drop(r, t) else r
  }

  lemma DropRegistered(r: Rel, t: TopicId)
    requires Registered(r) && t in r.names
    ensures Registered(Drop(r, t))
  {
  }

  lemma DropKnown(r: Rel, t: TopicId)
    requires Known(r) && t in r.members && t in r.names && r.names.Keys == r.members.Keys
    requires (forall k | 0 <= k < |r.ops| :: !r.ops[k].On(t)) && Holders(r.held, t) == {}
    ensures Known(Drop(r, t))
  {
    var r' := Drop(r, t);
    forall s, u | s in r'.held && u in r'.held[s]
      ensures u in r'.members
    {
      assert u == t ==> s in Holders(r.held, t);
    }
  }

  lemma DropKeeps(r: Rel, t: TopicId)
    requires Registered(r) && Known(r) && t in r.members && r.members[t] == {} && !SubscribeQueued(r.ops, t)
    requires Fits(r.members[t], r.ops, t) && Holders(r.held, t) == Replay(r.members[t], r.ops, t)
    requires forall u :: u in r.members && u != t ==> Paired(r, u)
    ensures RelOk(Drop(r, t))
  {
    hide Fits, Replay, SubscribeQueued, Known, Registered;
    NothingToEmpty(r.ops, t);
    ReplayIdle({}, r.ops, t);
    SameKeys(r);
    DropRegistered(r, t);
    DropKnown(r, t);
    var r' := Drop(r, t);
    forall u | u in r'.members
      ensures Paired(r', u)
    {
      assert Paired(r, u);
    }
  }

  lemma SameKeys(r: Rel)
    requires Registered(r)
    ensures r.names.Keys == r.members.Keys
  {
  }

  lemma LeaveKeeps(r: Rel, s: SubId, t: TopicId)
    requires RelOk(r) && s in r.held && t in r.members && !Queued(r.ops, s, t)
    ensures RelOk(Tidied(Leave(r, s, t), t))
  {
    hide Fits, Replay;
    var r' := Leave(r, s, t);
    ReplayOther(r.members[t], r.ops, s, t);
    HoldersChange(r.held, s, t, t);
    assert Paired(r, t);
    forall u | u in r'.members && u != t
      ensures Paired(r', u)
    {
      assert Paired(r, u);
      HoldersChange(r.held, s, t, u);
    }
    if r'.members[t] == {} && !SubscribeQueued(r.ops, t) {
      DropKeeps(r', t);
    }
  }

  /** A change that waits: the subscriber's own set changes at once, the topic's when the queue is replayed. */
  function JoinLater(r: Rel, s: SubId, t: TopicId): Rel
    requires s in r.held
  {
    r.(held := Hold(r.held, s, t), ops := r.ops + [SubscribeOp(s, t)])
  }

  function LeaveLater(r: Rel, s: SubId, t: TopicId): Rel
    requires s in r.held
  {
    r.(held := Release(r.held, s, t), ops := r.ops + [UnsubscribeOp(s, t)])
  }

  lemma SubscribeStaysQueued(ops: seq<Op>, op: Op, t: TopicId)
    ensures SubscribeQueued(ops, t) ==> SubscribeQueued(ops + [op], t)
  {
    if SubscribeQueued(ops, t) {
      var k :| 0 <= k < |ops| && ops[k].SubscribeOp? && ops[k].t == t;
      assert (ops + [op])[k] == ops[k];
    }
  }

  lemma LaterKeeps(r: Rel, s: SubId, t: TopicId)
    requires RelOk(r) && s in r.held && t in r.members
    ensures t !in r.held[s] ==> RelOk(JoinLater(r, s, t))
    ensures t in r.held[s] ==> RelOk(LeaveLater(r, s, t))
  {
    hide Fits, Replay, SubscribeQueued;
    var r' := if t in r.held[s] then LeaveLater(r, s, t) else JoinLater(r, s, t);
    var op := if t in r.held[s] then UnsubscribeOp(s, t) else SubscribeOp(s, t);
    forall u | u in r'.members
      ensures Paired(r', u)
    {
      assert Paired(r, u);
      HoldersChange(r.held, s, t, u);
      ReplayAppend(r.members[u], r.ops, op, u);
      SubscribeStaysQueued(r.ops, op, u);
      assert s in Holders(r.held, u) <==> u in r.held[s];
    }
  }

  lemma PublishLaterKeeps(r: Rel, op: Op)
    requires RelOk(r) && op.PublishOp?
    ensures RelOk(r.(ops := r.ops + [op]))
  {
    hide Fits, Replay, SubscribeQueued;
    var r' := r.(ops := r.ops + [op]);
    forall u | u in r'.members
      ensures Paired(r', u)
    {
      assert Paired(r, u);
      ReplayAppend(r.members[u], r.ops, op, u);
      SubscribeStaysQueued(r.ops, op, u);
    }
  }

  /** The queue is replayed one change at a time, in order. */
  function Replayed(r: Rel, i: nat): Rel
    requires i < |r.ops| && (r.ops[i].Touches() ==> r.ops[i].t in r.members)
  {
    var crossed := r.(ops := r.ops[i := Done]);
    if r.ops[i].Touches() then
      crossed.(members := r.members[r.ops[i].t := Change(r.members[r.ops[i].t], r.ops[i], r.ops[i].t)])
    else crossed
  }

  lemma CrossedOut(ops: seq<Op>, i: nat, t: TopicId)
    requires i < |ops| && !(ops[i].SubscribeOp? && ops[i].t == t)
    ensures SubscribeQueued(ops, t) ==> SubscribeQueued(ops[i := Done], t)
  {
    if SubscribeQueued(ops, t) {
      var k :| 0 <= k < |ops| && ops[k].SubscribeOp? && ops[k].t == t;
      assert ops[i := Done][k] == ops[k];
    }
  }

  lemma ReplayedKeeps(r: Rel, i: nat)
    requires RelOk(r) && i < |r.ops| && forall k | 0 <= k < i :: !r.ops[k].Touches()
    ensures r.ops[i].Touches() ==> RelOk(Tidied(Replayed(r, i), r.ops[i].t))
    ensures !r.ops[i].Touches() ==> RelOk(Replayed(r, i))
  {
    hide Fits, Replay, SubscribeQueued;
    var r' := Replayed(r, i);
    var op := r.ops[i];
    forall u | u in r'.members && !op.On(u)
      ensures Paired(r', u)
    {
      assert Paired(r, u);
      ReplayNext(r.members[u], r.ops, i, u);
      CrossedOut(r.ops, i, u);
    }
    if op.Touches() {
      assert Paired(r, op.t);
      ReplayNext(r.members[op.t], r.ops, i, op.t);
      if r'.members[op.t] == {} && !SubscribeQueued(r'.ops, op.t) {
        DropKeeps(r', op.t);
      }
    }
  }

  /** A replayed queue is forgotten. */
  lemma ClearedKeeps(r: Rel)
    requires RelOk(r) && forall k | 0 <= k < |r.ops| :: !r.ops[k].Touches()
    ensures RelOk(r.(ops := []))
  {
    var r' := r.(ops := []);
    forall u | u in r'.members
      ensures Paired(r', u)
    {
      assert Paired(r, u);
      ReplayIdle(r.members[u], r.ops, u);
    }
  }

  /** A subscriber that holds nothing, and whom nothing queued mentions, may come or go. */
  lemma GoneKeeps(r: Rel, s: SubId)
    requires RelOk(r) && s in r.held && r.held[s] == {} && forall k | 0 <= k < |r.ops| :: !r.ops[k].Touches()
    ensures RelOk(r.(held := r.held - {s}))
  {
    var r' := r.(held := r.held - {s});
    forall u | u in r'.members
      ensures s !in r'.members[u] && Paired(r', u)
    {
      assert Paired(r, u);
      ReplayIdle(r.members[u], r.ops, u);
      assert s !in Holders(r.held, u);
      assert Holders(r'.held, u) == Holders(r.held, u);
    }
  }

  lemma ComeKeeps(r: Rel, s: SubId)
    requires RelOk(r) && s !in r.held
    ensures RelOk(r.(held := r.held[s := {}]))
  {
    var r' := r.(held := r.held[s := {}]);
    forall u | u in r'.members
      ensures Paired(r', u)
    {
      assert Paired(r, u);
      assert Holders(r'.held, u) == Holders(r.held, u);
    }
  }
}
