/** The intrusive doubly linked lists of the engine as values: `chain` is the list the pointers `head`, `next` and
  * `prev` stand for.  Subscribers with messages to drain, connect requests and sockets are kept on such lists. */
module IntrusiveList {
  import opened Bytes

  type Node = nat

  datatype Links = Links(chain: seq<Node>, head: Option<Node>, next: map<Node, Option<Node>>, prev: map<Node,
                         Option<Node>>)

  function At(chain: seq<Node>, i: int): Option<Node>
  {
    if 0 <= i < |chain| then Some(chain[i]) else None
  }

  ghost predicate Distinct(chain: seq<Node>)
  {
    forall i, j :: 0 <= i < j < |chain| ==> chain[i] != chain[j]
  }

  ghost predicate Linked(l: Links)
  {
    && Distinct(l.chain) && l.head == At(l.chain, 0)
    && forall i :: 0 <= i < |l.chain| ==> NodeLinked(l, i)
  }

  ghost predicate NodeLinked(l: Links, i: nat)
    requires i < |l.chain|
  {
    && l.chain[i] in l.next && l.next[l.chain[i]] == At(l.chain, i + 1)
    && l.chain[i] in l.prev && l.prev[l.chain[i]] == At(l.chain, i - 1)
  }

  function Without(chain: seq<Node>, p: nat): seq<Node>
    requires p < |chain|
  {
    chain[..p] + chain[p + 1..]
  }

  lemma WithoutAt(chain: seq<Node>, p: nat)
    requires p < |chain| && Distinct(chain)
    ensures var c := Without(chain, p);
            && |c| == |chain| - 1 && Distinct(c)
            && (forall i :: 0 <= i < |c| ==> c[i] == chain[if i < p then i else i + 1])
  {
  }

  lemma WithoutIn(chain: seq<Node>, p: nat, x: Node)
    requires p < |chain| && Distinct(chain)
    ensures x in Without(chain, p) <==> x in chain && x != chain[p]
  {
    WithoutAt(chain, p);
    if x in chain && x != chain[p] {
      var i :| 0 <= i < |chain| && chain[i] == x;
      assert Without(chain, p)[if i < p then i else i - 1] == x;
    }
  }

  /** The pointers after `unlinkDrainableSubscriber`. */
  function Unlink(l: Links, p: nat): Links
    requires p < |l.chain| && l.chain[p] in l.next && l.chain[p] in l.prev
  {
    var s := l.chain[p];
    Links(Without(l.chain, p),
          if l.head == Some(s) then l.next[s] else l.head,
          if l.prev[s].Some? then l.next[l.prev[s].value := l.next[s]] else l.next,
          if l.next[s].Some? then l.prev[l.next[s].value := l.prev[s]] else l.prev)
  }

  lemma UnlinkNode(l: Links, p: nat, i: nat)
    requires Linked(l) && p < |l.chain|
    requires i < |l.chain| - 1
    ensures Linked(l) && NodeLinked(l, p) && |Unlink(l, p).chain| == |l.chain| - 1 && NodeLinked(Unlink(l, p), i)
  {
    hide Without;
    WithoutAt(l.chain, p);
    assert NodeLinked(l, p);
    var k := if i < p then i else i + 1;
    assert NodeLinked(l, k);
    if p > 0 { assert NodeLinked(l, p - 1); }
    if p + 1 < |l.chain| { assert NodeLinked(l, p + 1); }
  }

  lemma UnlinkKeeps(l: Links, p: nat)
    requires Linked(l) && p < |l.chain|
    ensures NodeLinked(l, p) && Linked(Unlink(l, p))
    ensures forall x :: x in Unlink(l, p).chain <==> x in l.chain && x != l.chain[p]
  {
    hide Without;
    WithoutAt(l.chain, p);
    assert NodeLinked(l, p);
    var l' := Unlink(l, p);
    forall i | 0 <= i < |l'.chain|
      ensures NodeLinked(l', i)
    {
      UnlinkNode(l, p, i);
    }
    forall x
      ensures x in l'.chain <==> x in l.chain && x != l.chain[p]
    {
      WithoutIn(l.chain, p, x);
    }
  }

  /** The pointers after a subscriber is put at the head. */
  function Push(l: Links, s: Node): Links
  {
    Links([s] + l.chain, Some(s), l.next[s := l.head],
      (if l.head.Some? then l.prev[s := None][l.head.value := Some(s)] else l.prev[s := None]))
  }

  lemma PushKeeps(l: Links, s: Node)
    requires Linked(l) && s !in l.chain
    ensures Linked(Push(l, s))
  {
    var l' := Push(l, s);
    assert forall i :: 0 < i < |l'.chain| ==> l'.chain[i] == l.chain[i - 1];
    forall i | 0 <= i < |l'.chain|
      ensures NodeLinked(l', i)
    {
      if i > 0 { assert NodeLinked(l, i - 1); }
    }
  }

  // ---------------------------------------------------------------- walking the list while it loses nodes

  /** From position `i` of `order`, `to` skips only nodes that have left the list. */
  ghost predicate Skips(order: seq<Node>, chain: seq<Node>, i: nat, to: Option<Node>)
  {
    match to
    case None => forall k :: i < k < |order| ==> order[k] !in chain
    case Some(y) => exists j :: i < j < |order| && order[j] == y && forall k :: i < k < j ==> order[k] !in chain
  }

  /** `order` was the list when the walk began: every pointer still leads onwards, nodes that left included. */
  ghost predicate Onward(order: seq<Node>, l: Links)
  {
    && Distinct(order) && (forall x :: x in l.chain ==> x in order)
    && forall i :: 0 <= i < |order| ==> order[i] in l.next && Skips(order, l.chain, i, l.next[order[i]])
  }

  lemma WalkStarts(l: Links)
    requires Linked(l)
    ensures Onward(l.chain, l)
  {
    forall i | 0 <= i < |l.chain|
      ensures l.chain[i] in l.next && Skips(l.chain, l.chain, i, l.next[l.chain[i]])
    {
      assert NodeLinked(l, i);
      assert i + 1 < |l.chain| ==> l.chain[i + 1] == l.next[l.chain[i]].value;
    }
  }

  /** A node may leave the list at any point of the walk. */
  lemma OnwardKeeps(order: seq<Node>, l: Links, p: nat)
    requires Linked(l) && Onward(order, l) && p < |l.chain|
    ensures NodeLinked(l, p) && Onward(order, Unlink(l, p))
  {
    hide Without, Skips;
    UnlinkKeeps(l, p);
    var l', s := Unlink(l, p), l.chain[p];
    if p > 0 { assert NodeLinked(l, p - 1); }
    forall i | 0 <= i < |order|
      ensures order[i] in l'.next && Skips(order, l'.chain, i, l'.next[order[i]])
    {
      if p > 0 && order[i] == l.chain[p - 1] {
        assert l.prev[s] == Some(order[i]) && l.next[order[i]] == Some(s);
        SkipsTwice(order, l.chain, l'.chain, i, s, l.next);
      } else {
        assert l'.next[order[i]] == l.next[order[i]];
        SkipsLess(order, l.chain, l'.chain, i, l.next[order[i]]);
      }
    }
  }

  lemma SkipsLess(order: seq<Node>, chain: seq<Node>, chain': seq<Node>, i: nat, to: Option<Node>)
    requires Skips(order, chain, i, to) && forall x :: x in chain' ==> x in chain
    ensures Skips(order, chain', i, to)
  {
    if to.Some? {
      var j :| i < j < |order| && order[j] == to.value && forall k :: i < k < j ==> order[k] !in chain;
      assert forall k :: i < k < j ==> order[k] !in chain';
    }
  }

  lemma SkipsTwice(order: seq<Node>, chain: seq<Node>, chain': seq<Node>, i: nat, s: Node, next: map<Node,
                   Option<Node>>)
    requires i < |order| && Skips(order, chain, i, Some(s))
    requires forall j :: 0 <= j < |order| ==> order[j] in next && Skips(order, chain, j, next[order[j]])
    requires s in next && (forall x :: x in chain' ==> x in chain) && s !in chain'
    ensures Skips(order, chain', i, next[s])
  {
    var j :| i < j < |order| && order[j] == s && forall k :: i < k < j ==> order[k] !in chain;
    SkipsOver(order, chain, chain', i, j, next[s]);
  }

  lemma SkipsOver(order: seq<Node>, chain: seq<Node>, chain': seq<Node>, i: nat, j: nat, to: Option<Node>)
    requires i < j < |order| && Skips(order, chain, j, to) && (forall x :: x in chain' ==> x in chain)
    requires order[j] !in chain'
    requires forall k :: i < k < j ==> order[k] !in chain
    ensures Skips(order, chain', i, to)
  {
    if to.Some? {
      var j2 :| j < j2 < |order| && order[j2] == to.value && forall k :: j < k < j2 ==> order[k] !in chain;
      assert forall k :: i < k < j2 ==> order[k] !in chain';
    }
  }
}
