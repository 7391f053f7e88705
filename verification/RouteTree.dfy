/** The matching tree of HttpRouter.h against the plain list of the patterns in it. */
module RouteTree {
  import opened Bytes

  const HIGH_PRIORITY: nat := 0xd0000000
  const MEDIUM_PRIORITY: nat := 0xe0000000
  const LOW_PRIORITY: nat := 0xf0000000
  /** `HANDLER_MASK + 1`: an entry of a node is a priority plus the index of a handler. */
  const SPAN: nat := 0x10000000

  predicate IsPriority(p: nat) { p == HIGH_PRIORITY || p == MEDIUM_PRIORITY || p == LOW_PRIORITY }

  datatype Key = Key(name: string, high: bool)

  datatype Node = Node(key: Key, children: seq<Node>, entries: seq<nat>)

  predicate IsParam(name: string) { |name| > 0 && name[0] == ':' }

  predicate IsWild(name: string) { |name| > 0 && name[0] == '*' }

  predicate Barren(n: Node) { |n.entries| == 0 && |n.children| == 0 }

  /** The first child with a key from the `i`th on, or how many there are. */
  function IndexFrom(cs: seq<Node>, i: nat, k: Key): (r: nat)
    requires i <= |cs|
    ensures i <= r <= |cs| && (r < |cs| ==> cs[r].key == k)
    ensures forall j | i <= j < r :: cs[j].key != k
    decreases |cs| - i
  {
    if i == |cs| || cs[i].key == k then i else IndexFrom(cs, i + 1, k)
  }

  function IndexOf(cs: seq<Node>, k: Key): (i: nat)
    ensures i <= |cs| && (i < |cs| ==> cs[i].key == k)
    ensures forall j | 0 <= j < i :: cs[j].key != k
  {
    IndexFrom(cs, 0, k)
  }

  /** What a node holds at the end of a path below it. */
  function At(n: Node, path: seq<Key>): seq<nat>
    decreases |path|
  {
    if |path| == 0 then n.entries else
      var i := IndexOf(n.children, path[0]);
      if i < |n.children| then At(n.children[i], path[1..]) else []
  }

  /** Depth decides what comes first among children: high priority, then what the names say. */
  function LexicalOrder(name: string): nat
  {
    if IsParam(name) then 1 else if IsWild(name) then 0 else 2
  }

  function Rank(k: Key): nat { (if k.high then 3 else 0) + LexicalOrder(k.name) }

  ghost predicate Distinct(cs: seq<Node>)
  {
    forall i, j | 0 <= i < j < |cs| :: cs[i].key != cs[j].key
  }

  ghost predicate Ranked(cs: seq<Node>)
  {
    forall i, j | 0 <= i < j < |cs| :: Rank(cs[i].key) >= Rank(cs[j].key)
  }

  ghost predicate Ascending(es: seq<nat>)
  {
    forall i, j | 0 <= i < j < |es| :: es[i] < es[j]
  }

  /** A parameter is only known as `:`. */
  function Normal(segment: string): string
  {
    if IsParam(segment) then ":" else segment
  }

  /** No two children of a node have the same key. */
  ghost predicate Tidy(n: Node)
  {
    Distinct(n.children) && forall i | 0 <= i < |n.children| :: Tidy(n.children[i])
  }

  /** The children of a node are in order, all the way down, and none of them for nothing. */
  ghost predicate Sound(n: Node)
  {
    && Ranked(n.children) && Ascending(n.entries)
    && forall i | 0 <= i < |n.children| ::
         Sound(n.children[i]) && !Barren(n.children[i]) && Normal(n.children[i].key.name) == n.children[i].key.name
  }

  // ---------- Adding ----------

  function InsertEntry(es: seq<nat>, x: nat): seq<nat>
  {
    if |es| == 0 then [x] else if x < es[0] then [x] + es else [es[0]] + InsertEntry(es[1..], x)
  }

  lemma {:induction false} InsertEntryKeeps(es: seq<nat>, x: nat)
    requires Ascending(es) && x !in es
    ensures Ascending(InsertEntry(es, x))
    ensures forall y :: y in InsertEntry(es, x) <==> y in es || y == x
  {
    if |es| > 0 && x > es[0] {
      InsertEntryKeeps(es[1..], x);
      assert es == [es[0]] + es[1..];
      var r := InsertEntry(es[1..], x);
      forall i, j | 0 <= i < j < |r| + 1 ensures ([es[0]] + r)[i] < ([es[0]] + r)[j] {
        assert i == 0 ==> r[j - 1] in r;
      }
    } else if |es| > 0 {
      assert es[0] in es;
    }
  }

  /** `upper_bound`: the first child the new one goes before. */
  function UpperBound(cs: seq<Node>, k: Key): (i: nat)
    ensures i <= |cs| && (i < |cs| ==> Rank(k) > Rank(cs[i].key))
    ensures forall j | 0 <= j < i :: Rank(cs[j].key) >= Rank(k)
  {
    if |cs| == 0 || Rank(k) > Rank(cs[0].key) then 0 else 1 + UpperBound(cs[1..], k)
  }

  /** Children in order are partitioned by any newcomer, as the binary search of `upper_bound` needs. */
  lemma Partitioned(cs: seq<Node>, k: Key, j: nat)
    requires Ranked(cs) && j < |cs|
    ensures j < UpperBound(cs, k) <==> Rank(cs[j].key) >= Rank(k)
  {
  }

  /** `emplace` */
  function Spliced(cs: seq<Node>, at: nat, c: Node): (ds: seq<Node>)
    requires at <= |cs|
    ensures |ds| == |cs| + 1
    ensures forall j {:trigger ds[j]} | 0 <= j < |ds| :: ds[j] == if j < at then cs[j] else if j == at then c
              else cs[j - 1]
  {
    cs[..at] + [c] + cs[at..]
  }

  /** `getNode` all the way down a path, and the entry at its end.  Methods are put last. */
  function Insert(n: Node, path: seq<Key>, x: nat, top: bool): (r: Node)
    ensures r.key == n.key && !Barren(r)
    decreases |path|
  {
    if |path| == 0 then n.(entries := InsertEntry(n.entries, x)) else
      var i := IndexOf(n.children, path[0]);
      if i < |n.children| then
        n.(children := n.children[i := Insert(n.children[i], path[1..], x, false)])
      else
        var at := if top then |n.children| else UpperBound(n.children, path[0]);
        n.(children := Spliced(n.children, at, Insert(Node(path[0], [], []), path[1..], x, false)))
  }

  lemma IndexIs(cs: seq<Node>, i: nat)
    requires Distinct(cs) && i < |cs|
    ensures IndexOf(cs, cs[i].key) == i
  {
  }

  lemma InsertChild(cs: seq<Node>, at: nat, c: Node, k: Key)
    requires Distinct(cs) && at <= |cs| && IndexOf(cs, c.key) == |cs|
    ensures var ds, i := Spliced(cs, at, c), IndexOf(cs, k);
            && Distinct(ds) && IndexOf(ds, c.key) == at
            && (k != c.key ==> IndexOf(ds, k) == if i < at then i else i + 1)
  {
    hide Spliced;
    var ds, i := Spliced(cs, at, c), IndexOf(cs, k);
    IndexIs(ds, at);
    if i < |cs| && k != c.key {
      IndexIs(ds, if i < at then i else i + 1);
    }
  }

  /** The child a path goes through is found where it is put, and the others where they were. */
  lemma UpdateChild(cs: seq<Node>, i: nat, c: Node, k: Key)
    requires Distinct(cs) && i < |cs| && c.key == cs[i].key
    ensures Distinct(cs[i := c]) && IndexOf(cs[i := c], k) == IndexOf(cs, k)
  {
    var j := IndexOf(cs, k);
    if j < |cs| {
      IndexIs(cs[i := c], j);
    }
  }

  /** What was at other paths still is, and the entry has joined those at its own. */
  lemma {:induction false} InsertAt(n: Node, path: seq<Key>, x: nat, top: bool, q: seq<Key>)
    requires Tidy(n)
    ensures At(Insert(n, path, x, top), q) == if q == path then InsertEntry(At(n, path), x) else At(n, q)
    decreases |path|
  {
    hide Distinct, InsertEntry, UpperBound;
    if |path| > 0 && |q| > 0 {
      var i := IndexOf(n.children, path[0]);
      assert q == path <==> q[0] == path[0] && q[1..] == path[1..];
      if i < |n.children| {
        var c := Insert(n.children[i], path[1..], x, false);
        UpdateChild(n.children, i, c, q[0]);
        InsertAt(n.children[i], path[1..], x, false, q[1..]);
      } else {
        InsertAtNew(n, path, x, top, q);
        EmptyNode(path[0]);
        InsertAt(Node(path[0], [], []), path[1..], x, false, q[1..]);
      }
    }
  }

  lemma InsertAtNew(n: Node, path: seq<Key>, x: nat, top: bool, q: seq<Key>)
    requires Distinct(n.children) && |path| > 0 && |q| > 0 && IndexOf(n.children, path[0]) == |n.children|
    ensures At(Insert(n, path, x, top), q) ==
            if q[0] == path[0] then At(Insert(Node(path[0], [], []), path[1..], x, false), q[1..]) else At(n, q)
  {
    hide InsertEntry, UpperBound, Spliced, Distinct, IndexOf;
    var c := Insert(Node(path[0], [], []), path[1..], x, false);
    InsertChild(n.children, if top then |n.children| else UpperBound(n.children, path[0]), c, q[0]);
  }

  lemma EmptyNode(k: Key)
    ensures Tidy(Node(k, [], [])) && Sound(Node(k, [], [])) && forall q :: At(Node(k, [], []), q) == []
  {
  }

  lemma {:induction false} InsertTidy(n: Node, path: seq<Key>, x: nat, top: bool)
    requires Tidy(n)
    ensures Tidy(Insert(n, path, x, top))
    decreases |path|
  {
    hide InsertEntry, UpperBound, Spliced, Distinct, IndexOf;
    if |path| > 0 {
      var cs, i := n.children, IndexOf(n.children, path[0]);
      if i < |cs| {
        InsertTidy(cs[i], path[1..], x, false);
        UpdateChild(cs, i, Insert(cs[i], path[1..], x, false), path[0]);
      } else {
        EmptyNode(path[0]);
        InsertTidy(Node(path[0], [], []), path[1..], x, false);
        InsertChild(cs, if top then |cs|
          else UpperBound(cs, path[0]), Insert(Node(path[0], [], []), path[1..], x, false), path[0]);
      }
    }
  }

  ghost predicate NormalPath(path: seq<Key>)
  {
    forall i | 0 <= i < |path| :: Normal(path[i].name) == path[i].name
  }

  /** A new entry leaves every node in order. */
  lemma {:induction false} InsertSound(n: Node, path: seq<Key>, x: nat)
    requires Sound(n) && NormalPath(path) && x !in At(n, path)
    ensures Sound(Insert(n, path, x, false))
    decreases |path|
  {
    hide Spliced, UpperBound, Rank, Ascending, InsertEntry, Distinct;
    if |path| == 0 {
      InsertEntryKeeps(n.entries, x);
    } else {
      var cs, i := n.children, IndexOf(n.children, path[0]);
      if i < |cs| {
        InsertSound(cs[i], path[1..], x);
      } else {
        EmptyNode(path[0]);
        InsertSound(Node(path[0], [], []), path[1..], x);
        InsertSoundNew(cs, Insert(Node(path[0], [], []), path[1..], x, false));
      }
    }
  }

  lemma InsertSoundNew(cs: seq<Node>, c: Node)
    requires Ranked(cs)
    ensures Ranked(Spliced(cs, UpperBound(cs, c.key), c))
  {
    hide Spliced, UpperBound, Rank;
    forall j | 0 <= j < |cs| ensures j < UpperBound(cs, c.key) <==> Rank(cs[j].key) >= Rank(c.key) {
      Partitioned(cs, c.key, j);
    }
  }

  // ---------- Removing ----------

  /** What `cullNode` leaves of the entries of a node: the one that goes is out, and the handlers after it move down. */
  function Lowered(es: seq<nat>, x: nat): seq<nat>
  {
    if |es| == 0 then [] else
      (if es[0] % SPAN > x % SPAN then [es[0] - 1] else if es[0] == x then [] else [es[0]]) + Lowered(es[1..], x)
  }

  function Cull(n: Node, x: nat): Node
    decreases n, |n.children| + 1
  {
    Node(n.key, CullFrom(n, 0, x), Lowered(n.entries, x))
  }

  /** The children from the `i`th on that are still good for something. */
  function CullFrom(n: Node, i: nat, x: nat): seq<Node>
    requires i <= |n.children|
    decreases n, |n.children| - i
  {
    if i == |n.children| then [] else
      var c := Cull(n.children[i], x);
      (if Barren(c) then [] else [c]) + CullFrom(n, i + 1, x)
  }

  lemma {:induction false} LoweredHas(es: seq<nat>, x: nat, y: nat)
    ensures y in Lowered(es, x) <==>
            (y % SPAN >= x % SPAN && (y + 1) % SPAN != 0 && y + 1 in es) || (y % SPAN <= x % SPAN && y != x && y in es)
  {
    if |es| > 0 {
      LoweredHas(es[1..], x, y);
      assert es == [es[0]] + es[1..];
    }
  }

  ghost predicate AloneIn(es: seq<nat>, x: nat)
  {
    forall y | y in es :: y % SPAN == x % SPAN ==> y == x
  }

  /** Entries of different handlers stay in order. */
  lemma LoweredAbove(y: nat, es: seq<nat>, x: nat)
    requires (forall z | z in es :: y < z) && y != x && (y % SPAN == x % SPAN ==> y == x)
    ensures forall z | z in Lowered(es, x) :: z > if y % SPAN > x % SPAN then y - 1 else y
  {
    forall z | z in Lowered(es, x) ensures z > if y % SPAN > x % SPAN then y - 1 else y {
      LoweredHas(es, x, z);
    }
  }

  lemma AscendingRest(es: seq<nat>)
    requires |es| > 0
    ensures Ascending(es) <==> (forall z | z in es[1..] :: es[0] < z) && Ascending(es[1..])
  {
    forall i | 0 < i < |es| ensures es[i] == es[1..][i - 1] && es[i] in es[1..] {
    }
    assert forall i, j | 0 <= i < j < |es| - 1 :: es[1..][i] == es[i + 1] && es[1..][j] == es[j + 1];
  }

  lemma {:induction false} LoweredAscends(es: seq<nat>, x: nat)
    requires Ascending(es) && AloneIn(es, x)
    ensures Ascending(Lowered(es, x))
  {
    hide Ascending;
    if |es| == 0 {
      assert Ascending(Lowered(es, x)) by { AscendingNone(); }
    } else {
      assert es[0] in es && forall y | y in es[1..] :: y in es;
      AscendingRest(es);
      LoweredAscends(es[1..], x);
      var rest := Lowered(es[1..], x);
      if es[0] == x {
        assert Lowered(es, x) == rest;
      } else {
        LoweredAbove(es[0], es[1..], x);
        assert Lowered(es, x)[1..] == rest;
        AscendingRest(Lowered(es, x));
      }
    }
  }

  lemma AscendingNone()
    ensures Ascending([])
  {
  }

  lemma IndexCons(c: Node, rest: seq<Node>, k: Key)
    ensures IndexOf([c] + rest, k) == if c.key == k then 0 else 1 + IndexOf(rest, k)
  {
    var r := IndexOf(rest, k);
    assert r < |rest| ==> ([c] + rest)[1 + r] == rest[r];
    assert forall j | 0 <= j < r :: ([c] + rest)[1 + j] == rest[j];
  }

  /** A child is where it was, if there is still a use for it. */
  lemma {:induction false} CullLookup(n: Node, i: nat, x: nat, k: Key)
    requires Distinct(n.children) && i <= |n.children|
    ensures var cs, ds := n.children, CullFrom(n, i, x);
            var j, d := IndexFrom(cs, i, k), IndexOf(ds, k);
            if j < |cs| && !Barren(Cull(cs[j], x)) then d < |ds| && ds[d] == Cull(cs[j], x) else d == |ds|
    decreases |n.children| - i
  {
    hide Cull, Lowered, Barren, IndexOf;
    var cs := n.children;
    if i < |cs| {
      CullLookup(n, i + 1, x, k);
      CullKey(cs[i], x);
      var c, rest := Cull(cs[i], x), CullFrom(n, i + 1, x);
      IndexCons(c, rest, k);
      assert CullFrom(n, i, x) == if Barren(c) then rest else [c] + rest;
    } else {
      assert CullFrom(n, i, x) == [];
    }
  }

  lemma CullKey(n: Node, x: nat)
    ensures Cull(n, x).key == n.key
  {
  }

  /** Everywhere in the tree the entry has gone and the handlers after it have moved down. */
  lemma {:induction false} CullAt(n: Node, x: nat, q: seq<Key>)
    requires Tidy(n)
    ensures At(Cull(n, x), q) == Lowered(At(n, q), x)
    decreases |q|
  {
    hide Distinct, CullFrom, IndexFrom, Barren;
    if |q| > 0 {
      var i := IndexOf(n.children, q[0]);
      CullLookup(n, 0, x, q[0]);
      if i < |n.children| {
        CullAt(n.children[i], x, q[1..]);
        BarrenAt(Cull(n.children[i], x), q[1..]);
      }
    }
  }

  lemma BarrenAt(n: Node, q: seq<Key>)
    ensures Barren(n) ==> At(n, q) == []
  {
  }

  /** A node is what is left of a child from the `i`th on. */
  ghost predicate LeftOf(n: Node, i: nat, x: nat, d: Node)
  {
    exists j :: i <= j < |n.children| && d == Cull(n.children[j], x) && !Barren(d) && d.key == n.children[j].key
  }

  lemma {:induction false} CullLeft(n: Node, i: nat, x: nat)
    requires i <= |n.children|
    ensures forall d | d in CullFrom(n, i, x) :: LeftOf(n, i, x, d)
    decreases |n.children| - i
  {
    hide Cull, Lowered, Barren;
    if i < |n.children| {
      CullLeft(n, i + 1, x);
      CullKey(n.children[i], x);
      forall d | d in CullFrom(n, i, x) ensures LeftOf(n, i, x, d) {
        assert d in CullFrom(n, i + 1, x) ==> LeftOf(n, i + 1, x, d);
      }
    }
  }

  lemma ConsOrder(c: Node, rest: seq<Node>)
    ensures Distinct(rest) && (forall d | d in rest :: d.key != c.key) ==> Distinct([c] + rest)
    ensures Ranked(rest) && (forall d | d in rest :: Rank(c.key) >= Rank(d.key)) ==> Ranked([c] + rest)
  {
    hide Rank;
    assert forall d | 0 < d < |rest| + 1 :: ([c] + rest)[d] == rest[d - 1] && rest[d - 1] in rest;
  }

  lemma OrderNone()
    ensures Distinct([]) && Ranked([])
  {
  }

  lemma LeftLater(n: Node, i: nat, x: nat, d: Node)
    requires i < |n.children| && LeftOf(n, i + 1, x, d)
    ensures Distinct(n.children) ==> d.key != n.children[i].key
    ensures Ranked(n.children) ==> Rank(n.children[i].key) >= Rank(d.key)
  {
    hide Rank, Cull, Barren;
  }

  /** What is left of the children of a node is left in their order. */
  lemma {:induction false} CullOrder(n: Node, i: nat, x: nat)
    requires i <= |n.children|
    ensures var cs, ds := n.children, CullFrom(n, i, x);
            && (Distinct(cs) ==> Distinct(ds)) && (Ranked(cs) ==> Ranked(ds))
            && forall d | 0 <= d < |ds| :: LeftOf(n, i, x, ds[d])
    decreases |n.children| - i
  {
    hide Cull, Lowered, Barren, Rank, Distinct, Ranked, LeftOf;
    CullLeft(n, i, x);
    if i == |n.children| {
      OrderNone();
    } else {
      CullOrder(n, i + 1, x);
      CullLeft(n, i + 1, x);
      CullKey(n.children[i], x);
      var c, rest := Cull(n.children[i], x), CullFrom(n, i + 1, x);
      assert CullFrom(n, i, x) == if Barren(c) then rest else [c] + rest;
      ConsOrder(c, rest);
      forall d | d in rest
        ensures Distinct(n.children) ==> d.key != c.key
        ensures Ranked(n.children) ==> Rank(c.key) >= Rank(d.key)
      {
        LeftLater(n, i, x, d);
      }
    }
  }

  lemma {:induction false} CullTidy(n: Node, x: nat)
    requires Tidy(n)
    ensures Tidy(Cull(n, x))
  {
    hide Distinct, Lowered, CullFrom;
    CullOrder(n, 0, x);
    forall i | 0 <= i < |n.children| ensures Tidy(Cull(n.children[i], x)) {
      CullTidy(n.children[i], x);
    }
  }

  /** No other entry of the tree is of the same handler. */
  ghost predicate Alone(n: Node, x: nat)
  {
    AloneIn(n.entries, x) && forall i | 0 <= i < |n.children| :: Alone(n.children[i], x)
  }

  lemma {:induction false} CullSound(n: Node, x: nat)
    requires Sound(n) && Alone(n, x)
    ensures Sound(Cull(n, x))
  {
    hide Ranked, Lowered, CullFrom, Ascending, AloneIn, Normal;
    CullOrder(n, 0, x);
    LoweredAscends(n.entries, x);
    forall i | 0 <= i < |n.children| ensures Sound(Cull(n.children[i], x)) {
      CullSound(n.children[i], x);
    }
  }

  // ---------- Searching ----------

  /** A handler that is run, and the parameters it sees. */
  datatype Run = Run(entry: nat, params: seq<string>)

  function Runs(es: seq<nat>, params: seq<string>): (rs: seq<Run>)
    ensures |rs| == |es| && forall i {:trigger rs[i]} | 0 <= i < |es| :: rs[i] == Run(es[i], params)
  {
    seq(|es|, i requires 0 <= i < |es| => Run(es[i], params))
  }

  /** Everything the search would run below a node if every handler yielded. */
  function Found(n: Node, segments: seq<string>, params: seq<string>): seq<Run>
    decreases n, |n.children| + 1
  {
    if |segments| == 0 then Runs(n.entries, params) else FoundFrom(n, 0, segments, params)
  }

  function FoundFrom(n: Node, i: nat, segments: seq<string>, params: seq<string>): seq<Run>
    requires |segments| > 0 && i <= |n.children|
    decreases n, |n.children| - i
  {
    if i == |n.children| then [] else FoundIn(n.children[i], segments, params) + FoundFrom(n, i + 1, segments, params)
  }

  function FoundIn(c: Node, segments: seq<string>, params: seq<string>): seq<Run>
    requires |segments| > 0
    decreases c, |c.children| + 2
  {
    if IsWild(c.key.name) then Runs(c.entries, params)
    else if IsParam(c.key.name) && |segments[0]| > 0 then Found(c, segments[1..], params + [segments[0]])
    else if c.key.name == segments[0] then Found(c, segments[1..], params)
    else []
  }

  /** A name other than a wildcard matches a segment: a parameter anything, a static name itself. */
  predicate One(name: string, segment: string)
  {
    !IsWild(name) && if IsParam(name) then |segment| > 0 else name == segment
  }

  /** A pattern matches a URL: segment by segment, unless it ends in a wildcard, which stands for one segment or
    * more. */
  ghost predicate Fits(path: seq<Key>, segments: seq<string>)
  {
    var n := |path|;
    if n > 0 && IsWild(path[n - 1].name) then
      |segments| >= n && forall i | 0 <= i < n - 1 :: One(path[i].name, segments[i])
    else
      |segments| == n && forall i | 0 <= i < n :: One(path[i].name, segments[i])
  }

  /** The segments where the pattern has parameters. */
  function Parameters(path: seq<Key>, segments: seq<string>): seq<string>
  {
    if |path| == 0 || |segments| == 0 then [] else
      (if IsParam(path[0].name) then [segments[0]] else []) + Parameters(path[1..], segments[1..])
  }

  lemma FitsStep(path: seq<Key>, segments: seq<string>)
    requires |path| > 0 && |segments| > 0
    ensures Fits(path, segments) <==>
            if IsWild(path[0].name) then |path| == 1
            else One(path[0].name, segments[0]) && Fits(path[1..], segments[1..])
  {
    hide IsParam, IsWild;
    var p, s := path[1..], segments[1..];
    assert forall i | 0 <= i < |p| :: p[i] == path[i + 1];
    assert forall i | 0 <= i < |s| :: s[i] == segments[i + 1];
    assert forall i | 0 < i < |path| :: path[i] == p[i - 1];
    assert forall i | 0 < i < |segments| :: segments[i] == s[i - 1];
  }

  ghost predicate Hits(n: Node, path: seq<Key>, segments: seq<string>, params: seq<string>, run: Run)
  {
    run.entry in At(n, path) && Fits(path, segments) && run.params == params + Parameters(path, segments)
  }

  lemma {:induction false} FoundFromHas(n: Node, i: nat, segments: seq<string>, params: seq<string>, run: Run)
    requires |segments| > 0 && i <= |n.children|
    ensures run in FoundFrom(n, i, segments, params) <==>
            exists j :: i <= j < |n.children| && run in FoundIn(n.children[j], segments, params)
    decreases |n.children| - i
  {
    hide FoundIn;
    if i < |n.children| {
      FoundFromHas(n, i + 1, segments, params, run);
    }
  }

  /** What the search finds below a child is what the patterns through it find. */
  lemma ThroughChild(n: Node, i: nat, path: seq<Key>, segments: seq<string>, params: seq<string>, run: Run)
    requires Tidy(n) && i < |n.children| && |segments| > 0 && |path| > 0 && path[0] == n.children[i].key
    ensures var c := n.children[i];
            Hits(n, path, segments, params, run) <==>
            if IsWild(c.key.name) then |path| == 1 && run.entry in c.entries && run.params == params
            else if IsParam(c.key.name) then
              |segments[0]| > 0 && Hits(c, path[1..], segments[1..], params + [segments[0]], run)
            else c.key.name == segments[0] && Hits(c, path[1..], segments[1..], params, run)
  {
    hide Fits, IndexFrom;
    FitsStep(path, segments);
    IndexIs(n.children, i);
    Assoc3(params, [segments[0]], Parameters(path[1..], segments[1..]));
    assert IsWild(path[0].name) ==> !IsParam(path[0].name);
    assert params + [] == params;
    var rest := Parameters(path[1..], segments[1..]);
    assert Parameters(path, segments) == if IsParam(path[0].name) then [segments[0]] + rest else rest;
    assert At(n, path) == At(n.children[i], path[1..]);
    assert |path| == 1 ==> path[1..] == [] && rest == [] && At(n, path) == n.children[i].entries;
  }

  lemma RunsHave(es: seq<nat>, params: seq<string>, run: Run)
    ensures run in Runs(es, params) <==> run.entry in es && run.params == params
  {
    hide Runs;
    if run.entry in es {
      var i :| 0 <= i < |es| && es[i] == run.entry;
      assert Runs(es, params)[i] == Run(run.entry, params);
    }
  }

  /** Whatever the search runs, its pattern matches, with the parameters at its places. */
  lemma {:induction false} FoundSound(n: Node, segments: seq<string>, params: seq<string>, run: Run)
    returns (path: seq<Key>)
    requires Tidy(n) && run in Found(n, segments, params)
    ensures Hits(n, path, segments, params, run)
    decreases n
  {
    hide Distinct, IndexFrom;
    if |segments| == 0 {
      path := [];
    } else {
      FoundFromHas(n, 0, segments, params, run);
      var i :| 0 <= i < |n.children| && run in FoundIn(n.children[i], segments, params);
      var c := n.children[i];
      if IsWild(c.key.name) {
        path := [c.key];
      } else {
        var tail := FoundSound(c, segments[1..], if IsParam(c.key.name) then params + [segments[0]] else params, run);
        path := [c.key] + tail;
        assert path[1..] == tail;
      }
      ThroughChild(n, i, path, segments, params, run);
    }
  }

  /** Whatever pattern matches, the search comes to what it holds. */
  lemma {:induction false} FoundComplete(n: Node, path: seq<Key>, segments: seq<string>, params: seq<string>, run: Run)
    requires Tidy(n) && Hits(n, path, segments, params, run)
    ensures run in Found(n, segments, params)
    decreases |path|
  {
    hide Distinct, IndexFrom, Runs;
    if |path| == 0 {
      assert params + [] == params;
      RunsHave(n.entries, params, run);
    } else {
      assert |segments| > 0;
      var i := IndexOf(n.children, path[0]);
      var c := n.children[i];
      ThroughChild(n, i, path, segments, params, run);
      if IsWild(c.key.name) {
        RunsHave(c.entries, params, run);
      } else {
        FoundComplete(c, path[1..], segments[1..], if IsParam(c.key.name) then params + [segments[0]] else params, run);
      }
      assert run in FoundIn(c, segments, params);
      FoundFromHas(n, 0, segments, params, run);
    }
  }
}
