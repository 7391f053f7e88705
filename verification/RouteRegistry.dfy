/** What the matching tree of HttpRouter.h stands for: the list of the routes registered, in the order of their
  * handlers. */
module RouteRegistry {
  import opened Bytes
  import opened RouteTree
  import opened UrlSegments

  /** A handler, registered for a method and a pattern at a priority. */
  datatype Route = Registration(path: seq<Key>, priority: nat, handler: nat)

  /** The keys of a pattern's nodes below the method. */
  function PathOf(segments: seq<string>, high: bool): (path: seq<Key>)
    ensures |path| == |segments|
  {
    if |segments| == 0 then [] else [Key(Normal(segments[0]), high)] + PathOf(segments[1..], high)
  }

  function FullPath(verb: string, pattern: string, priority: nat): (path: seq<Key>)
    ensures |path| > 0
  {
    [Key(verb, false)] + PathOf(Kept(pattern), priority == HIGH_PRIORITY)
  }

  /** The handler of a route, or how many there are. */
  function Position(routes: seq<Route>, path: seq<Key>, priority: nat): (k: nat)
    ensures k <= |routes| && (k < |routes| ==> routes[k].path == path && routes[k].priority == priority)
    ensures forall j | 0 <= j < k :: routes[j].path != path || routes[j].priority != priority
  {
    if |routes| == 0 || (routes[0].path == path && routes[0].priority == priority) then 0
    else 1 + Position(routes[1..], path, priority)
  }

  function Without(routes: seq<Route>, k: nat): seq<Route>
  {
    if k < |routes| then routes[..k] + routes[k + 1..] else routes
  }

  /** An entry of the tree is the route it names. */
  ghost predicate Registered(routes: seq<Route>, path: seq<Key>, x: nat)
  {
    var k := x % SPAN;
    k < |routes| && routes[k].path == path && x == routes[k].priority + k
  }

  ghost predicate Denotes(root: Node, routes: seq<Route>)
  {
    forall path, x :: x in At(root, path) <==> Registered(routes, path, x)
  }

  /** Routes are told apart by method, pattern and priority, and there are fewer of them than handlers have numbers. */
  ghost predicate Proper(routes: seq<Route>)
  {
    && |routes| < SPAN
    && (forall k | 0 <= k < |routes| :: IsPriority(routes[k].priority) && |routes[k].path| > 0)
    && forall i, j | 0 <= i < j < |routes| ::
         routes[i].path != routes[j].path || routes[i].priority != routes[j].priority
  }

  lemma Split(p: nat, k: nat)
    requires IsPriority(p) && k < SPAN
    ensures (p + k) % SPAN == k && (p + k) - (p + k) % SPAN == p
    ensures (p + k == 0xffffffff <==> p == LOW_PRIORITY && k == SPAN - 1)
  {
  }

  /** Every handler has one place in the tree, and only one. */
  lemma EachHandlerOnce(root: Node, routes: seq<Route>, k: nat, path: seq<Key>, x: nat)
    requires Denotes(root, routes) && Proper(routes) && k < |routes|
    ensures x in At(root, path) && x % SPAN == k <==> path == routes[k].path && x == routes[k].priority + k
  {
    Split(routes[k].priority, k);
    assert x in At(root, path) <==> Registered(routes, path, x);
  }

  /** There is nothing else in the tree, and in no node two entries of one priority. */
  lemma OnlyHandlers(root: Node, routes: seq<Route>, path: seq<Key>, x: nat, y: nat)
    requires Denotes(root, routes) && Proper(routes) && x in At(root, path) && y in At(root, path)
    ensures x % SPAN < |routes|
    ensures x - x % SPAN == y - y % SPAN ==> x == y
  {
    assert Registered(routes, path, x) && Registered(routes, path, y);
  }

  // ---------- Adding and removing ----------

  lemma {:induction false} AloneAt(n: Node, x: nat)
    requires Tidy(n) && forall q, y | y in At(n, q) :: y % SPAN == x % SPAN ==> y == x
    ensures Alone(n, x)
  {
    hide Distinct, IndexFrom;
    assert At(n, []) == n.entries;
    forall i | 0 <= i < |n.children| ensures Alone(n.children[i], x) {
      var c := n.children[i];
      forall q, y | y in At(c, q) ensures y % SPAN == x % SPAN ==> y == x {
        IndexIs(n.children, i);
        assert ([c.key] + q)[1..] == q;
        assert y in At(n, [c.key] + q);
      }
      AloneAt(c, x);
    }
  }

  /** What a handler's number becomes when an earlier one goes. */
  lemma RegisteredWithout(routes: seq<Route>, k: nat, path: seq<Key>, y: nat)
    requires Proper(routes) && k < |routes|
    ensures var x := routes[k].priority + k;
            Registered(Without(routes, k), path, y) <==>
            || (y % SPAN >= x % SPAN && (y + 1) % SPAN != 0 && Registered(routes, path, y + 1))
            || (y % SPAN <= x % SPAN && y != x && Registered(routes, path, y))
  {
    Split(routes[k].priority, k);
    var j := y % SPAN;
    assert (y + 1) % SPAN == if j + 1 == SPAN then 0 else j + 1;
    assert j < |routes| - 1 ==> Without(routes, k)[j] == routes[if j < k then j else j + 1];
  }

  lemma RemoveDenotes(root: Node, routes: seq<Route>, k: nat)
    requires Tidy(root) && Denotes(root, routes) && Proper(routes) && k < |routes|
    ensures Denotes(Cull(root, routes[k].priority + k), Without(routes, k)) && Proper(Without(routes, k))
    ensures Alone(root, routes[k].priority + k)
  {
    hide Cull, Tidy, At, Registered, Without, Lowered, Alone, Proper;
    var x := routes[k].priority + k;
    forall path, y ensures y in At(Cull(root, x), path) <==> Registered(Without(routes, k), path, y) {
      CullAt(root, x, path);
      LoweredHas(At(root, path), x, y);
      RegisteredWithout(routes, k, path, y);
    }
    forall q, y | y in At(root, q) ensures y % SPAN == x % SPAN ==> y == x {
      SameHandler(routes, k, q, y);
    }
    AloneAt(root, x);
    WithoutProper(routes, k);
  }

  lemma SameHandler(routes: seq<Route>, k: nat, q: seq<Key>, y: nat)
    requires Proper(routes) && k < |routes| && Registered(routes, q, y)
    ensures y % SPAN == (routes[k].priority + k) % SPAN ==> y == routes[k].priority + k
  {
    Split(routes[k].priority, k);
  }

  lemma WithoutProper(routes: seq<Route>, k: nat)
    requires Proper(routes)
    ensures Proper(Without(routes, k))
  {
    if k < |routes| {
      var r := Without(routes, k);
      assert forall j | 0 <= j < |r| :: r[j] == routes[if j < k then j else j + 1];
    }
  }

  lemma AddDenotes(root: Node, routes: seq<Route>, r: Route)
    requires Tidy(root) && Denotes(root, routes) && Proper(routes)
    requires Position(routes, r.path, r.priority) == |routes| && IsPriority(r.priority) && |r.path| > 0
    requires |routes| + 1 < SPAN
    ensures var x := r.priority + |routes|;
            x !in At(root, r.path) && Denotes(Insert(root, r.path, x, true), routes + [r]) && Proper(routes + [r])
  {
    hide Tidy, At, Insert, InsertEntry;
    var x, all := r.priority + |routes|, routes + [r];
    Split(r.priority, |routes|);
    assert !Registered(routes, r.path, x);
    forall path, y ensures y in At(Insert(root, r.path, x, true), path) <==> Registered(all, path, y) {
      InsertAt(root, r.path, x, true, path);
      InsertEntryHas(At(root, r.path), x, y);
      assert y in At(root, path) <==> Registered(routes, path, y);
      RegisteredLast(routes, r, path, y);
    }
    forall k | 0 <= k < |routes| ensures all[k] == routes[k] {
    }
  }

  lemma {:induction false} InsertEntryHas(es: seq<nat>, x: nat, y: nat)
    ensures y in InsertEntry(es, x) <==> y in es || y == x
  {
    if |es| > 0 {
      InsertEntryHas(es[1..], x, y);
      assert es == [es[0]] + es[1..];
    }
  }

  lemma RegisteredLast(routes: seq<Route>, r: Route, path: seq<Key>, y: nat)
    requires IsPriority(r.priority) && |routes| < SPAN
    ensures Registered(routes + [r], path, y) <==>
            Registered(routes, path, y) || (path == r.path && y == r.priority + |routes|)
  {
    Split(r.priority, |routes|);
  }

  // ---------- The methods ----------

  const ANY_METHOD_TOKEN := "*"

  /** `operator<` of strings */
  predicate Less(a: string, b: string)
  {
    |b| > 0 && (|a| == 0 || a[0] < b[0] || (a[0] == b[0] && Less(a[1..], b[1..])))
  }

  /** GET comes first and ANY last. */
  predicate MethodBefore(a: string, b: string)
  {
    if a == "GET" || b == "GET" then a == "GET" && b != "GET"
    else if a == ANY_METHOD_TOKEN || b == ANY_METHOD_TOKEN then b == ANY_METHOD_TOKEN && a != ANY_METHOD_TOKEN
    else Less(a, b)
  }

  lemma {:induction false} LessTotal(a: string, b: string)
    ensures Less(a, b) || Less(b, a) || a == b
    ensures !(Less(a, b) && Less(b, a)) && !Less(a, a)
  {
    if |a| > 0 && |b| > 0 && a[0] == b[0] {
      LessTotal(a[1..], b[1..]);
      assert a[1..] == b[1..] ==> a == [a[0]] + a[1..] == b;
    }
    if |a| > 0 {
      LessTotal(a[1..], a[1..]);
    }
  }

  lemma {:induction false} LessTransitive(a: string, b: string, c: string)
    requires Less(a, b) && Less(b, c)
    ensures Less(a, c)
  {
    if |a| > 0 && a[0] == b[0] == c[0] {
      LessTransitive(a[1..], b[1..], c[1..]);
    }
  }

  /** `std::sort`, one at a time. */
  function SortMethods(cs: seq<Node>): seq<Node>
  {
    if |cs| == 0 then [] else PutMethod(SortMethods(cs[1..]), cs[0])
  }

  function PutMethod(cs: seq<Node>, c: Node): seq<Node>
  {
    if |cs| == 0 || MethodBefore(c.key.name, cs[0].key.name) then [c] + cs else [cs[0]] + PutMethod(cs[1..], c)
  }

  /** Each method comes before all the later ones. */
  ghost predicate MethodsSorted(cs: seq<Node>)
  {
    forall i, j | 0 <= i < j < |cs| :: MethodBefore(cs[i].key.name, cs[j].key.name)
  }

  ghost predicate AllLow(cs: seq<Node>)
  {
    forall i | 0 <= i < |cs| :: !cs[i].key.high
  }

  lemma MethodTotal(a: string, b: string)
    ensures MethodBefore(a, b) || MethodBefore(b, a) || a == b
  {
    LessTotal(a, b);
  }

  lemma MethodTransitive(a: string, b: string, c: string)
    requires MethodBefore(a, b) && MethodBefore(b, c)
    ensures MethodBefore(a, c)
  {
    hide Less;
    if Less(a, b) && Less(b, c) {
      LessTransitive(a, b, c);
    }
  }

  lemma MethodStrict(a: string)
    ensures !MethodBefore(a, a)
  {
    LessTotal(a, a);
  }

  lemma SortedRest(cs: seq<Node>)
    requires |cs| > 0
    ensures MethodsSorted(cs) <==>
            MethodsSorted(cs[1..]) && forall d | d in cs[1..] :: MethodBefore(cs[0].key.name, d.key.name)
  {
    hide MethodBefore;
    forall i | 0 < i < |cs| ensures cs[i] == cs[1..][i - 1] && cs[i] in cs[1..] {
    }
    assert forall i, j | 0 <= i < j < |cs| - 1 :: cs[1..][i] == cs[i + 1] && cs[1..][j] == cs[j + 1];
  }

  lemma {:induction false} PutHas(cs: seq<Node>, c: Node, d: Node)
    ensures d in PutMethod(cs, c) <==> d in cs || d == c
  {
    hide MethodBefore;
    if |cs| > 0 {
      assert cs == [cs[0]] + cs[1..];
      PutHas(cs[1..], c, d);
    }
  }

  lemma {:induction false} SortHas(cs: seq<Node>, d: Node)
    ensures d in SortMethods(cs) <==> d in cs
  {
    if |cs| > 0 {
      assert cs == [cs[0]] + cs[1..];
      SortHas(cs[1..], d);
      PutHas(SortMethods(cs[1..]), cs[0], d);
    }
  }

  lemma SortedFew(c: Node)
    ensures MethodsSorted([]) && MethodsSorted([c])
  {
  }

  /** What is put into a sorted list comes to its place. */
  lemma {:induction false} PutSorted(cs: seq<Node>, c: Node)
    requires MethodsSorted(cs) && forall d | d in cs :: d.key.name != c.key.name
    ensures MethodsSorted(PutMethod(cs, c))
  {
    hide MethodBefore, MethodsSorted;
    if |cs| == 0 {
      SortedFew(c);
      assert [c] + cs == [c];
    } else {
      assert cs[0] in cs && forall d | d in cs[1..] :: d in cs;
      SortedRest(cs);
      MethodTotal(c.key.name, cs[0].key.name);
      PutSorted(cs[1..], c);
      var whole := PutMethod(cs, c);
      forall d | d in whole[1..] ensures MethodBefore(whole[0].key.name, d.key.name) {
        PutBelow(cs, c, d);
      }
      assert whole[1..] == cs || whole[1..] == PutMethod(cs[1..], c);
      SortedRest(whole);
    }
  }

  lemma PutBelow(cs: seq<Node>, c: Node, d: Node)
    requires |cs| > 0 && MethodsSorted(cs) && cs[0].key.name != c.key.name && d in PutMethod(cs, c)[1..]
    ensures MethodBefore(PutMethod(cs, c)[0].key.name, d.key.name)
  {
    hide MethodBefore, MethodsSorted;
    SortedRest(cs);
    MethodTotal(c.key.name, cs[0].key.name);
    assert cs == [cs[0]] + cs[1..];
    if MethodBefore(c.key.name, cs[0].key.name) {
      assert ([c] + cs)[1..] == cs;
      if d != cs[0] {
        MethodTransitive(c.key.name, cs[0].key.name, d.key.name);
      }
    } else {
      assert ([cs[0]] + PutMethod(cs[1..], c))[1..] == PutMethod(cs[1..], c);
      PutHas(cs[1..], c, d);
    }
  }

  /** Children of the root with different names, as the root's are. */
  ghost predicate Names(cs: seq<Node>)
  {
    AllLow(cs) && Distinct(cs)
  }

  lemma {:induction false} SortSorted(cs: seq<Node>)
    requires Names(cs)
    ensures MethodsSorted(SortMethods(cs))
  {
    hide MethodsSorted, PutMethod;
    if |cs| == 0 {
      SortedFew(Node(Key("", false), [], []));
    } else {
      SortSorted(cs[1..]);
      forall d | d in SortMethods(cs[1..]) ensures d.key.name != cs[0].key.name {
        SortHas(cs[1..], d);
        var i :| 0 <= i < |cs| - 1 && cs[1..][i] == d;
        assert cs[i + 1] == d;
      }
      PutSorted(SortMethods(cs[1..]), cs[0]);
    }
  }

  lemma SortedNames(cs: seq<Node>)
    requires MethodsSorted(cs)
    ensures Distinct(cs)
  {
    hide Less;
    forall i, j | 0 <= i < j < |cs| ensures cs[i].key != cs[j].key {
      MethodStrict(cs[i].key.name);
    }
  }

  // ---------- The whole tree ----------

  /** The root: methods in their order, everything below in order, and no node without a use but the ANY node. */
  ghost predicate SoundRoot(root: Node)
  {
    && Tidy(root) && |root.entries| == 0 && MethodsSorted(root.children) && AllLow(root.children)
    && forall c | c in root.children :: Sound(c) && (!Barren(c) || c.key.name == ANY_METHOD_TOKEN)
  }

  /** An entry and the nodes on its way, and the methods sorted again. */
  function Grown(root: Node, path: seq<Key>, x: nat): Node
  {
    var r := Insert(root, path, x, true);
    r.(children := SortMethods(r.children))
  }

  lemma SortedTidy(root: Node)
    requires Tidy(root) && AllLow(root.children)
    ensures var r := root.(children := SortMethods(root.children));
              Tidy(r) && MethodsSorted(r.children) && AllLow(r.children)
  {
    hide MethodsSorted, SortMethods;
    SortSorted(root.children);
    SortedNames(SortMethods(root.children));
    forall i | 0 <= i < |SortMethods(root.children)|
      ensures Tidy(SortMethods(root.children)[i]) && !SortMethods(root.children)[i].key.high
    {
      SortHas(root.children, SortMethods(root.children)[i]);
    }
  }

  /** Sorting loses nothing. */
  lemma SortedAt(root: Node, q: seq<Key>)
    requires Tidy(root) && AllLow(root.children)
    ensures At(root.(children := SortMethods(root.children)), q) == At(root, q)
  {
    hide MethodsSorted, SortMethods, IndexFrom;
    var cs, ds := root.children, SortMethods(root.children);
    if |q| > 0 {
      SortedTidy(root);
      var i, j := IndexOf(cs, q[0]), IndexOf(ds, q[0]);
      if i < |cs| {
        SortHas(cs, cs[i]);
        var k :| 0 <= k < |ds| && ds[k] == cs[i];
        IndexIs(ds, k);
      } else if j < |ds| {
        SortHas(cs, ds[j]);
      }
    }
  }

  lemma GrownSound(root: Node, path: seq<Key>, x: nat)
    requires SoundRoot(root) && |path| > 0 && !path[0].high && NormalPath(path[1..]) && x !in At(root, path)
    ensures SoundRoot(Grown(root, path, x))
  {
    hide Sound, SortMethods, NormalPath, MethodsSorted, Spliced, IndexFrom, Barren;
    var r := Insert(root, path, x, true);
    InsertTidy(root, path, x, true);
    InsertedMethods(root, path, x);
    SortedTidy(r);
    forall c | c in SortMethods(r.children) ensures Sound(c) && (!Barren(c) || c.key.name == ANY_METHOD_TOKEN) {
      SortHas(r.children, c);
    }
  }

  lemma InsertedMethods(root: Node, path: seq<Key>, x: nat)
    requires SoundRoot(root) && |path| > 0 && !path[0].high && NormalPath(path[1..]) && x !in At(root, path)
    ensures var r := Insert(root, path, x, true);
            && AllLow(r.children) && |r.entries| == 0
            && forall c | c in r.children :: Sound(c) && (!Barren(c) || c.key.name == ANY_METHOD_TOKEN)
  {
    hide Sound, NormalPath, MethodsSorted, Spliced, IndexFrom, Tidy, Barren;
    var cs, i := root.children, IndexOf(root.children, path[0]);
    if i < |cs| {
      InsertSound(cs[i], path[1..], x);
    } else {
      EmptyNode(path[0]);
      InsertSound(Node(path[0], [], []), path[1..], x);
    }
  }

  lemma {:induction false} CulledMethods(root: Node, i: nat, x: nat)
    requires i <= |root.children| && MethodsSorted(root.children)
    ensures MethodsSorted(CullFrom(root, i, x))
    decreases |root.children| - i
  {
    hide MethodBefore, Cull, MethodsSorted, Barren, Distinct, Ranked;
    if i < |root.children| {
      CulledMethods(root, i + 1, x);
      var c, rest := Cull(root.children[i], x), CullFrom(root, i + 1, x);
      assert CullFrom(root, i, x) == if Barren(c) then rest else [c] + rest;
      CullOrder(root, i + 1, x);
      CullKey(root.children[i], x);
      forall d | d in rest ensures MethodBefore(c.key.name, d.key.name) {
        var j :| 0 <= j < |rest| && rest[j] == d;
        assert LeftOf(root, i + 1, x, d);
        InOrder(root.children, i, d.key);
      }
      assert ([c] + rest)[1..] == rest;
      SortedRest([c] + rest);
    } else {
      SortedFew(root);
    }
  }

  lemma InOrder(cs: seq<Node>, i: nat, k: Key)
    requires MethodsSorted(cs) && i < |cs| && exists j :: i < j < |cs| && cs[j].key == k
    ensures MethodBefore(cs[i].key.name, k.name)
  {
  }

  lemma CulledSound(root: Node, x: nat)
    requires SoundRoot(root) && Alone(root, x)
    ensures SoundRoot(Cull(root, x)) && forall c | c in Cull(root, x).children :: !Barren(c)
  {
    hide Tidy, MethodsSorted, CullFrom, Sound, Barren, Ranked, Distinct, AloneIn;
    CullTidy(root, x);
    CulledMethods(root, 0, x);
    CullOrder(root, 0, x);
    forall i | 0 <= i < |root.children| ensures Sound(Cull(root.children[i], x)) {
      CullSound(root.children[i], x);
    }
  }

  // ---------- Routing ----------

  ghost predicate HasAny(root: Node)
  {
    exists c :: c in root.children && c.key.name == ANY_METHOD_TOKEN
  }

  /** The last method is ANY, if there is one. */
  lemma LastIsAny(root: Node)
    requires SoundRoot(root) && |root.children| > 0
    ensures HasAny(root) <==> root.children[|root.children| - 1].key.name == ANY_METHOD_TOKEN
  {
    hide Tidy, Sound;
    if HasAny(root) {
      var i :| 0 <= i < |root.children| && root.children[i].key.name == ANY_METHOD_TOKEN;
      assert i < |root.children| - 1 ==>
               MethodBefore(root.children[i].key.name, root.children[|root.children| - 1].key.name);
    }
  }
}
