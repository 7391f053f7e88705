/** HttpRouter.h: routes are added to and removed from a matching tree, which is searched with a stack of parameters and
  * a cache of URL segments. */
module HttpRouter {
  import opened Bytes
  import opened RouteTree
  import opened RouteRegistry
  import opened UrlSegments

  const UINT32_MAX: nat := 0xffffffff

  // ---------- What a search does ----------

  /** The handlers that run: all of them, up to the first that does not yield. */
  function Taken(found: seq<Run>, takes: nat -> bool, at: nat): seq<Run>
  {
    if |found| == 0 then [] else [found[0]] + if takes(at) then [] else Taken(found[1..], takes, at + 1)
  }

  predicate Answered(found: seq<Run>, takes: nat -> bool, at: nat)
  {
    |found| > 0 && (takes(at) || Answered(found[1..], takes, at + 1))
  }

  lemma {:induction false} TakenConcat(a: seq<Run>, b: seq<Run>, takes: nat -> bool, at: nat)
    ensures Answered(a + b, takes, at) <==> Answered(a, takes, at) || Answered(b, takes, at + |a|)
    ensures Taken(a + b, takes, at) ==
            if Answered(a, takes, at) then Taken(a, takes, at) else a + Taken(b, takes, at + |a|)
    ensures !Answered(a, takes, at) ==> Taken(a, takes, at) == a
  {
    if |a| == 0 {
      assert a + b == b;
    } else {
      var rest := a[1..];
      assert (a + b)[1..] == rest + b && (a + b)[0] == a[0] && a == [a[0]] + rest;
      TakenConcat(rest, b, takes, at + 1);
      Assoc3([a[0]], rest, Taken(b, takes, at + |a|));
    }
  }

  /** The handlers run so far, and whether one has taken the request. */
  function Outcome(found: seq<Run>, takes: nat -> bool, ran: seq<Run>): (seq<Run>, bool)
  {
    (ran + Taken(found, takes, |ran|), Answered(found, takes, |ran|))
  }

  lemma OutcomeConcat(a: seq<Run>, b: seq<Run>, takes: nat -> bool, ran: seq<Run>)
    ensures var o := Outcome(a, takes, ran); Outcome(a + b, takes, ran) == if o.1 then o else Outcome(b, takes, o.0)
  {
    TakenConcat(a, b, takes, |ran|);
    Assoc3(ran, a, Taken(b, takes, |ran| + |a|));
  }

  lemma OutcomeNone(takes: nat -> bool, ran: seq<Run>)
    ensures Outcome([], takes, ran) == (ran, false)
  {
    assert ran + [] == ran;
  }

  lemma OutcomeOne(run: Run, takes: nat -> bool, ran: seq<Run>)
    ensures Outcome([run], takes, ran) == (ran + [run], takes(|ran|))
  {
    assert [run][1..] == [] && !Answered([], takes, |ran| + 1) && Taken([], takes, |ran| + 1) == [];
    assert Answered([run], takes, |ran|) == takes(|ran|);
    assert Taken([run], takes, |ran|) == [run];
  }

  /** What a request comes to: the routes of its method, then those of the last method, which ought to be ANY. */
  function Candidates(root: Node, verb: string, url: string): seq<Run>
  {
    var cs := root.children;
    if |cs| == 0 then [] else
      var m := IndexOf(cs, Key(verb, false));
      (if m < |cs| && Slashes(url) <= MAX_URL_SEGMENTS then Found(cs[m], Kept(url), []) else [])
      + Found(cs[|cs| - 1], Kept(url), [])
  }

  lemma CandidatesParts(root: Node, verb: string, url: string, takes: nat -> bool)
    ensures var cs, all := root.children, Outcome(Candidates(root, verb, url), takes, []);
            var m := IndexOf(cs, Key(verb, false));
            if |cs| == 0 then all == ([], false)
            else if m == |cs| || Slashes(url) > MAX_URL_SEGMENTS then
              all == Outcome(Found(cs[|cs| - 1], Kept(url), []), takes, [])
            else
              var o := Outcome(Found(cs[m], Kept(url), []), takes, []);
              all == if o.1 then o else Outcome(Found(cs[|cs| - 1], Kept(url), []), takes, o.0)
  {
    hide Found, Outcome, Slashes, Kept, IndexFrom;
    var cs, m := root.children, IndexOf(root.children, Key(verb, false));
    OutcomeNone(takes, []);
    if |cs| > 0 {
      var last := Found(cs[|cs| - 1], Kept(url), []);
      assert [] + last == last;
      if m < |cs| {
        OutcomeConcat(Found(cs[m], Kept(url), []), last, takes, []);
      }
    }
  }

  /** A route is asked for: by its method, unless the URL is too long, or by being of the last method. */
  ghost predicate Asked(root: Node, r: Route, verb: string, url: string)
  {
    && |root.children| > 0 && |r.path| > 0
    && (r.path[0] == root.children[|root.children| - 1].key
        || (r.path[0] == Key(verb, false) && Slashes(url) <= MAX_URL_SEGMENTS))
  }

  ghost predicate Matches(root: Node, routes: seq<Route>, k: nat, verb: string, url: string, run: Run)
  {
    && k < |routes| && run.entry == routes[k].priority + k && Asked(root, routes[k], verb, url)
    && Fits(routes[k].path[1..], Kept(url)) && run.params == Parameters(routes[k].path[1..], Kept(url))
  }

  ghost predicate Matched(root: Node, routes: seq<Route>, verb: string, url: string, run: Run)
  {
    exists k: nat :: Matches(root, routes, k, verb, url, run)
  }

  /** A path from the root through one of the methods. */
  ghost predicate Leads(c: Node, path: seq<Key>, segments: seq<string>, run: Run)
  {
    |path| > 0 && path[0] == c.key && Hits(c, path[1..], segments, [], run)
  }

  lemma FoundIff(c: Node, segments: seq<string>, run: Run)
    requires Tidy(c)
    ensures run in Found(c, segments, []) <==> exists path: seq<Key> :: Leads(c, path, segments, run)
  {
    hide Hits, Found, Distinct;
    if run in Found(c, segments, []) {
      var tail := FoundSound(c, segments, [], run);
      assert ([c.key] + tail)[1..] == tail;
      assert Leads(c, [c.key] + tail, segments, run);
    }
    if path: seq<Key> :| Leads(c, path, segments, run) {
      FoundComplete(c, path[1..], segments, [], run);
    }
  }

  /** The route of an index matches, if it is of this method. */
  ghost predicate RouteFits(routes: seq<Route>, k: nat, key: Key, segments: seq<string>, run: Run)
  {
    && k < |routes| && run.entry == routes[k].priority + k && |routes[k].path| > 0 && routes[k].path[0] == key
    && Fits(routes[k].path[1..], segments) && run.params == Parameters(routes[k].path[1..], segments)
  }

  /** What is found below a method: the routes of that method that match, and their parameters. */
  lemma FoundRoutes(root: Node, routes: seq<Route>, m: nat, segments: seq<string>, run: Run)
    requires Tidy(root) && Denotes(root, routes) && Proper(routes) && m < |root.children|
    ensures run in Found(root.children[m], segments, []) <==>
            exists k: nat :: RouteFits(routes, k, root.children[m].key, segments, run)
  {
    hide Found, Fits, Parameters, IndexFrom, At;
    var c := root.children[m];
    FoundIff(c, segments, run);
    assert [] + run.params == run.params;
    if path: seq<Key> :| Leads(c, path, segments, run) {
      ChildAt(root, m, path);
      assert Registered(routes, path, run.entry);
      assert [] + Parameters(path[1..], segments) == Parameters(path[1..], segments);
      assert RouteFits(routes, run.entry % SPAN, c.key, segments, run);
    }
    if k: nat :| RouteFits(routes, k, c.key, segments, run) {
      Split(routes[k].priority, k);
      assert Registered(routes, routes[k].path, run.entry);
      ChildAt(root, m, routes[k].path);
      assert Leads(c, routes[k].path, segments, run);
    }
  }

  lemma ChildAt(root: Node, m: nat, path: seq<Key>)
    requires Tidy(root) && m < |root.children| && |path| > 0 && path[0] == root.children[m].key
    ensures At(root, path) == At(root.children[m], path[1..])
  {
    IndexIs(root.children, m);
  }

  lemma MatchesByKey(root: Node, routes: seq<Route>, k: nat, verb: string, url: string, run: Run)
    requires |root.children| > 0 && Denotes(root, routes) && Proper(routes)
    ensures var cs, key := root.children, Key(verb, false);
            Matches(root, routes, k, verb, url, run) <==>
            || RouteFits(routes, k, cs[|cs| - 1].key, Kept(url), run)
            || (IndexOf(cs, key) < |cs| && Slashes(url) <= MAX_URL_SEGMENTS
              && RouteFits(routes, k, key, Kept(url), run))
  {
    hide Fits, Parameters, IndexFrom, Denotes, Slashes, Kept;
    if k < |routes| {
      MethodThere(root, routes, k);
    }
  }

  /** The search comes to a handler exactly when its pattern matches the URL and its method is asked for, and then with
    * the segments at the places of its parameters. */
  lemma CandidatesAreMatches(root: Node, routes: seq<Route>, verb: string, url: string, run: Run)
    requires SoundRoot(root) && Denotes(root, routes) && Proper(routes)
    ensures run in Candidates(root, verb, url) <==> Matched(root, routes, verb, url, run)
  {
    hide Found, RouteFits, Matches, IndexFrom, Tidy, Denotes, Proper, Slashes, Kept, Sound, MethodsSorted;
    var cs := root.children;
    if |cs| == 0 {
      forall k: nat ensures !Matches(root, routes, k, verb, url, run) {
        MatchesNone(root, routes, k, verb, url, run);
      }
    } else {
      var m := IndexOf(cs, Key(verb, false));
      FoundRoutes(root, routes, |cs| - 1, Kept(url), run);
      if m < |cs| {
        FoundRoutes(root, routes, m, Kept(url), run);
      }
      forall k: nat ensures
        Matches(root, routes, k, verb, url, run) <==>
        || RouteFits(routes, k, cs[|cs| - 1].key, Kept(url), run)
        || (m < |cs| && Slashes(url) <= MAX_URL_SEGMENTS && RouteFits(routes, k, Key(verb, false), Kept(url), run))
      {
        MatchesByKey(root, routes, k, verb, url, run);
      }
      var last := Found(cs[|cs| - 1], Kept(url), []);
      var first := if m < |cs| && Slashes(url) <= MAX_URL_SEGMENTS then Found(cs[m], Kept(url), []) else [];
      assert Candidates(root, verb, url) == first + last;
      var key := cs[|cs| - 1].key;
      if k: nat :| RouteFits(routes, k, key, Kept(url), run) {
        assert Matches(root, routes, k, verb, url, run);
      }
      if k: nat :| m < |cs| && RouteFits(routes, k, cs[m].key, Kept(url), run) {
        assert Slashes(url) <= MAX_URL_SEGMENTS ==> Matches(root, routes, k, verb, url, run);
      }
    }
  }

  lemma MatchesNone(root: Node, routes: seq<Route>, k: nat, verb: string, url: string, run: Run)
    requires |root.children| == 0
    ensures !Matches(root, routes, k, verb, url, run)
  {
  }

  lemma MethodThere(root: Node, routes: seq<Route>, k: nat)
    requires Denotes(root, routes) && Proper(routes) && k < |routes|
    ensures |routes[k].path| > 0 && IndexOf(root.children, routes[k].path[0]) < |root.children|
  {
    Split(routes[k].priority, k);
    assert Registered(routes, routes[k].path, routes[k].priority + k);
  }

  /** The ANY node the router starts with stays until something is removed; from then on no node is without a use. */
  ghost predicate AnyKept(root: Node, pristine: bool)
  {
    if pristine then HasAny(root) else forall c | c in root.children :: !Barren(c)
  }

  lemma AnyGrown(root: Node, path: seq<Key>, x: nat, pristine: bool)
    requires AnyKept(root, pristine) && |path| > 0
    ensures AnyKept(Grown(root, path, x), pristine)
  {
    hide SortMethods, Spliced, IndexFrom, Barren;
    var cs, ds := root.children, Insert(root, path, x, true).children;
    var m := IndexOf(cs, path[0]);
    forall c ensures c in SortMethods(ds) <==> c in ds {
      SortHas(ds, c);
    }
    if pristine {
      var i :| 0 <= i < |cs| && cs[i].key.name == ANY_METHOD_TOKEN;
      assert ds[i] in ds && ds[i].key == cs[i].key;
      assert ds[i] in SortMethods(ds);
    }
  }

  /** A node of use holds a handler somewhere. */
  lemma {:induction false} HoldsSomething(n: Node) returns (path: seq<Key>, x: nat)
    requires Tidy(n) && Sound(n) && !Barren(n)
    ensures x in At(n, path)
  {
    hide Ranked, Ascending, Normal, IndexFrom, Distinct;
    if |n.entries| > 0 {
      path, x := [], n.entries[0];
    } else {
      var c := n.children[0];
      path, x := HoldsSomething(c);
      ChildAt(n, 0, [c.key] + path);
      assert ([c.key] + path)[1..] == path;
      path := [c.key] + path;
    }
  }

  /** There is an ANY node exactly when nothing was ever removed or a route for any method is registered. */
  lemma AnyIff(root: Node, routes: seq<Route>, pristine: bool)
    requires SoundRoot(root) && Denotes(root, routes) && Proper(routes) && AnyKept(root, pristine)
    ensures HasAny(root) <==>
            pristine || exists k ::
              0 <= k < |routes| && |routes[k].path| > 0 && routes[k].path[0] == Key(ANY_METHOD_TOKEN, false)
  {
    hide MethodsSorted, Barren, At, IndexFrom, Sound;
    if HasAny(root) && !pristine {
      var i :| 0 <= i < |root.children| && root.children[i].key.name == ANY_METHOD_TOKEN;
      var path, x := HoldsSomething(root.children[i]);
      var full := [root.children[i].key] + path;
      ChildAt(root, i, full);
      assert full[1..] == path;
      assert Registered(routes, full, x);
      assert routes[x % SPAN].path[0] == Key(ANY_METHOD_TOKEN, false);
    }
    if k :| 0 <= k < |routes| && |routes[k].path| > 0 && routes[k].path[0] == Key(ANY_METHOD_TOKEN, false) {
      MethodThere(root, routes, k);
      assert root.children[IndexOf(root.children, routes[k].path[0])] in root.children;
    }
  }

  /** Every handler that runs is one whose pattern matches, for every behaviour of the handlers; and if none yields, a
    * request is answered exactly when some pattern matches. */
  lemma RoutedByPatterns(root: Node, routes: seq<Route>, verb: string, url: string, takes: nat -> bool)
    requires SoundRoot(root) && Denotes(root, routes) && Proper(routes)
    ensures var o := Outcome(Candidates(root, verb, url), takes, []);
            && (forall run | run in o.0 :: Matched(root, routes, verb, url, run))
            && (o.1 ==> |o.0| > 0 && takes(|o.0| - 1)) && (forall j: nat | j < |o.0| - 1 :: !takes(j))
            && ((forall j: nat :: takes(j)) ==> (o.1 <==> exists run :: Matched(root, routes, verb, url, run)))
  {
    hide SoundRoot, Denotes, Proper, Matched, Candidates, Taken;
    var found := Candidates(root, verb, url);
    TakenPrefix(found, takes, 0);
    forall run ensures run in found <==> Matched(root, routes, verb, url, run) {
      CandidatesAreMatches(root, routes, verb, url, run);
    }
    var t := Taken(found, takes, 0);
    assert [] + t == t && forall run | run in t :: run in found;
    assert |found| > 0 ==> found[0] in found;
  }

  lemma {:induction false} TakenPrefix(found: seq<Run>, takes: nat -> bool, at: nat)
    ensures var t := Taken(found, takes, at);
            && t <= found && (forall j: nat | at <= j < at + |t| - 1 :: !takes(j))
            && (Answered(found, takes, at) ==> |t| > 0 && takes(at + |t| - 1))
            && (!Answered(found, takes, at) ==> t == found)
  {
    if |found| > 0 {
      TakenPrefix(found[1..], takes, at + 1);
      assert found == [found[0]] + found[1..];
    }
  }

  // ---------- Of the method, or of any ----------

  /** A route is for a request: of its method, unless the URL is too long, or of any. */
  ghost predicate Wanted(r: Route, verb: string, url: string)
  {
    && |r.path| > 0
    && (r.path[0] == Key(ANY_METHOD_TOKEN, false)
      || (r.path[0] == Key(verb, false) && Slashes(url) <= MAX_URL_SEGMENTS))
  }

  /** A run of a handler is as the patterns registered have it, whatever tree they are kept in. */
  ghost predicate MatchesWanted(routes: seq<Route>, k: nat, verb: string, url: string, run: Run)
  {
    && k < |routes| && run.entry == routes[k].priority + k && Wanted(routes[k], verb, url)
    && Fits(routes[k].path[1..], Kept(url)) && run.params == Parameters(routes[k].path[1..], Kept(url))
  }

  ghost predicate MatchedWanted(routes: seq<Route>, verb: string, url: string, run: Run)
  {
    exists k: nat :: MatchesWanted(routes, k, verb, url, run)
  }

  lemma AskedIsWanted(root: Node, r: Route, verb: string, url: string)
    requires SoundRoot(root) && HasAny(root)
    ensures Asked(root, r, verb, url) <==> Wanted(r, verb, url)
  {
    hide Tidy, Sound, MethodsSorted, Slashes;
    LastIsAny(root);
    assert root.children[|root.children| - 1] in root.children by { HasChildren(root); }
    LastIsLow(root);
  }

  lemma HasChildren(root: Node)
    requires HasAny(root)
    ensures |root.children| > 0
  {
  }

  lemma LastIsLow(root: Node)
    requires SoundRoot(root) && |root.children| > 0
    ensures var last := root.children[|root.children| - 1]; last.key == Key(last.key.name, false)
  {
    hide Tidy, Sound, MethodsSorted;
  }

  /** With an ANY node, a handler runs only if its pattern matches and is of the method asked for or of any; and if none
    * yields, a request is answered exactly when such a pattern matches. */
  lemma RoutedByMethodOrAny(root: Node, routes: seq<Route>, verb: string, url: string, takes: nat -> bool)
    requires SoundRoot(root) && Denotes(root, routes) && Proper(routes) && HasAny(root)
    ensures var o := Outcome(Candidates(root, verb, url), takes, []);
            && (forall run | run in o.0 :: MatchedWanted(routes, verb, url, run))
            && ((forall j: nat :: takes(j)) ==> (o.1 <==> exists run :: MatchedWanted(routes, verb, url, run)))
  {
    hide SoundRoot, Denotes, Proper, Matched, MatchedWanted, Candidates, HasAny, Outcome;
    RoutedByPatterns(root, routes, verb, url, takes);
    forall run ensures Matched(root, routes, verb, url, run) <==> MatchedWanted(routes, verb, url, run) {
      MatchedIsWanted(root, routes, verb, url, run);
    }
  }

  lemma MatchedIsWanted(root: Node, routes: seq<Route>, verb: string, url: string, run: Run)
    requires SoundRoot(root) && HasAny(root)
    ensures Matched(root, routes, verb, url, run) <==> MatchedWanted(routes, verb, url, run)
  {
    hide SoundRoot, HasAny, Asked, Wanted, Fits, Parameters, Kept;
    forall k: nat ensures Matches(root, routes, k, verb, url, run) <==> MatchesWanted(routes, k, verb, url, run) {
      if k < |routes| {
        AskedIsWanted(root, routes[k], verb, url);
      }
    }
  }

  /** Every handler any request comes to is of its method or of any. */
  ghost predicate MethodsRespected(root: Node, routes: seq<Route>)
  {
    forall verb, url, run | run in Candidates(root, verb, url) :: MatchedWanted(routes, verb, url, run)
  }

  /** Some URL matches a pattern of the method that stands last. */
  ghost predicate LastCanMatch(root: Node, routes: seq<Route>, k: nat, url: string)
  {
    && k < |routes| && |root.children| > 0 && |routes[k].path| > 0
    && routes[k].path[0] == root.children[|root.children| - 1].key && Fits(routes[k].path[1..], Kept(url))
  }

  /** Methods are respected exactly when there is an ANY node, or the method that stands in for it can match nothing. */
  lemma MethodsRespectedIff(root: Node, routes: seq<Route>)
    requires SoundRoot(root) && Denotes(root, routes) && Proper(routes)
    ensures MethodsRespected(root, routes) <==> HasAny(root) || forall k, url :: !LastCanMatch(root, routes, k, url)
  {
    hide SoundRoot, Denotes, Proper, Candidates, HasAny, LastCanMatch, MatchedWanted, Matched;
    if HasAny(root) {
      forall verb, url, run | run in Candidates(root, verb, url) ensures MatchedWanted(routes, verb, url, run) {
        CandidatesAreMatches(root, routes, verb, url, run);
        MatchedIsWanted(root, routes, verb, url, run);
      }
    } else if k, url :| LastCanMatch(root, routes, k, url) {
      var verb, run := OtherMethodAnswers(root, routes, k, url);
      assert run in Candidates(root, verb, url) && !MatchedWanted(routes, verb, url, run);
    } else {
      forall verb, url, run | run in Candidates(root, verb, url) ensures MatchedWanted(routes, verb, url, run) {
        CandidatesAreMatches(root, routes, verb, url, run);
        NotByLast(root, routes, verb, url, run);
      }
    }
  }

  lemma NotByLast(root: Node, routes: seq<Route>, verb: string, url: string, run: Run)
    requires Matched(root, routes, verb, url, run) && forall k, u :: !LastCanMatch(root, routes, k, u)
    ensures MatchedWanted(routes, verb, url, run)
  {
    hide Fits, Parameters, Kept;
    var k: nat :| Matches(root, routes, k, verb, url, run);
    assert !LastCanMatch(root, routes, k, url);
    assert MatchesWanted(routes, k, verb, url, run);
  }

  /** Without an ANY node, any other method is answered by the last. */
  lemma OtherMethodAnswers(root: Node, routes: seq<Route>, k: nat, url: string) returns (verb: string, run: Run)
    requires SoundRoot(root) && Denotes(root, routes) && Proper(routes) && !HasAny(root)
    requires LastCanMatch(root, routes, k, url)
    ensures run in Candidates(root, verb, url) && !MatchedWanted(routes, verb, url, run)
  {
    hide Fits, Parameters, Kept, Denotes, Candidates, Sound, Tidy, MethodsSorted;
    var last := root.children[|root.children| - 1].key;
    LastIsAny(root);
    verb, run := last.name + "X", Run(routes[k].priority + k, Parameters(routes[k].path[1..], Kept(url)));
    assert Matches(root, routes, k, verb, url, run);
    CandidatesAreMatches(root, routes, verb, url, run);
    Split(routes[k].priority, k);
    forall j: nat ensures !MatchesWanted(routes, j, verb, url, run) {
      if j < |routes| && run.entry == routes[j].priority + j {
        Split(routes[j].priority, j);
      }
    }
  }

  // ---------- The router ----------

  class HttpRouter {
    const cache: UrlCache
    const params: array<string>
    var paramsTop: int
    /** The matching tree; every node has one owner. */
    var root: Node
    var handlers: seq<nat>
    /** The handlers run for the current request, with what they saw as parameters. */
    var ran: seq<Run>
    /** What is registered. */
    ghost var routes: seq<Route>
    /** Nothing has been removed yet. */
    ghost var pristine: bool

    /** The tree stands for the routes, and the handlers are theirs. */
    ghost predicate Registry()
      reads `root, `handlers, `routes, `pristine
    {
      && AnyKept(root, pristine)
      && SoundRoot(root) && Denotes(root, routes) && Proper(routes)
      && |handlers| == |routes| && forall k | 0 <= k < |routes| :: handlers[k] == routes[k].handler
    }

    ghost predicate Valid()
      reads this, cache, cache.urlSegmentVector, params
    {
      Stacks() && Registry()
    }

    ghost predicate Stacks()
      reads `paramsTop, cache, cache.urlSegmentVector
    {
      && cache.Valid() && params.Length == MAX_URL_SEGMENTS && 0 <= paramsTop + 1 <= MAX_URL_SEGMENTS
      && params != cache.urlSegmentVector
    }

    ghost function Parameters(): seq<string>
      requires 0 <= paramsTop + 1 <= params.Length
      reads `paramsTop, params
    {
      params[..paramsTop + 1]
    }

    constructor ()
      ensures Valid() && routes == [] && HasAny(root) && fresh(cache) && fresh(cache.urlSegmentVector) && fresh(params)
    {
      var c := new UrlCache();
      cache := c;
      params := new string[MAX_URL_SEGMENTS](_ => "");
      paramsTop := -1;
      root := Node(Key("rootNode", false), [Node(Key(ANY_METHOD_TOKEN, false), [], [])], []);
      handlers, ran, routes, pristine := [], [], [], true;
      new;
      NewRoot();
      assert root.children[0] in root.children;
    }

    // ---------- Searching ----------

    /** The handlers of a node are run in turn until one takes the request. */
    method RunEntries(entries: seq<nat>, takes: nat -> bool) returns (done: bool)
      requires Stacks()
      modifies `ran
      ensures (ran, done) == Outcome(Runs(entries, Parameters()), takes, old(ran))
    {
      hide Outcome, Runs;
      ghost var found := Runs(entries, Parameters());
      assert found[0..] == found;
      var i := 0;
      while i < |entries|
        invariant 0 <= i <= |entries|
        invariant Outcome(found, takes, old(ran)) == Outcome(found[i..], takes, ran)
      {
        var run := Run(entries[i], params[..paramsTop + 1]);
        assert found[i..] == [run] + found[i + 1..];
        OutcomeConcat([run], found[i + 1..], takes, ran);
        OutcomeOne(run, takes, ran);
        ran := ran + [run];
        if takes(|ran| - 1) {
          return true;
        }
        i := i + 1;
      }
      assert found[i..] == [];
      OutcomeNone(takes, ran);
      return false;
    }

    /** `executeHandlers` */
    method ExecuteHandlers(parent: Node, urlSegment: nat, takes: nat -> bool) returns (done: bool)
      requires Stacks() && urlSegment <= |Kept(cache.url)| && urlSegment <= cache.urlSegmentTop + 1
      requires paramsTop + 1 <= urlSegment
      modifies `paramsTop, `ran, params, cache`currentUrl, cache`urlSegmentTop, cache.urlSegmentVector
      ensures Stacks() && cache.urlSegmentTop >= old(cache.urlSegmentTop)
      ensures (ran, done) == Outcome(Found(parent, Kept(cache.url)[urlSegment..], old(Parameters())), takes, old(ran))
      ensures !done ==> Parameters() == old(Parameters())
      decreases parent, 1
    {
      var segment, isStop := cache.GetUrlSegment(urlSegment);
      if isStop {
        done := RunEntries(parent.entries, takes);
      } else {
        done := ExecuteChildren(parent, urlSegment, segment, takes);
      }
    }

    /** The loop of `executeHandlers` over the children of a node. */
    method ExecuteChildren(parent: Node, urlSegment: nat, segment: string, takes: nat -> bool) returns (done: bool)
      requires Stacks() && urlSegment < |Kept(cache.url)| && segment == Kept(cache.url)[urlSegment]
      requires paramsTop + 1 <= urlSegment <= cache.urlSegmentTop
      modifies `paramsTop, `ran, params, cache`currentUrl, cache`urlSegmentTop, cache.urlSegmentVector
      ensures Stacks() && cache.urlSegmentTop >= old(cache.urlSegmentTop)
      ensures (ran, done) == Outcome(FoundFrom(parent, 0, Kept(cache.url)[urlSegment..], old(Parameters())), takes,
                old(ran))
      ensures !done ==> Parameters() == old(Parameters())
      decreases parent, 0
    {
      hide Outcome, FoundIn, Kept;
      ghost var rest, ps := Kept(cache.url)[urlSegment..], Parameters();
      var i := 0;
      while i < |parent.children|
        invariant 0 <= i <= |parent.children| && Stacks() && Parameters() == ps
        invariant cache.urlSegmentTop >= old(cache.urlSegmentTop)
        invariant Outcome(FoundFrom(parent, 0, rest, ps), takes, old(ran)) == Outcome(FoundFrom(parent, i, rest, ps),
                    takes, ran)
      {
        OutcomeConcat(FoundIn(parent.children[i], rest, ps), FoundFrom(parent, i + 1, rest, ps), takes, ran);
        done := ExecuteChild(parent.children[i], urlSegment, segment, takes);
        if done {
          return;
        }
        i := i + 1;
      }
      OutcomeNone(takes, ran);
      return false;
    }

    /** One child: a wildcard ends the search, a parameter remembers the segment, a static name must be the segment. */
    method ExecuteChild(p: Node, urlSegment: nat, segment: string, takes: nat -> bool) returns (done: bool)
      requires Stacks() && urlSegment < |Kept(cache.url)| && segment == Kept(cache.url)[urlSegment]
      requires paramsTop + 1 <= urlSegment <= cache.urlSegmentTop
      modifies `paramsTop, `ran, params, cache`currentUrl, cache`urlSegmentTop, cache.urlSegmentVector
      ensures Stacks() && cache.urlSegmentTop >= old(cache.urlSegmentTop)
      ensures (ran, done) == Outcome(FoundIn(p, Kept(cache.url)[urlSegment..], old(Parameters())), takes, old(ran))
      ensures !done ==> Parameters() == old(Parameters())
      decreases p, 2
    {
      hide UrlCache.Valid, Outcome, Found, Kept;
      assert Kept(cache.url)[urlSegment..][1..] == Kept(cache.url)[urlSegment + 1..];
      done := false;
      if |p.key.name| > 0 && p.key.name[0] == '*' {
        done := RunEntries(p.entries, takes);
      } else if |p.key.name| > 0 && p.key.name[0] == ':' && |segment| > 0 {
        paramsTop := paramsTop + 1;
        params[paramsTop] := segment;
        assert Parameters() == old(Parameters()) + [segment];
        done := ExecuteHandlers(p, urlSegment + 1, takes);
        if !done {
          paramsTop := paramsTop - 1;
          assert Parameters() == (old(Parameters()) + [segment])[..paramsTop + 1];
        }
      } else if p.key.name == segment {
        done := ExecuteHandlers(p, urlSegment + 1, takes);
      } else {
        OutcomeNone(takes, ran);
      }
    }

    /** `route`.  `takes` is what the handlers do with the request, one after the other. */
    method Route(verb: string, url: string, takes: nat -> bool) returns (done: bool)
      requires Valid() && (Slashes(url) > MAX_URL_SEGMENTS ==> |root.children| > 0)
      modifies `paramsTop, `ran, params, cache, cache.urlSegmentVector
      ensures Valid() && cache.url == url
      ensures (ran, done) == Outcome(Candidates(root, verb, url), takes, [])
    {
      hide UrlCache.Valid, Found, Outcome, Registry, Slashes, Kept, Candidates, IndexFrom;
      cache.SetUrl(url);
      paramsTop, ran := -1, [];
      assert Parameters() == [] && Kept(url)[0..] == Kept(url);
      var i := MethodIndex(verb);
      CandidatesParts(root, verb, url, takes);
      if cache.urlTooLong {
        cache.ForgiveLength();
        done := ExecuteHandlers(root.children[|root.children| - 1], 0, takes);
      } else {
        done := RouteMethods(i, takes);
      }
    }

    /** The routes of a method, and then those of the last one. */
    method RouteMethods(i: nat, takes: nat -> bool) returns (done: bool)
      requires Stacks() && paramsTop == -1 && i <= |root.children| && ran == []
      modifies `paramsTop, `ran, params, cache, cache.urlSegmentVector
      ensures Stacks() && cache.url == old(cache.url)
      ensures |root.children| == 0 ==> (ran, done) == ([], false)
      ensures |root.children| > 0 ==>
                var last := Found(root.children[|root.children| - 1], Kept(cache.url), []);
                if i == |root.children| then (ran, done) == Outcome(last, takes, [])
                else
                  var o := Outcome(Found(root.children[i], Kept(cache.url), []), takes, []);
                  (ran, done) == if o.1 then o else Outcome(last, takes, o.0)
    {
      hide Found, Outcome, Kept;
      assert Parameters() == [] && Kept(cache.url)[0..] == Kept(cache.url);
      done := false;
      if i < |root.children| {
        done := ExecuteHandlers(root.children[i], 0, takes);
      }
      if !done && |root.children| > 0 {
        done := ExecuteHandlers(root.children[|root.children| - 1], 0, takes);
      }
    }

    /** The node of a method, or how many there are. */
    method MethodIndex(verb: string) returns (i: nat)
      requires Valid()
      ensures i == IndexOf(root.children, Key(verb, false))
    {
      i := 0;
      while i < |root.children| && root.children[i].key.name != verb
        invariant i <= |root.children| && forall j | 0 <= j < i :: root.children[j].key.name != verb
      {
        i := i + 1;
      }
      assert i < |root.children| ==> !root.children[i].key.high;
    }

    // ---------- Adding and removing ----------

    /** The child a segment of a pattern leads to, or how many there are: every parameter is the same. */
    method FindChild(n: Node, segment: string, high: bool) returns (i: nat)
      requires Sound(n)
      ensures i == IndexOf(n.children, Key(Normal(segment), high))
    {
      i := 0;
      while i < |n.children|
        invariant i <= |n.children| && forall j | 0 <= j < i :: n.children[j].key != Key(Normal(segment), high)
      {
        var child := n.children[i].key;
        if ((|segment| > 0 && |child.name| > 0 && segment[0] == ':' && child.name[0] == ':')
          || child.name == segment) && child.high == high {
          assert Normal(child.name) == child.name;
          return;
        }
        i := i + 1;
      }
    }

    /** The entry of a priority, or `UINT32_MAX`. */
    method FindEntry(entries: seq<nat>, priority: nat) returns (x: nat)
      requires forall e | e in entries :: e < UINT32_MAX
      ensures x != UINT32_MAX ==> x in entries && x - x % SPAN == priority
      ensures x == UINT32_MAX ==> forall e | e in entries :: e - e % SPAN != priority
    {
      var i := 0;
      while i < |entries|
        invariant i <= |entries| && forall j | 0 <= j < i :: entries[j] - entries[j] % SPAN != priority
      {
        if entries[i] - entries[i] % SPAN == priority {
          assert entries[i] in entries;
          return entries[i];
        }
        i := i + 1;
      }
      return UINT32_MAX;
    }

    /** The loop of `findHandler`: down a pattern, as far as there are nodes for it. */
    method Descend(from: Node, pattern: string, high: bool) returns (n: Node, found: bool)
      requires Stacks() && Sound(from)
      modifies cache, cache.urlSegmentVector
      ensures Stacks()
      ensures At(from, PathOf(Kept(pattern), high)) == if found then n.entries else []
    {
      hide Kept, IndexFrom, Normal, Ranked, Ascending;
      cache.SetUrl(pattern);
      ghost var names := Kept(pattern);
      assert names[0..] == names;
      var i := 0;
      n := from;
      while true
        invariant Stacks() && cache.url == pattern && i <= |names| && i <= cache.urlSegmentTop + 1 && Sound(n)
        invariant At(from, PathOf(names, high)) == At(n, PathOf(names[i..], high))
        decreases |names| - i
      {
        var segment, stop := cache.GetUrlSegment(i);
        if stop {
          return n, true;
        }
        assert names[i..][1..] == names[i + 1..];
        assert PathOf(names[i..], high)[1..] == PathOf(names[i + 1..], high);
        var c := FindChild(n, segment, high);
        if c == |n.children| {
          return n, false;
        }
        n, i := n.children[c], i + 1;
      }
    }

    /** `findHandler`: the route of this method, pattern and priority. */
    method FindHandler(verb: string, pattern: string, priority: nat) returns (x: nat)
      requires Valid() && IsPriority(priority)
      modifies cache, cache.urlSegmentVector
      ensures Valid()
      ensures var k := Position(routes, FullPath(verb, pattern, priority), priority);
              x == if k < |routes| then priority + k else UINT32_MAX
    {
      hide Denotes, Proper, Position, IndexFrom, Tidy, MethodsSorted, Kept, PathOf;
      ghost var path := FullPath(verb, pattern, priority);
      ghost var k := Position(routes, path, priority);
      forall y ensures EntryOf(routes, path, priority, y in At(root, path), y) {
        FoundAtPosition(root, routes, path, priority, y);
      }
      var m := MethodIndex(verb);
      x := UINT32_MAX;
      if m < |root.children| {
        assert root.children[m] in root.children;
        assert path[1..] == PathOf(Kept(pattern), priority == HIGH_PRIORITY);
        var n, found := Descend(root.children[m], pattern, priority == HIGH_PRIORITY);
        if found {
          assert n.entries == At(root, path);
          forall e | e in n.entries ensures e < UINT32_MAX {
            assert EntryOf(routes, path, priority, e in At(root, path), e);
          }
          x := FindEntry(n.entries, priority);
        }
      }
      assert EntryOf(routes, path, priority, x in At(root, path), x);
      assert EntryOf(routes, path, priority, priority + k in At(root, path), priority + k);
    }

    /** The entries of a node without a handler. */
    method LowerEntries(entries: seq<nat>, handler: nat) returns (es: seq<nat>)
      ensures es == Lowered(entries, handler)
    {
      es := entries;
      var i := 0;
      assert es[..0] + Lowered(es[0..], handler) == Lowered(entries, handler) by { assert es[0..] == es; }
      while i < |es|
        invariant i <= |es| && es[..i] + Lowered(es[i..], handler) == Lowered(entries, handler)
      {
        ghost var was := es;
        assert es[i..][1..] == es[i + 1..];
        if es[i] % SPAN > handler % SPAN {
          es := es[i := es[i] - 1];
          assert es[i + 1..] == was[i + 1..] && es[..i + 1] == was[..i] + [was[i] - 1];
          Assoc3(was[..i], [was[i] - 1], Lowered(was[i + 1..], handler));
        } else if es[i] == handler {
          es := es[..i] + es[i + 1..];
          assert es[i..] == was[i + 1..] && es[..i] == was[..i];
          assert [] + Lowered(was[i + 1..], handler) == Lowered(was[i + 1..], handler);
          continue;
        } else {
          assert es[..i + 1] == es[..i] + [es[i]];
          Assoc3(was[..i], [was[i]], Lowered(was[i + 1..], handler));
        }
        i := i + 1;
      }
      assert es[i..] == [] && es[..i] == es;
    }

    /** `cullNode`, depth first: the node without a handler and without the children that are of no use any more. */
    method CullNode(node: Node, handler: nat) returns (n: Node, gone: bool)
      ensures n == Cull(node, handler) && (gone <==> Barren(n))
      decreases node
    {
      hide Lowered, Barren;
      var i, children := 0, [];
      while i < |node.children|
        invariant i <= |node.children| && children + CullFrom(node, i, handler) == CullFrom(node, 0, handler)
      {
        var c, culled := CullNode(node.children[i], handler);
        ghost var rest := CullFrom(node, i + 1, handler);
        assert CullFrom(node, i, handler) == (if Barren(c) then [] else [c]) + rest;
        assert [] + rest == rest;
        if !culled {
          Assoc3(children, [c], rest);
          children := children + [c];
        }
        i := i + 1;
      }
      assert children + [] == children;
      var entries := LowerEntries(node.entries, handler);
      n := Node(node.key, children, entries);
      gone := |n.entries| == 0 && |n.children| == 0;
      BarrenIff(n);
    }

    /** `remove`: the route of this method, pattern and priority is gone, and nothing else. */
    method Remove(verb: string, pattern: string, priority: nat) returns (removed: bool)
      requires Valid() && IsPriority(priority)
      modifies this, cache, cache.urlSegmentVector
      ensures Valid()
      ensures routes == Without(old(routes), Position(old(routes), FullPath(verb, pattern, priority), priority))
      ensures removed <==> Position(old(routes), FullPath(verb, pattern, priority), priority) < |old(routes)|
      ensures pristine == (old(pristine) && !removed)
    {
      hide UrlCache.Valid, Denotes, Position, SoundRoot, Cull, FullPath, Proper, Barren, Alone, HasAny;
      var handler := FindHandler(verb, pattern, priority);
      if handler == UINT32_MAX {
        HandlerIsNone(routes, FullPath(verb, pattern, priority), priority);
        return false;
      }
      ghost var k := Position(routes, FullPath(verb, pattern, priority), priority);
      SplitProper(routes, k, priority);
      RemoveDenotes(root, routes, k) by { TidyRoot(root); }
      CulledSound(root, handler);
      var gone;
      root, gone := CullNode(root, handler);
      handlers := handlers[..handler % SPAN] + handlers[handler % SPAN + 1..];
      routes := Without(routes, k);
      removed, pristine := true, false;
    }

    /** The child of a key, or how many there are: the loop of `getNode`. */
    method ChildIndex(cs: seq<Node>, key: Key) returns (i: nat)
      ensures i == IndexOf(cs, key)
    {
      i := 0;
      while i < |cs| && cs[i].key != key
        invariant i <= |cs| && forall j | 0 <= j < i :: cs[j].key != key
      {
        i := i + 1;
      }
    }

    /** `upper_bound` among the entries of a node. */
    method AddEntry(entries: seq<nat>, x: nat) returns (es: seq<nat>)
      ensures es == InsertEntry(entries, x)
    {
      var i := 0;
      while i < |entries| && x >= entries[i]
        invariant i <= |entries| && InsertEntry(entries, x) == entries[..i] + InsertEntry(entries[i..], x)
      {
        assert entries[i..][1..] == entries[i + 1..] && entries[..i + 1] == entries[..i] + [entries[i]];
        Assoc3(entries[..i], [entries[i]], InsertEntry(entries[i + 1..], x));
        i := i + 1;
      }
      es := entries[..i] + [x] + entries[i..];
      Assoc3(entries[..i], [x], entries[i..]);
      assert i == |entries| ==> entries[i..] == [];
    }

    /** The walk of `add` down a pattern, from its `i`th segment on. */
    method Place(n: Node, i: nat, x: nat, high: bool) returns (r: Node)
      requires Stacks() && i <= |Kept(cache.url)| && i <= cache.urlSegmentTop + 1
      modifies cache`currentUrl, cache`urlSegmentTop, cache.urlSegmentVector
      ensures Stacks() && r == Insert(n, PathOf(Kept(cache.url)[i..], high), x, false)
      decreases |Kept(cache.url)| - i
    {
      hide InsertEntry, IndexFrom, UpperBound, Spliced, Kept;
      ghost var names := Kept(cache.url);
      var segment, stop := cache.GetUrlSegment(i);
      if stop {
        var entries := AddEntry(n.entries, x);
        r := n.(entries := entries);
      } else {
        assert names[i..][1..] == names[i + 1..];
        var key := Key(Normal(segment), high);
        assert PathOf(names[i..], high) == [key] + PathOf(names[i + 1..], high);
        var c := ChildIndex(n.children, key);
        var child := if c < |n.children| then n.children[c] else Node(key, [], []);
        var below := Place(child, i + 1, x, high);
        if c < |n.children| {
          r := n.(children := n.children[c := below]);
        } else {
          r := n.(children := Spliced(n.children, UpperBound(n.children, key), below));
        }
      }
    }

    /** The walk of `add` from the root: to the node of the method, which is put last if it is new. */
    method Grow(verb: string, pattern: string, x: nat, high: bool) returns (r: Node)
      requires Valid()
      modifies cache, cache.urlSegmentVector
      ensures Stacks() && r == Grown(root, [Key(verb, false)] + PathOf(Kept(pattern), high), x)
    {
      hide Insert, Registry, PathOf, Kept, SortMethods, IndexFrom, Spliced;
      cache.SetUrl(pattern);
      assert Kept(pattern)[0..] == Kept(pattern);
      var m := ChildIndex(root.children, Key(verb, false));
      var child := if m < |root.children| then root.children[m] else Node(Key(verb, false), [], []);
      var below := Place(child, 0, x, high);
      r := root.(children := if m < |root.children| then root.children[m := below]
        else Spliced(root.children, |root.children|, below));
      InsertMethod(root, Key(verb, false), PathOf(Kept(pattern), high), x);
      r := r.(children := SortMethods(r.children));
    }

    /** `add`: the route joins the others, in place of one it cannot be told from. */
    method Add(verb: string, pattern: string, handler: nat, priority: nat)
      requires Valid() && IsPriority(priority) && |routes| + 1 < SPAN
      modifies this, cache, cache.urlSegmentVector
      ensures Valid()
      ensures var path := FullPath(verb, pattern, priority);
              && routes == Without(old(routes),
                Position(old(routes), path, priority)) + [Registration(path, priority, handler)]
              && pristine == (old(pristine) && Position(old(routes), path, priority) == |old(routes)|)
    {
      hide Denotes, SoundRoot, Proper, Position, Grown, FullPath, Without, AnyKept;
      var removed := Remove(verb, pattern, priority);
      ghost var path, r :=
        FullPath(verb, pattern, priority), Registration(FullPath(verb, pattern, priority), priority, handler);
      WithoutAbsent(old(routes), path, priority);
      assert |routes| + 1 < SPAN by { WithoutFewer(old(routes), Position(old(routes), path, priority)); }
      var x := priority + |handlers|;
      FullPathShape(verb, pattern, priority);
      AddedSound(root, routes, r, x);
      AnyGrown(root, path, x, pristine);
      root := Grow(verb, pattern, x, priority == HIGH_PRIORITY);
      handlers := handlers + [handler];
      routes := routes + [r];
    }
  }

  lemma InsertMethod(root: Node, key: Key, path: seq<Key>, x: nat)
    ensures var m, cs := IndexOf(root.children, key), root.children;
            Insert(root, [key] + path, x, true) ==
            if m < |cs| then root.(children := cs[m := Insert(cs[m], path, x, false)])
            else root.(children := Spliced(cs, |cs|, Insert(Node(key, [], []), path, x, false)))
  {
    hide Spliced, IndexFrom;
    assert ([key] + path)[1..] == path;
  }

  lemma FullPathShape(verb: string, pattern: string, priority: nat)
    ensures FullPath(verb, pattern, priority) == [Key(verb, false)] + PathOf(Kept(pattern), priority == HIGH_PRIORITY)
    ensures NormalPath(FullPath(verb, pattern, priority)[1..]) && !FullPath(verb, pattern, priority)[0].high
  {
    PathNormal(Kept(pattern), priority == HIGH_PRIORITY);
  }

  lemma {:induction false} PathNormal(segments: seq<string>, high: bool)
    ensures NormalPath(PathOf(segments, high))
  {
    if |segments| > 0 {
      PathNormal(segments[1..], high);
    }
  }

  lemma WithoutFewer(routes: seq<Route>, k: nat)
    ensures |Without(routes, k)| <= |routes|
  {
  }

  /** Once removed, a route is not there any more. */
  lemma WithoutAbsent(routes: seq<Route>, path: seq<Key>, priority: nat)
    requires Proper(routes)
    ensures var rest := Without(routes, Position(routes, path, priority)); Position(rest, path, priority) == |rest|
  {
    hide Position;
    var k := Position(routes, path, priority);
    var rest := Without(routes, k);
    assert k < |routes| ==> forall j | 0 <= j < |rest| :: rest[j] == routes[if j < k then j else j + 1];
  }

  lemma AddedSound(root: Node, routes: seq<Route>, r: Route, x: nat)
    requires SoundRoot(root) && Denotes(root, routes) && Proper(routes) && x == r.priority + |routes|
    requires Position(routes, r.path, r.priority) == |routes| && IsPriority(r.priority) && |routes| + 1 < SPAN
    requires |r.path| > 0 && !r.path[0].high && NormalPath(r.path[1..])
    ensures var g := Grown(root, r.path, x); SoundRoot(g) && Denotes(g, routes + [r]) && Proper(routes + [r])
  {
    hide Sound, Tidy, Insert, SortMethods, MethodsSorted, Proper, Registered, Position, At;
    TidyRoot(root);
    AddDenotes(root, routes, r);
    GrownSound(root, r.path, x);
    InsertTidy(root, r.path, x, true);
    InsertedMethods(root, r.path, x);
    forall q, y ensures y in At(Grown(root, r.path, x), q) <==> Registered(routes + [r], q, y) {
      SortedAt(Insert(root, r.path, x, true), q);
    }
  }

  /** A way there: after a route is removed, nothing is left of the ANY node, and a request of another method is
    * answered by the route for GET. */
  method PutIsAnsweredByGet() returns (r: HttpRouter)
    ensures r.Valid() && fresh(r) && (forall k | 0 <= k < |r.routes| :: !Wanted(r.routes[k], "PUT", "/a"))
    ensures Run(MEDIUM_PRIORITY, []) in Candidates(r.root, "PUT", "/a")
  {
    hide Denotes, SoundRoot, Proper, FullPath, Candidates, AnyKept;
    r := new HttpRouter();
    r.Add("GET", "/a", 7, MEDIUM_PRIORITY);
    ghost var a := Registration(FullPath("GET", "/a", MEDIUM_PRIORITY), MEDIUM_PRIORITY, 7);
    assert r.routes == [a];
    VerbFirst("GET", "/a", MEDIUM_PRIORITY);
    VerbFirst("POST", "/b", MEDIUM_PRIORITY);
    r.Add("POST", "/b", 8, MEDIUM_PRIORITY);
    assert r.routes == [a, Registration(FullPath("POST", "/b", MEDIUM_PRIORITY), MEDIUM_PRIORITY, 8)];
    var removed := r.Remove("POST", "/b", MEDIUM_PRIORITY);
    assert r.routes == [a];
    OnlyGetLeft(r.root, a);
  }

  lemma VerbFirst(verb: string, pattern: string, priority: nat)
    ensures FullPath(verb, pattern, priority)[0] == Key(verb, false)
  {
  }

  lemma OnlyGetLeft(root: Node, a: Route)
    requires a == Registration(FullPath("GET", "/a", MEDIUM_PRIORITY), MEDIUM_PRIORITY, 7)
    requires SoundRoot(root) && Denotes(root, [a]) && Proper([a]) && AnyKept(root, false)
    ensures !Wanted(a, "PUT", "/a") && Run(MEDIUM_PRIORITY, []) in Candidates(root, "PUT", "/a")
  {
    hide Candidates, MethodsSorted, Sound, Barren, Denotes, Proper;
    VerbFirst("GET", "/a", MEDIUM_PRIORITY);
    MethodThere(root, [a], 0);
    var last := root.children[|root.children| - 1];
    assert last in root.children;
    LastHolds(root, a, last);
    SegmentsOfA();
    assert a.path[1..] == [Key("a", false)];
    AFitsA();
    assert a.path[0] == last.key && Asked(root, a, "PUT", "/a");
    assert Matches(root, [a], 0, "PUT", "/a", Run(MEDIUM_PRIORITY, []));
    CandidatesAreMatches(root, [a], "PUT", "/a", Run(MEDIUM_PRIORITY, []));
  }

  lemma LastHolds(root: Node, a: Route, c: Node)
    requires SoundRoot(root) && Denotes(root, [a]) && c in root.children && !Barren(c) && |a.path| > 0
    ensures a.path[0] == c.key
  {
    hide MethodsSorted, Barren, At, IndexFrom, Sound;
    var i :| 0 <= i < |root.children| && root.children[i] == c;
    var path, x := HoldsSomething(c);
    ChildAt(root, i, [c.key] + path);
    assert ([c.key] + path)[1..] == path;
    assert Registered([a], [c.key] + path, x);
  }

  lemma AFitsA()
    ensures Fits([Key("a", false)], ["a"]) && Parameters([Key("a", false)], ["a"]) == []
  {
    assert [Key("a", false)][1..] == [] && ["a"][1..] == [];
  }

  lemma SegmentsOfA()
    ensures Kept("/a") == ["a"] && PathOf(["a"], false) == [Key("a", false)]
  {
    assert "/a"[1..] == "a" && Until("a") == 1;
    assert "a"[..1] == "a" && "a"[1..] == "";
    assert Segments("/a") == ["a"];
    assert ["a"][1..] == [];
  }

  lemma BarrenIff(n: Node)
    ensures Barren(n) <==> |n.entries| == 0 && |n.children| == 0
  {
  }

  lemma TidyRoot(root: Node)
    requires SoundRoot(root)
    ensures Tidy(root) && AllLow(root.children)
  {
  }

  lemma SplitProper(routes: seq<Route>, k: nat, priority: nat)
    requires Proper(routes) && k < |routes| && routes[k].priority == priority
    ensures (priority + k) % SPAN == k && IsPriority(priority)
  {
    Split(priority, k);
  }

  lemma HandlerIsNone(routes: seq<Route>, path: seq<Key>, priority: nat)
    requires Proper(routes) && IsPriority(priority)
    ensures var k := Position(routes, path, priority); k < |routes| ==> priority + k != UINT32_MAX
  {
    hide Position;
    var k := Position(routes, path, priority);
    if k < |routes| {
      Split(priority, k);
    }
  }

  /** What it means for an entry to be there. */
  ghost predicate EntryOf(routes: seq<Route>, path: seq<Key>, priority: nat, there: bool, x: nat)
  {
    var k := Position(routes, path, priority);
    && (there ==> x < UINT32_MAX)
    && (there && x - x % SPAN == priority <==> k < |routes| && x == priority + k)
    && (k < |routes| && x == priority + k ==> x - x % SPAN == priority)
  }

  /** What the tree holds at a path tells whether there is such a route. */
  lemma FoundAtPosition(root: Node, routes: seq<Route>, path: seq<Key>, priority: nat, x: nat)
    requires Denotes(root, routes) && Proper(routes) && IsPriority(priority)
    ensures EntryOf(routes, path, priority, x in At(root, path), x)
  {
    hide Position, At;
    var k := Position(routes, path, priority);
    assert x in At(root, path) <==> Registered(routes, path, x);
    if k < |routes| {
      Split(priority, k);
    }
    if Registered(routes, path, x) {
      Split(routes[x % SPAN].priority, x % SPAN);
    }
  }

  lemma NewRoot()
    ensures var root := Node(Key("rootNode", false), [Node(Key(ANY_METHOD_TOKEN, false), [], [])], []);
            SoundRoot(root) && Denotes(root, []) && Proper([])
  {
    var any := Node(Key(ANY_METHOD_TOKEN, false), [], []);
    var root := Node(Key("rootNode", false), [any], []);
    EmptyNode(any.key);
    forall path ensures At(root, path) == [] {
      if |path| > 0 && IndexOf(root.children, path[0]) == 0 {
        assert At(any, path[1..]) == [];
      }
    }
  }
}
