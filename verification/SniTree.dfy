/** The tree of server names of sni_tree.cpp: names label by label, `*` standing for any label. */
module SniTree {
  import opened Bytes

  type User = nat

  const MAX_LABELS: nat := 10

  // ---------------------------------------------------------------- labels

  /** The position of the first dot, or the length. */
  function DotAt(host: string): (n: nat)
    ensures n <= |host| && (forall k :: 0 <= k < n ==> host[k] != '.') && (n < |host| ==> host[n] == '.')
  {
    if host == "" || host[0] == '.' then 0 else DotAt(host[1..]) + 1
  }

  /** What is left after the first label and its dot. */
  function After(host: string): (rest: string)
    ensures host != "" ==> |rest| < |host|
  {
    host[Min(|host|, DotAt(host) + 1)..]
  }

  /** What is between the dots; a dot at the end ends the last label and starts none. */
  function Labels(host: string): seq<string>
    decreases |host|
  {
    if host == "" then [] else
      [host[..DotAt(host)]] + Labels(After(host))
  }

  function Join(labels: seq<string>): string
  {
    if labels == [] then "" else if |labels| == 1 then labels[0] else labels[0] + "." + Join(labels[1..])
  }

  predicate Dotless(labels: seq<string>) { forall i :: 0 <= i < |labels| ==> '.' !in labels[i] }

  /** Nothing but a dot at the end is lost. */
  lemma {:induction false} LabelsJoin(host: string)
    ensures Dotless(Labels(host)) && (host == "" <==> Labels(host) == [])
    ensures host == Join(Labels(host)) || host == Join(Labels(host)) + "."
    decreases |host|
  {
    hide After;
    if host != "" {
      var first, rest := host[..DotAt(host)], After(host);
      AfterDot(host);
      LabelsJoin(rest);
      assert Labels(host)[1..] == Labels(rest);
      if rest != "" {
        Assoc3(first + ".", Join(Labels(rest)), ".");
      }
    }
  }

  lemma AfterDot(host: string)
    requires host != ""
    ensures var first := host[..DotAt(host)];
            && '.' !in first
            && if '.' in host then host == first + "." + After(host) else host == first && After(host) == ""
  {
    var n := DotAt(host);
    if n < |host| {
      assert host[n] in host;
    } else {
      assert host[..n] == host;
    }
  }

  /** Labels without dots, the last one not empty, are read back. */
  lemma {:induction false} JoinLabels(labels: seq<string>)
    requires Dotless(labels) && (labels != [] ==> labels[|labels| - 1] != "")
    ensures Labels(Join(labels)) == labels
  {
    if labels != [] {
      var host, first := Join(labels), labels[0];
      assert '.' !in first;
      if |labels| == 1 {
        DotAfter(first, "");
        assert first + "" == first && host[..|first|] == first;
      } else {
        var rest := labels[1..];
        DotAfter(first, "." + Join(rest));
        assert host == first + ("." + Join(rest));
        assert host[..|first|] == first && After(host) == Join(rest);
        JoinLabels(rest);
      }
    }
  }

  lemma {:induction false} DotAfter(first: string, more: string)
    requires '.' !in first && (more != "" ==> more[0] == '.')
    ensures DotAt(first + more) == |first|
  {
    if first != "" {
      assert (first + more)[1..] == first[1..] + more && first[0] in first;
      assert forall c :: c in first[1..] ==> c in first;
      DotAfter(first[1..], more);
    } else {
      assert first + more == more;
    }
  }

  // ---------------------------------------------------------------- trees

  /** A node is known by the labels that lead to it; the root by none. */
  type Nodes = map<seq<string>, Option<User>>

  predicate HasChild(nodes: Nodes, p: seq<string>)
  {
    exists q :: q in nodes && |q| == |p| + 1 && p <= q
  }

  predicate Closed(nodes: Nodes)
  {
    [] in nodes && forall p :: p in nodes && p != [] ==> p[..|p| - 1] in nodes
  }

  /** Nothing is kept for nobody, but perhaps at `at`. */
  predicate TrimBut(nodes: Nodes, at: seq<string>)
  {
    forall p :: p in nodes && p != [] && p != at ==> nodes[p].Some? || HasChild(nodes, p)
  }

  /** Every node without children holds a user, but the root. */
  predicate Trim(nodes: Nodes) { Closed(nodes) && TrimBut(nodes, []) }

  /** The names and their users. */
  function Stored(nodes: Nodes): map<seq<string>, User>
  {
    map p | p in nodes && nodes[p].Some? :: nodes[p].value
  }

  lemma {:induction false} ClosedUp(nodes: Nodes, p: seq<string>, k: nat)
    requires Closed(nodes) && p in nodes && k <= |p|
    ensures p[..k] in nodes
    decreases |p| - k
  {
    if k == |p| {
      assert p[..k] == p;
    } else {
      ClosedUp(nodes, p, k + 1);
      assert p[..k + 1][..k] == p[..k];
    }
  }

  lemma Above(nodes: Nodes, p: seq<string>, more: seq<string>)
    requires Closed(nodes) && p + more in nodes
    ensures p in nodes
  {
    ClosedUp(nodes, p + more, |p|);
    assert (p + more)[..|p|] == p;
  }

  /** Below every node but the root there is a name. */
  lemma {:induction false} NameBelow(nodes: Nodes, p: seq<string>, deepest: nat) returns (q: seq<string>)
    requires Trim(nodes) && p in nodes && p != [] && |p| <= deepest
    requires forall r :: r in nodes ==> |r| <= deepest
    ensures q in Stored(nodes) && p <= q
    decreases deepest - |p|
  {
    if nodes[p].Some? {
      q := p;
    } else {
      var c :| c in nodes && |c| == |p| + 1 && p <= c;
      q := NameBelow(nodes, c, deepest);
    }
  }

  lemma {:induction false} Deepest(nodes: Nodes) returns (deepest: nat)
    ensures forall r :: r in nodes ==> |r| <= deepest
    decreases |nodes|
  {
    if nodes == map[] {
      deepest := 0;
    } else {
      var p :| p in nodes;
      var rest := nodes - {p};
      assert rest.Keys == nodes.Keys - {p};
      var d := Deepest(rest);
      deepest := if d < |p| then |p| else d;
      forall r | r in nodes ensures |r| <= deepest {
        assert r == p || r in rest;
      }
    }
  }

  lemma Keeps(a: Nodes, b: Nodes, p: seq<string>)
    requires Trim(a) && Trim(b) && Stored(a) == Stored(b) && p in a
    ensures p in b && b[p] == a[p]
  {
    hide Stored, TrimBut;
    var d := Deepest(a);
    if p != [] {
      var q := NameBelow(a, p, d);
      NamesAreNodes(b, q);
      ClosedUp(b, q, |p|);
      assert q[..|p|] == p;
    }
    StoredAt(a, p);
    StoredAt(b, p);
  }

  lemma NamesAreNodes(nodes: Nodes, q: seq<string>)
    requires q in Stored(nodes)
    ensures q in nodes
  {
  }

  lemma StoredAt(nodes: Nodes, p: seq<string>)
    requires p in nodes
    ensures nodes[p] == if p in Stored(nodes) then Some(Stored(nodes)[p]) else None
  {
  }

  /** The names make the tree. */
  lemma Canonical(a: Nodes, b: Nodes)
    requires Trim(a) && Trim(b) && Stored(a) == Stored(b)
    ensures a == b
  {
    forall p | p in a ensures p in b && b[p] == a[p] { Keeps(a, b, p); }
    forall p | p in b ensures p in a { Keeps(b, a, p); }
    assert a.Keys == b.Keys;
  }

  // ---------------------------------------------------------------- looking up

  /** `getUser`: by the label first, then by the wildcard. */
  function GetUser(nodes: Nodes, at: seq<string>, labels: seq<string>): Option<User>
    requires at in nodes
    decreases |labels|
  {
    if labels == [] then nodes[at] else
      var exact := if at + [labels[0]] in nodes then GetUser(nodes, at + [labels[0]], labels[1..]) else None;
      if exact.Some? then exact
      else if at + ["*"] in nodes then GetUser(nodes, at + ["*"], labels[1..])
      else None
  }

  predicate Matches(name: seq<string>, labels: seq<string>)
  {
    |name| == |labels| && forall i :: 0 <= i < |name| ==> name[i] == labels[i] || name[i] == "*"
  }

  /** At the first label they differ in, `p` has it as it is asked for. */
  predicate Before(p: seq<string>, q: seq<string>, labels: seq<string>)
    requires |p| == |q| == |labels|
  {
    exists i :: 0 <= i < |p| && p[..i] == q[..i] && p[i] == labels[i] != q[i]
  }

  /** Of the names below `at` that match, `name` is the one to prefer. */
  ghost predicate Best(nodes: Nodes, at: seq<string>, labels: seq<string>, name: seq<string>)
  {
    && at + name in Stored(nodes) && Matches(name, labels)
    && forall q :: at + q in Stored(nodes) && Matches(q, labels) && q != name ==> Before(name, q, labels)
  }

  ghost predicate NoMatch(nodes: Nodes, at: seq<string>, labels: seq<string>)
  {
    forall q :: Matches(q, labels) ==> at + q !in Stored(nodes)
  }

  lemma {:induction false} FindBest(nodes: Nodes, at: seq<string>, labels: seq<string>) returns (name: seq<string>)
    requires Closed(nodes) && at in nodes
    ensures GetUser(nodes, at, labels).None? ==> NoMatch(nodes, at, labels)
    ensures GetUser(nodes, at, labels).Some? ==>
              Best(nodes, at, labels, name) && Stored(nodes)[at + name] == GetUser(nodes, at, labels).value
    decreases |labels|
  {
    name := [];
    if labels == [] {
      assert at + [] == at;
      assert forall q :: Matches(q, labels) ==> q == [];
    } else {
      var exact, wild, rest := at + [labels[0]], at + ["*"], labels[1..];
      if exact in nodes {
        var n := FindBest(nodes, exact, rest);
        if GetUser(nodes, exact, rest).Some? {
          name := [labels[0]] + n;
          ExactIsBest(nodes, at, labels, n);
          return;
        }
      } else {
        NothingBelow(nodes, exact, rest);
      }
      if wild in nodes {
        var n := FindBest(nodes, wild, rest);
        name := ["*"] + n;
        WildIsBest(nodes, at, labels, n);
      } else {
        NothingBelow(nodes, wild, rest);
        NeitherMatches(nodes, at, labels);
      }
    }
  }

  lemma NothingBelow(nodes: Nodes, p: seq<string>, labels: seq<string>)
    requires Closed(nodes) && p !in nodes
    ensures NoMatch(nodes, p, labels)
  {
    forall q | Matches(q, labels) ensures p + q !in Stored(nodes) {
      if p + q in nodes { Above(nodes, p, q); }
    }
  }

  /** A match goes by the label or by the wildcard. */
  lemma MatchParts(at: seq<string>, labels: seq<string>, q: seq<string>)
    requires labels != [] && Matches(q, labels)
    ensures q != [] && q == [q[0]] + q[1..] && at + q == at + [q[0]] + q[1..] && Matches(q[1..], labels[1..])
    ensures q[0] == labels[0] || q[0] == "*"
  {
  }

  lemma NeitherMatches(nodes: Nodes, at: seq<string>, labels: seq<string>)
    requires labels != [] && NoMatch(nodes, at + [labels[0]], labels[1..]) && NoMatch(nodes, at + ["*"], labels[1..])
    ensures NoMatch(nodes, at, labels)
  {
    forall q | Matches(q, labels) ensures at + q !in Stored(nodes) {
      MatchParts(at, labels, q);
    }
  }

  lemma Prefixed(at: seq<string>, first: string, n: seq<string>, labels: seq<string>)
    requires labels != [] && Matches(n, labels[1..]) && (first == labels[0] || first == "*")
    ensures Matches([first] + n, labels) && at + ([first] + n) == at + [first] + n
  {
    var name := [first] + n;
    forall i | 0 <= i < |name| ensures name[i] == labels[i] || name[i] == "*" {
      if i > 0 { assert name[i] == n[i - 1] && labels[i] == labels[1..][i - 1]; }
    }
  }

  lemma BeforeOn(first: string, n: seq<string>, m: seq<string>, labels: seq<string>)
    requires labels != [] && |n| == |m| == |labels| - 1 && Before(n, m, labels[1..])
    ensures Before([first] + n, [first] + m, labels)
  {
    var i :| 0 <= i < |n| && n[..i] == m[..i] && n[i] == labels[1..][i] != m[i];
    var p, q, j := [first] + n, [first] + m, i + 1;
    assert p[..j] == [first] + n[..i] && q[..j] == [first] + m[..i];
    assert p[j] == labels[j] != q[j];
  }

  lemma ExactIsBest(nodes: Nodes, at: seq<string>, labels: seq<string>, n: seq<string>)
    requires labels != [] && Best(nodes, at + [labels[0]], labels[1..], n)
    ensures Best(nodes, at, labels, [labels[0]] + n) && at + ([labels[0]] + n) == at + [labels[0]] + n
  {
    hide Before;
    var name := [labels[0]] + n;
    Prefixed(at, labels[0], n, labels);
    forall q | at + q in Stored(nodes) && Matches(q, labels) && q != name ensures Before(name, q, labels) {
      MatchParts(at, labels, q);
      if q[0] == labels[0] {
        BeforeOn(labels[0], n, q[1..], labels);
      } else {
        FirstDecides(name, q, labels);
      }
    }
  }

  lemma FirstDecides(p: seq<string>, q: seq<string>, labels: seq<string>)
    requires |p| == |q| == |labels| > 0 && p[0] == labels[0] != q[0]
    ensures Before(p, q, labels)
  {
    assert p[..0] == q[..0];
  }

  lemma WildIsBest(nodes: Nodes, at: seq<string>, labels: seq<string>, n: seq<string>)
    requires labels != [] && NoMatch(nodes, at + [labels[0]], labels[1..])
    ensures Best(nodes, at + ["*"], labels[1..], n) ==>
              Best(nodes, at, labels, ["*"] + n) && at + (["*"] + n) == at + ["*"] + n
    ensures NoMatch(nodes, at + ["*"], labels[1..]) ==> NoMatch(nodes, at, labels)
  {
    hide Before;
    if NoMatch(nodes, at + ["*"], labels[1..]) { NeitherMatches(nodes, at, labels); }
    if Best(nodes, at + ["*"], labels[1..], n) {
      var name := ["*"] + n;
      Prefixed(at, "*", n, labels);
      forall q | at + q in Stored(nodes) && Matches(q, labels) && q != name ensures Before(name, q, labels) {
        MatchParts(at, labels, q);
        BeforeOn("*", n, q[1..], labels);
      }
    }
  }

  /** There is no more than one to prefer. */
  lemma BestIsOne(nodes: Nodes, labels: seq<string>, p: seq<string>, q: seq<string>)
    requires Best(nodes, [], labels, p) && Best(nodes, [], labels, q)
    ensures p == q
  {
    if p != q {
      var i :| 0 <= i < |p| && p[..i] == q[..i] && p[i] == labels[i] != q[i];
      var j :| 0 <= j < |q| && q[..j] == p[..j] && q[j] == labels[j] != p[j];
      if i < j { SameBefore(q, p, i, j); }
      if j < i { SameBefore(p, q, j, i); }
    }
  }

  lemma SameBefore(p: seq<string>, q: seq<string>, i: nat, j: nat)
    requires i < j <= |p| && j <= |q| && p[..j] == q[..j]
    ensures p[i] == q[i]
  {
    assert p[i] == p[..j][i] && q[i] == q[..j][i];
  }

  /** `sni_find`: a user is found exactly if a stored name matches, and it is that of the best match. */
  lemma FoundIff(nodes: Nodes, labels: seq<string>, u: User)
    requires Closed(nodes)
    ensures GetUser(nodes, [], labels) == Some(u) <==>
            exists name :: Best(nodes, [], labels, name) && Stored(nodes)[[] + name] == u
    ensures GetUser(nodes, [], labels).None? <==> forall name :: Matches(name, labels) ==> name !in Stored(nodes)
  {
    hide GetUser, Before;
    var n := FindBest(nodes, [], labels);
    assert forall name: seq<string> :: [] + name == name;
    if name :| Best(nodes, [], labels, name) && Stored(nodes)[[] + name] == u {
      if GetUser(nodes, [], labels).None? {
        assert false;
      }
      BestIsOne(nodes, labels, n, name);
    }
  }

  /** A stored pattern, looked up as it is, leads to its own user. */
  lemma FindsItself(nodes: Nodes, name: seq<string>)
    requires Closed(nodes) && name in Stored(nodes)
    ensures GetUser(nodes, [], name) == Some(Stored(nodes)[name])
  {
    hide GetUser;
    assert forall q: seq<string> :: [] + q == q;
    forall q | [] + q in Stored(nodes) && Matches(q, name) && q != name ensures Before(name, q, name) {
      FirstDifference(name, q);
    }
    assert Best(nodes, [], name, name);
    FoundIff(nodes, name, Stored(nodes)[name]);
  }

  lemma {:induction false} FirstDifference(p: seq<string>, q: seq<string>)
    requires |p| == |q| && p != q
    ensures Before(p, q, p)
  {
    if p[0] != q[0] {
      FirstDecides(p, q, p);
    } else {
      assert p == [p[0]] + p[1..] && q == [p[0]] + q[1..];
      FirstDifference(p[1..], q[1..]);
      BeforeOn(p[0], p[1..], q[1..], p);
    }
  }

  // ---------------------------------------------------------------- the tree

  class SniTree {
    var nodes: Nodes

    predicate Valid()
      reads this
    {
      Trim(nodes)
    }

    constructor ()
      ensures Valid() && Stored(nodes) == map[]
    {
      nodes := map[[] := None];
    }

    /** The loop over the labels that every call begins with; more than ten are refused. */
    static method Split(host: string) returns (ok: bool, labels: seq<string>)
      ensures ok <==> |Labels(host)| <= MAX_LABELS
      ensures ok ==> labels == Labels(host)
    {
      labels := [];
      var view := host;
      while view != ""
        invariant labels + Labels(view) == Labels(host) && |labels| <= MAX_LABELS
        decreases |view|
      {
        var n := DotAt(view);
        if |labels| == MAX_LABELS {
          return false, [];
        }
        Assoc3(labels, [view[..n]], Labels(After(view)));
        labels := labels + [view[..n]];
        view := After(view);
      }
      ok := true;
    }

    /** `sni_add`: refused if the name is there, or has too many labels. */
    method Add(host: string, user: User) returns (refused: bool)
      requires Valid()
      modifies this
      ensures Valid()
      ensures refused <==> |Labels(host)| > MAX_LABELS || Labels(host) in Stored(old(nodes))
      ensures if refused then nodes == old(nodes) else Stored(nodes) == Stored(old(nodes))[Labels(host) := user]
    {
      var ok, labels := Split(host);
      if !ok {
        return true;
      }
      var root: seq<string> := [];
      ghost var was := nodes;
      for i := 0 to |labels|
        invariant root == labels[..i] && root in nodes && Grown(was, nodes, labels, i)
      {
        var next := root + [labels[i]];
        assert labels[..i + 1] == next;
        GrownMore(was, nodes, labels, i);
        if next !in nodes {
          nodes := nodes[next := None];
        }
        root := next;
      }
      assert root == labels;
      GrownNames(was, nodes, labels);
      if nodes[root].Some? {
        return true;
      }
      NameAdded(was, nodes, labels, user);
      nodes := nodes[root := Some(user)];
      return false;
    }

    /** `removeUser`: on the way up, what holds nothing any more goes. */
    method RemoveUser(at: seq<string>, depth: nat, labels: seq<string>) returns (user: Option<User>)
      requires Closed(nodes) && TrimBut(nodes, []) && at in nodes && depth <= |labels|
      modifies this
      ensures user == if at + labels[depth..] in old(nodes) then old(nodes)[at + labels[depth..]] else None
      ensures Stored(nodes) == Stored(old(nodes)) - {at + labels[depth..]}
      ensures Closed(nodes) && TrimBut(nodes, at) && at in nodes
      decreases |labels| - depth
    {
      ghost var name := at + labels[depth..];
      ghost var was := nodes;
      if depth == |labels| {
        assert name == at;
        user := nodes[at];
        nodes := nodes[at := None];
        return;
      }
      var child := at + [labels[depth]];
      NameSplits(at, labels, depth);
      if child !in nodes {
        NotBelow(nodes, child, labels[depth + 1..]);
        return None;
      }
      user := RemoveUser(child, depth + 1, labels);
      if nodes[child].None? && !HasChild(nodes, child) {
        Culled(nodes, at, child);
        nodes := nodes - {child};
      }
    }

    /** `sni_remove`: the very name, not what it matches. */
    method Remove(host: string) returns (user: Option<User>)
      requires Valid()
      modifies this
      ensures Valid()
      ensures if |Labels(host)| <= MAX_LABELS && Labels(host) in Stored(old(nodes))
              then user == Some(Stored(old(nodes))[Labels(host)])
                && Stored(nodes) == Stored(old(nodes)) - {Labels(host)}
              else user == None && nodes == old(nodes)
    {
      var ok, labels := Split(host);
      if !ok {
        return None;
      }
      ghost var was := nodes;
      assert [] + labels[0..] == labels;
      user := RemoveUser([], 0, labels);
      if labels !in Stored(was) {
        Canonical(was, nodes);
      }
    }

    /** `sni_find` */
    method Find(host: string) returns (user: Option<User>)
      requires Valid()
      ensures user == if |Labels(host)| <= MAX_LABELS then GetUser(nodes, [], Labels(host)) else None
    {
      var ok, labels := Split(host);
      if !ok {
        return None;
      }
      user := GetUser(nodes, [], labels);
    }

    /** Removing a name just added gives the tree that was there. */
    method AddThenRemove(host: string, user: User) returns (refused: bool, removed: Option<User>)
      requires Valid()
      modifies this
      ensures refused <==> |Labels(host)| > MAX_LABELS || Labels(host) in Stored(old(nodes))
      ensures !refused ==> nodes == old(nodes) && removed == Some(user)
    {
      ghost var was := nodes;
      removed := None;
      refused := Add(host, user);
      if !refused {
        removed := Remove(host);
        assert Stored(was)[Labels(host) := user] - {Labels(host)} == Stored(was);
        Canonical(was, nodes);
      }
    }
  }

  // ---------------------------------------------------------------- steps of the calls

  lemma NameSplits(at: seq<string>, labels: seq<string>, depth: nat)
    requires depth < |labels|
    ensures at + labels[depth..] == at + [labels[depth]] + labels[depth + 1..]
  {
    assert labels[depth..] == [labels[depth]] + labels[depth + 1..];
  }

  /** The nodes of the first `i` labels are there, empty unless they were there before. */
  predicate Grown(was: Nodes, nodes: Nodes, labels: seq<string>, i: nat)
    requires i <= |labels|
  {
    && Closed(nodes) && (forall p :: p in was ==> p in nodes && nodes[p] == was[p])
    && (forall p :: p in nodes && p !in was ==> nodes[p] == None && p <= labels[..i] && p != [])
  }

  lemma GrownMore(was: Nodes, nodes: Nodes, labels: seq<string>, i: nat)
    requires i < |labels| && Grown(was, nodes, labels, i) && labels[..i] in nodes
    ensures var next := labels[..i + 1];
            Grown(was, if next in nodes then nodes else nodes[next := None], labels, i + 1)
  {
    var next := labels[..i + 1];
    assert next[..i] == labels[..i];
  }

  lemma GrownNames(was: Nodes, nodes: Nodes, labels: seq<string>)
    requires Trim(was) && Grown(was, nodes, labels, |labels|) && labels in nodes
    ensures nodes[labels].Some? ==> nodes == was
    ensures nodes[labels].Some? <==> labels in Stored(was)
  {
    assert labels[..|labels|] == labels;
    if nodes[labels].Some? {
      forall p | p in nodes ensures p in was {
        if p !in was {
          ClosedUp(was, labels, |p|);
          IsPrefix(p, labels);
        }
      }
      assert nodes.Keys == was.Keys;
    }
  }

  lemma IsPrefix(p: seq<string>, q: seq<string>)
    requires p <= q
    ensures q[..|p|] == p
  {
  }

  lemma NameAdded(was: Nodes, nodes: Nodes, labels: seq<string>, u: User)
    requires Trim(was) && Grown(was, nodes, labels, |labels|) && labels in nodes && nodes[labels].None?
    ensures var after := nodes[labels := Some(u)]; Trim(after) && Stored(after) == Stored(was)[labels := u]
  {
    hide HasChild, Stored;
    var after := nodes[labels := Some(u)];
    forall p | p in after && p != [] && p != labels ensures after[p].Some? || HasChild(after, p) {
      if p in was {
        if was[p].None? { ChildStays(was, after, p); }
      } else {
        OnTheWay(nodes, after, labels, p);
      }
    }
    NameStored(was, nodes, labels, u);
  }

  lemma ChildStays(a: Nodes, b: Nodes, p: seq<string>)
    requires HasChild(a, p) && forall c :: c in a ==> c in b
    ensures HasChild(b, p)
  {
  }

  lemma OnTheWay(nodes: Nodes, after: Nodes, labels: seq<string>, p: seq<string>)
    requires Closed(nodes) && labels in nodes && p <= labels && p != labels && forall c :: c in nodes ==> c in after
    ensures HasChild(after, p)
  {
    ClosedUp(nodes, labels, |p| + 1);
    assert labels[..|p| + 1] in after;
  }

  lemma NameStored(was: Nodes, nodes: Nodes, labels: seq<string>, u: User)
    requires Grown(was, nodes, labels, |labels|) && labels in nodes && nodes[labels].None?
    ensures Stored(nodes[labels := Some(u)]) == Stored(was)[labels := u]
  {
    hide Closed;
  }

  lemma NotBelow(nodes: Nodes, p: seq<string>, more: seq<string>)
    requires Closed(nodes) && p !in nodes
    ensures p + more !in nodes
  {
    if p + more in nodes { Above(nodes, p, more); }
  }

  lemma IsChild(nodes: Nodes, p: seq<string>)
    requires p in nodes && p != []
    ensures HasChild(nodes, p[..|p| - 1])
  {
  }

  lemma OneParent(p: seq<string>, q: seq<string>, child: seq<string>)
    requires p <= child && q <= child && |child| == |p| + 1 == |q| + 1
    ensures p == q
  {
  }

  lemma Culled(nodes: Nodes, at: seq<string>, child: seq<string>)
    requires Closed(nodes) && TrimBut(nodes, child) && at in nodes && child in nodes && nodes[child].None?
    requires !HasChild(nodes, child)
    requires |child| == |at| + 1 && at <= child
    ensures var after := nodes - {child};
            Closed(after) && TrimBut(after, at) && Stored(after) == Stored(nodes) && at in after
  {
    hide HasChild;
    var after := nodes - {child};
    forall p | p in after && p != [] ensures p[..|p| - 1] in after {
      if p[..|p| - 1] == child { IsChild(nodes, p); }
    }
    forall p | p in after && p != [] && p != at ensures after[p].Some? || HasChild(after, p) {
      if nodes[p].None? { OtherChild(nodes, at, child, p); }
    }
  }

  lemma OtherChild(nodes: Nodes, at: seq<string>, child: seq<string>, p: seq<string>)
    requires HasChild(nodes, p) && p != at && |child| == |at| + 1 && at <= child
    ensures HasChild(nodes - {child}, p)
  {
    var c :| c in nodes && |c| == |p| + 1 && p <= c;
    if c == child { OneParent(p, at, c); }
    assert c in nodes - {child};
  }
}
