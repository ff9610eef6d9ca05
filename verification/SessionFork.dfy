/** Session branches: forking, and the breadth-first collection of a branch tree. */
module SessionFork {
  import opened Prelude

  datatype Branch = Branch(sessionId: string, parentId: string, branchPoint: int, createdAt: real, caption: string)

  /** Keyed by session id; a loaded file may disagree with its own keys. */
  type Branches = Dict<string, Branch>

  /** A descent from the root: each entry's parent is the root or the entry before it. */
  ghost predicate Descent(bs: Branches, root: string, p: seq<string>) {
    && |p| >= 1 && (forall i :: 0 <= i < |p| ==> p[i] in bs.table)
    && bs.table[p[0]].parentId == root
    && forall i :: 0 < i < |p| ==> bs.table[p[i]].parentId == bs.table[p[i - 1]].sessionId
  }

  /** Reachable from the root by one or more child edges. */
  ghost predicate Descends(bs: Branches, root: string, sid: string) {
    exists p :: Descent(bs, root, p) && p[|p| - 1] == sid
  }

  lemma DescendsChild(bs: Branches, root: string, k: string)
    requires k in bs.table && bs.table[k].parentId == root
    ensures Descends(bs, root, k)
  {
    assert Descent(bs, root, [k]);
  }

  lemma DescendsStep(bs: Branches, root: string, a: string, k: string)
    requires Descends(bs, root, a) && k in bs.table && bs.table[k].parentId == bs.table[a].sessionId
    ensures Descends(bs, root, k)
  {
    var p :| Descent(bs, root, p) && p[|p| - 1] == a;
    assert Descent(bs, root, p + [k]);
  }

  /** Entries whose parent is `parent`, in dictionary order. */
  function Children(bs: Branches, keys: seq<string>, parent: string): (r: seq<string>)
    requires forall k :: k in keys ==> k in bs.table
    ensures forall k :: k in r <==> k in keys && bs.table[k].parentId == parent
  {
    if keys == [] then []
    else
      assert keys == keys[..|keys| - 1] + [keys[|keys| - 1]];
      var rest, k := Children(bs, keys[..|keys| - 1], parent), keys[|keys| - 1];
      if bs.table[k].parentId == parent then rest + [k] else rest
  }

  lemma {:induction false} ChildrenDistinct(bs: Branches, keys: seq<string>, parent: string)
    requires Distinct(keys) && forall k :: k in keys ==> k in bs.table
    ensures Distinct(Children(bs, keys, parent))
  {
    if keys != [] {
      ChildrenDistinct(bs, keys[..|keys| - 1], parent);
      assert keys[|keys| - 1] !in keys[..|keys| - 1];
    }
  }

  function Created(bs: Branches, sid: string): real {
    if sid in bs.table then bs.table[sid].createdAt else 0.0
  }

  /** Entries created earlier come first. */
  ghost predicate OldestFirst(bs: Branches, keys: seq<string>) {
    forall i, j :: 0 <= i < j < |keys| && keys[i] in bs.table && keys[j] in bs.table ==>
      bs.table[keys[i]].createdAt <= bs.table[keys[j]].createdAt
  }

  /** Every session the search may ever name. */
  function Universe(bs: Branches, root: string): set<string> {
    {root} + set k | k in bs.table :: bs.table[k].sessionId
  }

  // ---- the search invariant ----------------------------------------------------------------

  /** The root, or the session of a collected entry. */
  ghost predicate Named(bs: Branches, root: string, found: seq<string>, x: string) {
    x == root || exists k :: k in found && k in bs.table && bs.table[k].sessionId == x
  }

  /** Collected so far: exactly the entries whose parent was visited, all reachable. */
  ghost predicate Collected(bs: Branches, root: string, visited: set<string>, found: seq<string>) {
    && bs.Valid() && Distinct(found)
    && (forall k :: k in found <==> k in bs.table && bs.table[k].parentId in visited)
    && (forall k :: k in found ==> Descends(bs, root, k))
  }

  /** Exactly what was named is visited or queued. */
  ghost predicate Searching(bs: Branches, root: string, visited: set<string>, queue: seq<string>, found: seq<string>) {
    && Collected(bs, root, visited, found)
    && (forall x :: x in visited || x in queue <==> Named(bs, root, found, x))
    && visited <= Universe(bs, root)
  }

  lemma {:induction false} ReachedAtEnd(bs: Branches, root: string, visited: set<string>, found: seq<string>,
      p: seq<string>)
    requires Searching(bs, root, visited, [], found) && Descent(bs, root, p)
    ensures p[|p| - 1] in found
  {
    if |p| > 1 {
      var init := p[..|p| - 1];
      assert Descent(bs, root, init);
      ReachedAtEnd(bs, root, visited, found, init);
      assert Named(bs, root, found, bs.table[init[|init| - 1]].sessionId);
    } else {
      assert Named(bs, root, found, root);
    }
  }

  class Forker {
    var branches: Branches

    constructor ()
      ensures branches == Dict([], map[])
    {
      branches := Dict([], map[]);
    }

    /** Branch off a parent; the branch point is clamped to the message list. */
    method Fork(newId: string, parent: string, messages: nat, caption: string, branchAt: Option<int>, now: real)
        returns (b: Branch)
      requires branches.Valid()
      modifies this
      ensures branches.Valid() && branches == old(branches).Put(newId, b)
      ensures b.sessionId == newId && b.parentId == parent && 0 <= b.branchPoint <= messages
      ensures branchAt.None? ==> b.branchPoint == messages
      ensures branchAt.Some? && 0 <= branchAt.value <= messages ==> b.branchPoint == branchAt.value
      ensures branchAt.Some? && branchAt.value < 0 ==> b.branchPoint == 0
      ensures branchAt.Some? && branchAt.value > messages ==> b.branchPoint == messages
      ensures b.caption == caption && b.createdAt == now
    {
      var at := if branchAt.None? then messages else branchAt.value;
      at := if at > messages then messages else at;
      at := if at < 0 then 0 else at;
      b := Branch(newId, parent, at, now, caption);
      branches := branches.Put(newId, b);
    }

    method Collect(parent: string) returns (kids: seq<string>)
      requires branches.Valid()
      ensures kids == Children(branches, branches.keys, parent)
    {
      kids := [];
      for i := 0 to |branches.keys|
        invariant kids == Children(branches, branches.keys[..i], parent)
      {
        assert branches.keys[..i + 1][..i] == branches.keys[..i];
        if branches.table[branches.keys[i]].parentId == parent {
          kids := kids + [branches.keys[i]];
        }
      }
      assert branches.keys[..|branches.keys|] == branches.keys;
    }

    /** The breadth-first loop: everything below the root, in discovery order. */
    method Search(root: string) returns (found: seq<string>)
      requires branches.Valid()
      ensures Distinct(found) && forall k :: k in found <==> Descends(branches, root, k)
    {
      var queue, visited: set<string> := [root], {};
      found := [];
      while queue != []
        invariant Searching(branches, root, visited, queue, found)
        decreases Universe(branches, root) - visited, |queue|
      {
        var current := queue[0];
        assert queue == [current] + queue[1..];
        queue := queue[1..];
        if current in visited {
          SkipVisited(branches, root, visited, queue, found, current);
          continue;
        }
        var kids := Collect(current);
        Expand(branches, root, visited, queue, found, current, kids);
        visited := visited + {current};
        found := found + kids;
        queue := queue + Sessions(branches, kids);
      }
      forall k | Descends(branches, root, k) ensures k in found {
        var p :| Descent(branches, root, p) && p[|p| - 1] == k;
        ReachedAtEnd(branches, root, visited, found, p);
      }
    }

    /** The whole tree below a session, for any parent relation, cyclic or not: exactly
        the entries reachable by one or more child edges, each once, by creation time. */
    method BranchTree(root: string) returns (tree: seq<string>)
      requires branches.Valid()
      ensures Distinct(tree) && forall k :: k in tree <==> Descends(branches, root, k)
      ensures OldestFirst(branches, tree)
    {
      var found := Search(root);
      var bs := branches;
      var created := sid => Created(bs, sid);
      SortBySorted(created, found);
      SortByElements(created, found);
      tree := SortBy(created, found);
      forall i, j | 0 <= i < j < |tree| && tree[i] in bs.table && tree[j] in bs.table
        ensures bs.table[tree[i]].createdAt <= bs.table[tree[j]].createdAt
      {
        assert created(tree[i]) <= created(tree[j]);
      }
    }
  }

  function Sessions(bs: Branches, keys: seq<string>): seq<string>
    requires forall k :: k in keys ==> k in bs.table
  {
    seq(|keys|, i requires 0 <= i < |keys| => assert keys[i] in keys; bs.table[keys[i]].sessionId)
  }

  lemma SessionsIn(bs: Branches, keys: seq<string>, x: string)
    requires forall k :: k in keys ==> k in bs.table
    ensures x in Sessions(bs, keys) <==> exists k :: k in keys && bs.table[k].sessionId == x
  {
    var ss := Sessions(bs, keys);
    if x in ss {
      var i :| 0 <= i < |ss| && ss[i] == x;
      assert keys[i] in keys;
    }
    if exists k :: k in keys && bs.table[k].sessionId == x {
      var k :| k in keys && bs.table[k].sessionId == x;
      var i :| 0 <= i < |keys| && keys[i] == k;
      assert ss[i] == x;
    }
  }

  lemma SkipVisited(bs: Branches, root: string, visited: set<string>, rest: seq<string>, found: seq<string>,
      current: string)
    requires Searching(bs, root, visited, [current] + rest, found) && current in visited
    ensures Searching(bs, root, visited, rest, found)
  {
    forall x ensures x in visited || x in rest <==> Named(bs, root, found, x) {
      assert x in [current] + rest <==> x == current || x in rest;
    }
  }

  lemma KidDescends(bs: Branches, root: string, found: seq<string>, current: string, k: string)
    requires Named(bs, root, found, current) && forall x :: x in found ==> Descends(bs, root, x)
    requires k in bs.table && bs.table[k].parentId == current
    ensures Descends(bs, root, k)
  {
    if current == root {
      DescendsChild(bs, root, k);
    } else {
      var a :| a in found && a in bs.table && bs.table[a].sessionId == current;
      DescendsStep(bs, root, a, k);
    }
  }

  lemma KidsAreNew(bs: Branches, visited: set<string>, found: seq<string>, current: string)
    requires bs.Valid() && Distinct(found) && current !in visited
    requires forall k :: k in found ==> k in bs.table && bs.table[k].parentId in visited
    ensures Distinct(found + Children(bs, bs.keys, current))
  {
    ChildrenDistinct(bs, bs.keys, current);
    DistinctConcat(found, Children(bs, bs.keys, current));
  }

  lemma InConcat(a: seq<string>, b: seq<string>, k: string)
    ensures k in a + b <==> k in a || k in b
  {
  }

  lemma ExpandCollected(
    bs: Branches, root: string, visited: set<string>, found: seq<string>, current: string, kids: seq<string>)
    requires Collected(bs, root, visited, found) && current !in visited && Named(bs, root, found, current)
    requires kids == Children(bs, bs.keys, current)
    ensures Collected(bs, root, visited + {current}, found + kids)
  {
    KidsAreNew(bs, visited, found, current);
    forall k ensures k in found + kids <==> k in bs.table && bs.table[k].parentId in visited + {current} {
      InConcat(found, kids, k);
    }
    forall k | k in found + kids ensures Descends(bs, root, k) {
      InConcat(found, kids, k);
      if k in kids { KidDescends(bs, root, found, current, k); }
    }
  }

  lemma ExpandNamed(bs: Branches, root: string, found: seq<string>, kids: seq<string>, x: string)
    requires forall k :: k in kids ==> k in bs.table
    ensures Named(bs, root, found + kids, x) <==> Named(bs, root, found, x) || x in Sessions(bs, kids)
  {
    SessionsIn(bs, kids, x);
    assert forall k :: k in found + kids <==> k in found || k in kids;
  }

  lemma NamedInUniverse(bs: Branches, root: string, found: seq<string>, x: string)
    requires Named(bs, root, found, x)
    ensures x in Universe(bs, root)
  {
  }

  /** Visiting one new session keeps the search invariant. */
  lemma Expand(bs: Branches, root: string, visited: set<string>, rest: seq<string>, found: seq<string>,
      current: string, kids: seq<string>)
    requires Searching(bs, root, visited, [current] + rest, found) && current !in visited
    requires kids == Children(bs, bs.keys, current)
    ensures Searching(bs, root, visited + {current}, rest + Sessions(bs, kids), found + kids)
  {
    assert current in [current] + rest;
    ExpandCollected(bs, root, visited, found, current, kids);
    NamedInUniverse(bs, root, found, current);
    forall x
      ensures x in visited + {current} || x in rest + Sessions(bs, kids) <==> Named(bs, root, found + kids, x)
    {
      ExpandNamed(bs, root, found, kids, x);
      assert x in [current] + rest <==> x == current || x in rest;
      assert x in rest + Sessions(bs, kids) <==> x in rest || x in Sessions(bs, kids);
    }
  }
}
