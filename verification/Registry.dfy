/** The connection registry with its per-user index. */
module Registry {
  import opened Prelude

  /** A connection; `user` is None for connections that carry no user id. */
  datatype Conn = Conn(tag: nat, user: Option<string>)

  datatype Table = Table(conns: map<string, Conn>, byUser: map<string, set<string>>)

  predicate Indexed(c: Conn) {
    c.user.Some? && c.user.value != ""
  }

  function Added(t: Table, id: string, c: Conn): Table {
    Table(t.conns[id := c],
          if Indexed(c) then Link(t.byUser, c.user.value, id) else t.byUser)
  }

  function Removed(t: Table, id: string): Table {
    Table(t.conns - {id},
          if id in t.conns && Indexed(t.conns[id]) then Unlink(t.byUser, t.conns[id].user.value, id) else t.byUser)
  }

  /** The ids a per-user lookup finds. */
  function Found(t: Table, u: string): set<string> {
    if u in t.byUser then set id | id in t.byUser[u] && id in t.conns else {}
  }

  /** The ids it should find: registered connections of that user. */
  function Owned(t: Table, u: string): set<string> {
    set id | id in t.conns && t.conns[id].user == Some(u)
  }

  /** The user index is exact: no stale entry, none missing, no empty set, no empty user. */
  ghost predicate Exact(t: Table) {
    && (forall u, id :: u in t.byUser && id in t.byUser[u] ==> id in t.conns && t.conns[id].user == Some(u))
    && (forall id :: id in t.conns && Indexed(t.conns[id]) ==>
          t.conns[id].user.value in t.byUser && id in t.byUser[t.conns[id].user.value])
    && (forall u :: u in t.byUser ==> u != "" && t.byUser[u] != {})
  }

  /** In an exact table a lookup returns exactly the connections of a non-empty user. */
  lemma FoundIsOwned(t: Table, u: string)
    requires Exact(t) && u != ""
    ensures Found(t, u) == Owned(t, u)
  {
    forall id | id in Owned(t, u) ensures id in Found(t, u) {
      assert Indexed(t.conns[id]);
    }
  }

  lemma RemovedExact(t: Table, id: string)
    requires Exact(t)
    ensures Exact(Removed(t, id))
    ensures id !in Removed(t, id).conns
    ensures forall u :: u in Removed(t, id).byUser ==> id !in Removed(t, id).byUser[u]
  {
    var r := Removed(t, id);
    forall x | x in r.conns && Indexed(r.conns[x])
      ensures r.conns[x].user.value in r.byUser && x in r.byUser[r.conns[x].user.value]
    {
      assert x in t.conns && x != id;
    }
  }

  /** Every per-user lookup finds exactly the user's connections. */
  ghost predicate LooksUp(t: Table) {
    forall u :: u != "" ==> Found(t, u) == Owned(t, u)
  }

  /** The added id belongs to somebody else in the index. */
  predicate TakesOver(t: Table, id: string, c: Conn) {
    id in t.conns && Indexed(t.conns[id]) && t.conns[id].user != c.user
  }

  /** From an exact table, adding keeps the index exact exactly when the id is not taken
      over from a different, indexed user; a takeover makes that user's lookup wrong. */
  lemma AddedExactIff(t: Table, id: string, c: Conn)
    requires Exact(t)
    ensures Exact(Added(t, id, c)) <==> !TakesOver(t, id, c)
    ensures LooksUp(Added(t, id, c)) <==> !TakesOver(t, id, c)
    ensures TakesOver(t, id, c) ==>
              var u := t.conns[id].user.value; id in Found(Added(t, id, c), u) && id !in Owned(Added(t, id, c), u)
  {
    var r := Added(t, id, c);
    if TakesOver(t, id, c) {
      var u := t.conns[id].user.value;
      assert u in r.byUser && id in r.byUser[u] && r.conns[id].user != Some(u);
      assert id in Found(r, u) && id !in Owned(r, u);
    } else {
      forall x | x in r.conns && Indexed(r.conns[x])
        ensures r.conns[x].user.value in r.byUser && x in r.byUser[r.conns[x].user.value]
      {
        if x != id { assert x in t.conns && Indexed(t.conns[x]); }
      }
      forall u | u != "" ensures Found(r, u) == Owned(r, u) { FoundIsOwned(r, u); }
    }
  }

  /** The id stands under no other user, be it for a live connection or as a leftover. */
  ghost predicate FreeFor(t: Table, id: string, c: Conn) {
    forall u :: u != "" && In(t.byUser, u, id) ==> c.user == Some(u)
  }

  /** From any table whose lookups are right, exact or not, adding keeps them right if and
      only if the id stands under no other user in the index. */
  lemma AddedLooksUpIff(t: Table, id: string, c: Conn)
    requires LooksUp(t)
    ensures LooksUp(Added(t, id, c)) <==> FreeFor(t, id, c)
  {
    var r := Added(t, id, c);
    if u :| u != "" && In(t.byUser, u, id) && c.user != Some(u) {
      assert id in Found(r, u) && id !in Owned(r, u);
    } else {
      forall u | u != "" ensures Found(r, u) == Owned(r, u) {
        AddedLookup(t, id, c, u);
      }
    }
  }

  lemma AddedLookup(t: Table, id: string, c: Conn, u: string)
    requires u != "" && Found(t, u) == Owned(t, u) && FreeFor(t, id, c)
    ensures Found(Added(t, id, c), u) == Owned(Added(t, id, c), u)
  {
    var r := Added(t, id, c);
    forall x ensures x in Found(r, u) <==> x in Owned(r, u) {
      assert x in Found(t, u) <==> x in Owned(t, u);
    }
  }

  // ---- any sequence of operations ------------------------------------------------

  datatype Op = Add(id: string, conn: Conn) | Remove(id: string)

  function After(t: Table, op: Op): Table {
    match op
    case Add(id, c) => Added(t, id, c)
    case Remove(id) => Removed(t, id)
  }

  function Run(ops: seq<Op>): Table {
    if ops == [] then Table(map[], map[]) else After(Run(ops[..|ops| - 1]), ops[|ops| - 1])
  }

  /** No id is re-added for a different user while still registered. */
  ghost predicate NoTakeover(ops: seq<Op>) {
    ops == [] ||
    var t, op := Run(ops[..|ops| - 1]), ops[|ops| - 1];
    NoTakeover(ops[..|ops| - 1]) && !(op.Add? && TakesOver(t, op.id, op.conn))
  }

  lemma {:induction false} RunExact(ops: seq<Op>)
    requires NoTakeover(ops)
    ensures Exact(Run(ops))
    ensures forall u :: u != "" ==> Found(Run(ops), u) == Owned(Run(ops), u)
  {
    if ops != [] {
      var t, op := Run(ops[..|ops| - 1]), ops[|ops| - 1];
      RunExact(ops[..|ops| - 1]);
      match op
      case Add(id, c) => AddedExactIff(t, id, c);
      case Remove(id) => RemovedExact(t, id);
    }
    forall u | u != "" ensures Found(Run(ops), u) == Owned(Run(ops), u) {
      FoundIsOwned(Run(ops), u);
    }
  }

  /** Lookups were right after every operation of the run. */
  ghost predicate AlwaysLooksUp(ops: seq<Op>) {
    forall n :: 0 <= n <= |ops| ==> LooksUp(Run(ops[..n]))
  }

  /** Lookups, exactly. Every lookup is right all along a run if and only if the run never
      re-adds a registered id for a different user. */
  lemma {:induction false} RunLooksUpIff(ops: seq<Op>)
    ensures AlwaysLooksUp(ops) <==> NoTakeover(ops)
  {
    assert ops[..|ops|] == ops;
    if ops != [] {
      var init, op := ops[..|ops| - 1], ops[|ops| - 1];
      RunLooksUpIff(init);
      assert forall n :: 0 <= n <= |init| ==> init[..n] == ops[..n];
      if NoTakeover(ops) {
        RunExact(ops);
        forall n | 0 <= n <= |ops| ensures LooksUp(Run(ops[..n])) {
          if n < |ops| { assert LooksUp(Run(init[..n])); }
        }
      } else if NoTakeover(init) {
        RunExact(init);
        AddedExactIff(Run(init), op.id, op.conn);
        assert !LooksUp(Run(ops[..|ops|]));
      } else {
        var n :| 0 <= n <= |init| && !LooksUp(Run(init[..n]));
        assert !LooksUp(Run(ops[..n]));
      }
    }
  }

  /** A takeover from the empty registry on: the old user's lookup returns the new user's connection. */
  lemma TakeoverMisleads(u: string, v: string)
    requires u != "" && v != "" && u != v
    ensures var t := Run([Add("c", Conn(1, Some(u))), Add("c", Conn(2, Some(v)))]);
            Found(t, u) == {"c"} && Owned(t, u) == {} && t.conns["c"].user == Some(v)
  {
    var a, b := Add("c", Conn(1, Some(u))), Add("c", Conn(2, Some(v)));
    RunSnoc([], a);
    RunSnoc([a], b);
    assert [] + [a] == [a] && [a] + [b] == [a, b];
    var one := Added(Table(map[], map[]), "c", a.conn);
    assert one.byUser[u] == {"c"};
    assert Added(one, "c", b.conn).byUser[u] == {"c"};
  }

  /** The leftover of a takeover outlives the connection: after its removal every lookup is
      right again and the id is free, yet adding it for the same new user misleads anew. */
  lemma LeftoverMisleads(u: string, v: string)
    requires u != "" && v != "" && u != v
    ensures var a, b, r := Add("c", Conn(1, Some(u))), Add("c", Conn(2, Some(v))), Remove("c");
            var t3, t4 := Run([a, b, r]), Run([a, b, r, b]);
            && LooksUp(t3) && "c" !in t3.conns && !TakesOver(t3, "c", b.conn)
            && Found(t4, u) == {"c"} && Owned(t4, u) == {}
  {
    var a, b, r := Add("c", Conn(1, Some(u))), Add("c", Conn(2, Some(v))), Remove("c");
    RunThree(a, b, r);
    RunSnoc([a, b, r], b);
    assert [a, b, r] + [b] == [a, b, r, b];
    TakenThenRemoved(a.conn, b.conn);
    LeftoverTable(u, b.conn);
  }

  lemma RunThree(a: Op, b: Op, c: Op)
    ensures Run([a, b, c]) == After(After(After(Table(map[], map[]), a), b), c)
  {
    RunSnoc([], a);
    RunSnoc([a], b);
    RunSnoc([a, b], c);
    assert [] + [a] == [a] && [a] + [b] == [a, b] && [a, b] + [c] == [a, b, c];
  }

  /** What a takeover and the removal of the connection leave behind. */
  lemma TakenThenRemoved(was: Conn, now: Conn)
    requires Indexed(was) && Indexed(now) && was.user != now.user
    ensures Removed(Added(Added(Table(map[], map[]), "c", was), "c", now), "c")
         == Table(map[], map[was.user.value := {"c"}])
  {
    var one := Added(Table(map[], map[]), "c", was);
    assert one.byUser[was.user.value] == {"c"};
    assert one.byUser == map[was.user.value := {"c"}];
    var two := Added(one, "c", now);
    assert two.byUser[now.user.value] == {"c"};
    assert two.byUser == map[was.user.value := {"c"}, now.user.value := {"c"}];
  }

  lemma LeftoverTable(u: string, c: Conn)
    requires u != "" && Indexed(c) && c.user != Some(u)
    ensures var t := Table(map[], map[u := {"c"}]);
            && LooksUp(t)
            && Found(Added(t, "c", c), u) == {"c"} && Owned(Added(t, "c", c), u) == {}
  {
    var t := Table(map[], map[u := {"c"}]);
    forall w | w != "" ensures Found(t, w) == Owned(t, w) {
      assert Found(t, w) == {} && Owned(t, w) == {};
    }
    assert Added(t, "c", c).byUser[u] == {"c"};
  }

  lemma RunSnoc(ops: seq<Op>, op: Op)
    ensures Run(ops + [op]) == After(Run(ops), op)
  {
    assert (ops + [op])[..|ops|] == ops;
  }

  // ---- the registry object -----------------------------------------------------------

  class ConnRegistry {
    var conns: map<string, Conn>
    var byUser: map<string, set<string>>

    function View(): Table
      reads this
    {
      Table(conns, byUser)
    }

    constructor ()
      ensures View() == Table(map[], map[])
    {
      conns, byUser := map[], map[];
    }

    method Add(id: string, c: Conn)
      modifies this
      ensures View() == Added(old(View()), id, c)
    {
      conns := conns[id := c];
      if c.user.Some? && c.user.value != "" {
        var uid := c.user.value;
        if uid !in byUser {
          byUser := byUser[uid := {}];
        }
        byUser := byUser[uid := byUser[uid] + {id}];
      }
    }

    method Remove(id: string)
      modifies this
      ensures View() == Removed(old(View()), id)
    {
      if id in conns && conns[id].user.Some? && conns[id].user.value != "" {
        var uid := conns[id].user.value;
        if uid in byUser {
          byUser := byUser[uid := byUser[uid] - {id}];
          if |byUser[uid]| == 0 {
            byUser := byUser - {uid};
          }
        }
      }
      conns := conns - {id};
    }

    /** Every live connection of the user, each once. */
    method ConnsByUser(u: string) returns (ids: seq<string>)
      ensures forall id :: id in ids <==> id in Found(View(), u)
      ensures Distinct(ids)
    {
      ids := [];
      var rest := if u in byUser then byUser[u] else {};
      ghost var all := rest;
      while rest != {}
        invariant rest <= all && Distinct(ids)
        invariant forall id :: id in ids <==> id in all - rest && id in conns
      {
        var id :| id in rest;
        rest := rest - {id};
        if id in conns {
          ids := ids + [id];
        }
      }
    }
  }
}
