/** Plugin registration and the depth-first setup order. `parse` stands for the
    version-constraint parser: a total function from dependency text to a name. */
module PluginLoader {
  import opened Prelude

  datatype Manifest = Manifest(offers: seq<string>, dependsOn: seq<string>)

  type Plugins = Dict<string, Manifest>

  // ---- the dependency graph --------------------------------------------------------

  /** Provided capability -> plugin, later registrations winning. */
  function Provides(plugins: Plugins, keys: seq<string>): map<string, string>
    requires forall k :: k in keys ==> k in plugins.table
  {
    if keys == [] then map[]
    else
      var name := keys[|keys| - 1];
      ProvidesOne(Provides(plugins, keys[..|keys| - 1]), plugins.table[name].offers, name)
  }

  function ProvidesOne(m: map<string, string>, caps: seq<string>, name: string): map<string, string> {
    if caps == [] then m else ProvidesOne(m, caps[..|caps| - 1], name)[caps[|caps| - 1] := name]
  }

  /** Position of the last registration that offers the capability. */
  function LastOffer(plugins: Plugins, keys: seq<string>, cap: string): (r: Option<nat>)
    requires forall k :: k in keys ==> k in plugins.table
    ensures r.Some? ==> r.value < |keys| && cap in plugins.table[keys[r.value]].offers
    ensures r.Some? ==> forall j :: r.value < j < |keys| ==> cap !in plugins.table[keys[j]].offers
    ensures r.None? ==> forall j :: 0 <= j < |keys| ==> cap !in plugins.table[keys[j]].offers
  {
    if keys == [] then None
    else if cap in plugins.table[keys[|keys| - 1]].offers then Some(|keys| - 1)
    else LastOffer(plugins, keys[..|keys| - 1], cap)
  }

  lemma {:induction false} ProvidesOneIs(m: map<string, string>, caps: seq<string>, name: string, cap: string)
    ensures var r := ProvidesOne(m, caps, name);
            if cap in caps then cap in r && r[cap] == name
            else (cap in r <==> cap in m) && (cap in m ==> r[cap] == m[cap])
  {
    if caps != [] {
      ProvidesOneIs(m, caps[..|caps| - 1], name, cap);
      assert caps == caps[..|caps| - 1] + [caps[|caps| - 1]];
    }
  }

  /** A capability maps to the plugin whose registration offered it last, and to none if no
      registered plugin offers it. */
  lemma {:induction false} ProvidesLast(plugins: Plugins, keys: seq<string>, cap: string)
    requires forall k :: k in keys ==> k in plugins.table
    ensures var i, m := LastOffer(plugins, keys, cap), Provides(plugins, keys);
            (cap in m <==> i.Some?) && (i.Some? ==> m[cap] == keys[i.value])
  {
    if keys != [] {
      var init, name := keys[..|keys| - 1], keys[|keys| - 1];
      ProvidesLast(plugins, init, cap);
      ProvidesOneIs(Provides(plugins, init), plugins.table[name].offers, name, cap);
    }
  }

  function Provider(provided: map<string, string>, name: string): string {
    if name in provided then provided[name] else name
  }

  /** `a` declares a dependency whose provider is the registered plugin `b`. */
  ghost predicate Edge(plugins: Plugins, provided: map<string, string>, parse: string -> string, a: string, b: string) {
    && a in plugins.table && b in plugins.table
    && exists d :: d in plugins.table[a].dependsOn && Provider(provided, parse(d)) == b
  }

  ghost predicate Path(plugins: Plugins, provided: map<string, string>, parse: string -> string, p: seq<string>) {
    |p| >= 2 && forall i :: 0 <= i < |p| - 1 ==> Edge(plugins, provided, parse, p[i], p[i + 1])
  }

  /** `a` depends on `b`, directly or through other registered plugins. */
  ghost predicate Depends(plugins: Plugins, provided: map<string, string>, parse: string -> string, a: string,
      b: string)
  {
    exists p :: Path(plugins, provided, parse, p) && p[0] == a && p[|p| - 1] == b
  }

  /** A dependency leads to the plugin registered last with that capability, and if nobody
      offers it to the plugin of that name. */
  lemma EdgeIff(plugins: Plugins, parse: string -> string, a: string, b: string)
    requires plugins.Valid() && a in plugins.table
    ensures Edge(plugins, Provides(plugins, plugins.keys), parse, a, b) <==>
            exists d :: d in plugins.table[a].dependsOn && LeadsTo(plugins, parse(d), b)
  {
    forall d | d in plugins.table[a].dependsOn
      ensures b in plugins.table && Provider(Provides(plugins, plugins.keys), parse(d)) == b <==>
              LeadsTo(plugins, parse(d), b)
    {
      ProvidesLast(plugins, plugins.keys, parse(d));
    }
  }

  ghost predicate LeadsTo(plugins: Plugins, cap: string, b: string)
    requires plugins.Valid()
  {
    match LastOffer(plugins, plugins.keys, cap)
    case Some(i) => b == plugins.keys[i]
    case None => b == cap && b in plugins.table
  }

  lemma DependsEdge(plugins: Plugins, provided: map<string, string>, parse: string -> string, a: string, b: string)
    requires Edge(plugins, provided, parse, a, b)
    ensures Depends(plugins, provided, parse, a, b)
  {
    assert Path(plugins, provided, parse, [a, b]);
  }

  lemma DependsSnoc(plugins: Plugins, provided: map<string, string>, parse: string -> string, a: string, b: string,
      c: string)
    requires Depends(plugins, provided, parse, a, b) && Edge(plugins, provided, parse, b, c)
    ensures Depends(plugins, provided, parse, a, c)
  {
    var p :| Path(plugins, provided, parse, p) && p[0] == a && p[|p| - 1] == b;
    var q := p + [c];
    forall i | 0 <= i < |q| - 1 ensures Edge(plugins, provided, parse, q[i], q[i + 1]) {
      if i < |p| - 1 { assert Edge(plugins, provided, parse, p[i], p[i + 1]); }
    }
    assert Path(plugins, provided, parse, q);
  }

  // ---- the depth-first visit ----------------------------------------------------------

  /** The closure variables of the nested `visit`. */
  class Resolver {
    const plugins: Plugins
    const provided: map<string, string>
    const parse: string -> string
    var visited: set<string>
    var order: seq<string>

    constructor (plugins: Plugins, provided: map<string, string>, parse: string -> string)
      requires plugins.Valid()
      ensures this.plugins == plugins && this.provided == provided && this.parse == parse
      ensures Valid({}) && order == []
    {
      this.plugins, this.provided, this.parse := plugins, provided, parse;
      visited, order := {}, [];
    }

    /** Each listed plugin has every registered provider before it, except providers
        that themselves depend on it. */
    ghost predicate Sound(order: seq<string>) {
      forall i, q :: 0 <= i < |order| && Edge(plugins, provided, parse, order[i], q) ==>
        q in order[..i] || Depends(plugins, provided, parse, q, order[i])
    }

    /** `stack` holds the plugins whose visit has begun but not ended. */
    ghost predicate Valid(stack: set<string>)
      reads this
    {
      && plugins.Valid()
      && stack <= visited <= plugins.table.Keys
      && Distinct(order)
      && (forall x :: x in order <==> x in visited - stack)
      && Sound(order)
    }

    /** Once all its providers have been visited, each is listed or itself depends on the plugin. */
    lemma ProvidersSettled(name: string, inner: set<string>)
      requires Valid(inner) && name in plugins.table
      requires forall x :: x in inner && x != name ==> Depends(plugins, provided, parse, x, name)
      requires forall j :: 0 <= j < |plugins.table[name].dependsOn| ==>
        (var q := Provider(provided, parse(plugins.table[name].dependsOn[j])); q in plugins.table ==> q in visited)
      ensures forall q :: Edge(plugins, provided, parse, name, q) ==>
        q in order || Depends(plugins, provided, parse, q, name)
    {
      var deps := plugins.table[name].dependsOn;
      forall q | Edge(plugins, provided, parse, name, q)
        ensures q in order || Depends(plugins, provided, parse, q, name)
      {
        var d :| d in deps && Provider(provided, parse(d)) == q;
        var j :| 0 <= j < |deps| && deps[j] == d;
        assert q in visited;
        if q == name { DependsEdge(plugins, provided, parse, name, name); }
      }
    }

    /** Everything under visit depends on the provider to be visited next. */
    lemma StackDepends(name: string, stack: set<string>, i: nat)
      requires name in plugins.table && i < |plugins.table[name].dependsOn|
      requires Provider(provided, parse(plugins.table[name].dependsOn[i])) in plugins.table
      requires forall x :: x in stack ==> Depends(plugins, provided, parse, x, name)
      ensures var q := Provider(provided, parse(plugins.table[name].dependsOn[i]));
              forall x :: x in stack + {name} ==> Depends(plugins, provided, parse, x, q)
    {
      var q := Provider(provided, parse(plugins.table[name].dependsOn[i]));
      assert plugins.table[name].dependsOn[i] in plugins.table[name].dependsOn;
      assert Edge(plugins, provided, parse, name, q);
      DependsEdge(plugins, provided, parse, name, q);
      forall x | x in stack ensures Depends(plugins, provided, parse, x, q) {
        DependsSnoc(plugins, provided, parse, x, name, q);
      }
    }

    method Visit(name: string, ghost stack: set<string>)
      requires Valid(stack) && name in plugins.table
      requires forall x :: x in stack ==> Depends(plugins, provided, parse, x, name)
      modifies this
      ensures Valid(stack) && name in visited && old(visited) <= visited
      decreases plugins.table.Keys - visited
    {
      if name in visited {
        return;
      }
      visited := visited + {name};
      ghost var inner := stack + {name};
      var deps := plugins.table[name].dependsOn;
      for i := 0 to |deps|
        invariant Valid(inner) && name in visited && old(visited) <= visited
        invariant forall j :: 0 <= j < i ==>
          (var q := Provider(provided, parse(deps[j])); q in plugins.table ==> q in visited)
      {
        var provider := Provider(provided, parse(deps[i]));
        if provider in plugins.table {
          StackDepends(name, stack, i);
          Visit(provider, inner);
        }
      }
      Append(name, stack);
    }

    /** The end of a visit. */
    method Append(name: string, ghost stack: set<string>)
      requires Valid(stack + {name}) && name !in stack && name in plugins.table
      requires forall x :: x in stack ==> Depends(plugins, provided, parse, x, name)
      requires forall j :: 0 <= j < |plugins.table[name].dependsOn| ==>
        (var q := Provider(provided, parse(plugins.table[name].dependsOn[j])); q in plugins.table ==> q in visited)
      modifies this`order
      ensures Valid(stack) && order == old(order) + [name]
    {
      ProvidersSettled(name, stack + {name});
      SoundSnoc(order, name);
      assert name !in order;
      assert visited - stack == visited - (stack + {name}) + {name};
      order := order + [name];
    }

    lemma SoundSnoc(order: seq<string>, name: string)
      requires Sound(order)
      requires forall q :: Edge(plugins, provided, parse, name, q) ==>
          q in order || Depends(plugins, provided, parse, q, name)
      ensures Sound(order + [name])
    {
      var longer := order + [name];
      forall i, q | 0 <= i < |longer| && Edge(plugins, provided, parse, longer[i], q)
        ensures q in longer[..i] || Depends(plugins, provided, parse, q, longer[i])
      {
        if i < |order| {
          assert longer[..i] == order[..i] && longer[i] == order[i];
        } else {
          assert longer[..i] == order;
        }
      }
    }
  }

  // ---- the loader ---------------------------------------------------------------------------

  class Loader {
    var plugins: Plugins
    const parse: string -> string

    constructor (parse: string -> string)
      ensures plugins == Dict([], map[]) && this.parse == parse
    {
      plugins := Dict([], map[]);
      this.parse := parse;
    }

    /** Refuses a name that is already registered. */
    method Register(name: string, manifest: Manifest) returns (ok: bool)
      requires plugins.Valid()
      modifies this
      ensures plugins.Valid() && ok == (name !in old(plugins.table))
      ensures plugins == if ok then Dict(old(plugins.keys) + [name], old(plugins.table)[name := manifest])
          else old(plugins)
    {
      if name in plugins.table {
        return false;
      }
      plugins := plugins.Put(name, manifest);
      return true;
    }

    method BuildProvides() returns (provided: map<string, string>)
      requires plugins.Valid()
      ensures provided == Provides(plugins, plugins.keys)
    {
      provided := map[];
      for i := 0 to |plugins.keys|
        invariant provided == Provides(plugins, plugins.keys[..i])
      {
        var name := plugins.keys[i];
        var caps := plugins.table[name].offers;
        ghost var before := provided;
        assert plugins.keys[..i + 1][..i] == plugins.keys[..i];
        for j := 0 to |caps|
          invariant provided == ProvidesOne(before, caps[..j], name)
        {
          assert caps[..j + 1][..j] == caps[..j];
          provided := provided[caps[j] := name];
        }
        assert caps[..|caps|] == caps;
      }
      assert plugins.keys[..|plugins.keys|] == plugins.keys;
    }

    /** The setup order, for any dependency graph, cyclic or not: every registered
        plugin exactly once, and a provider after its dependent only if the provider
        itself transitively depends on that dependent. */
    method ResolveOrder() returns (order: seq<string>)
      requires plugins.Valid()
      ensures Distinct(order) && forall x :: x in order <==> x in plugins.table
      ensures var provided := Provides(plugins, plugins.keys);
              forall i, j :: 0 <= i < j < |order| && Edge(plugins, provided, parse, order[i], order[j]) ==>
                Depends(plugins, provided, parse, order[j], order[i])
    {
      var provided := BuildProvides();
      var r := new Resolver(plugins, provided, parse);
      for i := 0 to |plugins.keys|
        invariant fresh(r) && r.Valid({}) && r.plugins == plugins && r.provided == provided && r.parse == parse
        invariant forall j :: 0 <= j < i ==> plugins.keys[j] in r.visited
      {
        r.Visit(plugins.keys[i], {});
      }
      order := r.order;
    }
  }

  // ---- consequence for acyclic graphs ------------------------------------------------------

  /** Without a dependency cycle, an order with the resolver's guarantee puts every
      provider before each of its dependents. */
  lemma AcyclicOrder(plugins: Plugins, provided: map<string, string>, parse: string -> string, order: seq<string>,
      i: nat, j: nat)
    requires forall a :: !Depends(plugins, provided, parse, a, a)
    requires forall i, j :: 0 <= i < j < |order| && Edge(plugins, provided, parse, order[i], order[j]) ==>
               Depends(plugins, provided, parse, order[j], order[i])
    requires i < |order| && j < |order| && Edge(plugins, provided, parse, order[i], order[j])
    ensures j < i
  {
    if i == j {
      DependsEdge(plugins, provided, parse, order[i], order[i]);
    } else if i < j {
      DependsSnoc(plugins, provided, parse, order[j], order[i], order[j]);
    }
  }
}
