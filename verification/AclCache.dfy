/** The per-connection set of visible channels. */
module AclCache {
  import opened Prelude

  /** `added` and `removed` list the difference of two sets, each id once. */
  ghost predicate IsDiff(was: set<string>, now: set<string>, added: seq<string>, removed: seq<string>) {
    && Distinct(added) && Distinct(removed)
    && (forall id :: id in added <==> id in now - was)
    && (forall id :: id in removed <==> id in was - now)
  }

  class Cache {
    var ids: set<string>

    constructor (initial: seq<string>)
      ensures ids == Elems(initial)
    {
      var all: set<string> := {};
      for i := 0 to |initial|
        invariant all == Elems(initial[..i])
      {
        assert initial[..i + 1] == initial[..i] + [initial[i]];
        all := all + {initial[i]};
      }
      assert initial[..|initial|] == initial;
      ids := all;
    }

    predicate Has(id: string)
      reads this
    {
      id in ids
    }

    method Add(id: string) returns (isNew: bool)
      modifies this
      ensures ids == old(ids) + {id} && isNew == (id !in old(ids))
    {
      if id in ids {
        return false;
      }
      ids := ids + {id};
      return true;
    }

    method Remove(id: string) returns (was: bool)
      modifies this
      ensures ids == old(ids) - {id} && was == (id in old(ids))
    {
      if id !in ids {
        return false;
      }
      ids := ids - {id};
      return true;
    }

    /** Members of `from` that are not in `other`, in some order. */
    static method Missing(from: set<string>, other: set<string>) returns (out: seq<string>)
      ensures Distinct(out) && forall id :: id in out <==> id in from - other
    {
      out := [];
      var rest := from;
      while rest != {}
        invariant rest <= from && Distinct(out)
        invariant forall id :: id in out <==> id in (from - rest) - other
      {
        var id :| id in rest;
        rest := rest - {id};
        if id !in other {
          assert id !in out;
          out := out + [id];
        }
      }
    }

    method Replace(next: seq<string>) returns (added: seq<string>, removed: seq<string>)
      modifies this
      ensures ids == Elems(next) && IsDiff(old(ids), ids, added, removed)
    {
      var set_: set<string> := Elems(next);
      added := Missing(set_, ids);
      removed := Missing(ids, set_);
      ids := set_;
    }
  }
}
