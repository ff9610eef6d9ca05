/** The two-way subscription index: channel -> connections and connection -> channels. */
module Subscription {
  import opened Prelude

  type Pair = (string, string)  // (connection id, channel id)

  datatype Op =
    | Subscribe(conn: string, chan: string)
    | Unsubscribe(conn: string, chan: string)
    | RemoveAll(conn: string)

  /** The plain relation an operation sequence stands for. */
  function Relation(ops: seq<Op>): set<Pair> {
    if ops == [] then {}
    else
      var was, op := Relation(ops[..|ops| - 1]), ops[|ops| - 1];
      match op
      case Subscribe(c, ch) => was + {(c, ch)}
      case Unsubscribe(c, ch) => was - {(c, ch)}
      case RemoveAll(c) => set p | p in was && p.0 != c
  }

  class Index {
    var chanToConns: map<string, set<string>>
    var connToChans: map<string, set<string>>

    /** The two maps are exact inverses and neither holds an empty inner set. */
    ghost predicate Valid()
      reads this
    {
      && (forall c, ch :: In(chanToConns, ch, c) <==> In(connToChans, c, ch))
      && NoEmpty(chanToConns) && NoEmpty(connToChans)
    }

    ghost function Pairs(): set<Pair>
      reads this
    {
      set c, ch | c in connToChans && ch in connToChans[c] && In(connToChans, c, ch) :: (c, ch)
    }

    constructor ()
      ensures Valid() && Pairs() == {}
    {
      chanToConns, connToChans := map[], map[];
    }

    method Subscribe(c: string, ch: string)
      requires Valid()
      modifies this
      ensures Valid() && Pairs() == old(Pairs()) + {(c, ch)}
    {
      LinkIn(chanToConns, ch, c);
      LinkIn(connToChans, c, ch);
      AddConn(ch, c);
      AddChan(c, ch);
    }

    method AddConn(ch: string, c: string)
      modifies this`chanToConns
      ensures chanToConns == Link(old(chanToConns), ch, c)
    {
      if ch !in chanToConns {
        chanToConns := chanToConns[ch := {}];
      }
      chanToConns := chanToConns[ch := chanToConns[ch] + {c}];
    }

    method AddChan(c: string, ch: string)
      modifies this`connToChans
      ensures connToChans == Link(old(connToChans), c, ch)
    {
      if c !in connToChans {
        connToChans := connToChans[c := {}];
      }
      connToChans := connToChans[c := connToChans[c] + {ch}];
    }

    method Unsubscribe(c: string, ch: string)
      requires Valid()
      modifies this
      ensures Valid() && Pairs() == old(Pairs()) - {(c, ch)}
    {
      UnlinkIn(chanToConns, ch, c);
      UnlinkIn(connToChans, c, ch);
      DropConn(ch, c);
      if c in connToChans {
        connToChans := connToChans[c := connToChans[c] - {ch}];
        if |connToChans[c]| == 0 {
          connToChans := connToChans - {c};
        }
      }
      assert connToChans == Unlink(old(connToChans), c, ch);
    }

    /** Delete the connection from one channel's set, and the set once it is empty. */
    method DropConn(ch: string, c: string)
      modifies this`chanToConns
      ensures chanToConns == Unlink(old(chanToConns), ch, c)
    {
      if ch in chanToConns {
        chanToConns := chanToConns[ch := chanToConns[ch] - {c}];
        if |chanToConns[ch]| == 0 {
          chanToConns := chanToConns - {ch};
        }
      }
    }

    /** A snapshot of a channel's subscribers, each once. */
    method Subscribers(ch: string) returns (out: seq<string>)
      requires Valid()
      ensures forall c :: c in out <==> (c, ch) in Pairs()
      ensures Distinct(out)
    {
      out := [];
      var rest := if ch in chanToConns then chanToConns[ch] else {};
      ghost var all := rest;
      assert forall c :: c in all <==> In(connToChans, c, ch) by {
        forall c ensures c in all <==> In(connToChans, c, ch) { assert In(chanToConns, ch, c) <==> c in all; }
      }
      while rest != {}
        invariant rest <= all && Distinct(out)
        invariant forall c :: c in out <==> c in all - rest
      {
        var c :| c in rest;
        assert c !in out;
        rest, out := rest - {c}, out + [c];
      }
    }

    method RemoveAll(c: string)
      requires Valid()
      modifies this
      ensures Valid() && Pairs() == set p | p in old(Pairs()) && p.0 != c
      ensures c !in connToChans && forall ch :: ch in chanToConns ==> c !in chanToConns[ch]
    {
      var rest := if c in connToChans then connToChans[c] else {};
      ghost var all := rest;
      while rest != {}
        invariant rest <= all && connToChans == old(connToChans) && NoEmpty(chanToConns)
        invariant forall x, ch :: In(chanToConns, ch, x) <==>
            old(In(chanToConns, ch, x)) && !(x == c && ch in all - rest)
      {
        var ch :| ch in rest;
        UnlinkIn(chanToConns, ch, c);
        DropConn(ch, c);
        rest := rest - {ch};
      }
      connToChans := connToChans - {c};
      assert forall x, ch :: In(connToChans, x, ch) <==> old(In(connToChans, x, ch)) && x != c;
      assert forall ch :: In(old(connToChans), c, ch) <==> ch in all;
      assert forall ch :: ch in chanToConns ==> c !in chanToConns[ch] by {
        forall ch | ch in chanToConns && c in chanToConns[ch] ensures false {
          assert In(chanToConns, ch, c);
        }
      }
    }
  }

  /** After any sequence of operations the index is valid and holds exactly the relation. */
  method Apply(ops: seq<Op>) returns (index: Index)
    ensures index.Valid() && index.Pairs() == Relation(ops)
  {
    index := new Index();
    for i := 0 to |ops|
      invariant fresh(index) && index.Valid() && index.Pairs() == Relation(ops[..i])
    {
      assert ops[..i + 1][..i] == ops[..i];
      match ops[i]
      case Subscribe(c, ch) => index.Subscribe(c, ch);
      case Unsubscribe(c, ch) => index.Unsubscribe(c, ch);
      case RemoveAll(c) => index.RemoveAll(c);
    }
    assert ops[..|ops|] == ops;
  }
}
