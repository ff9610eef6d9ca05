/** The relay's handlers as they are written, loops over channels, connections and
    subscribers, with what each leaves behind; and the proof that the same outcome is an
    uninterrupted stretch of the transition system's steps, every one of them enabled. */
module RelayServer {
  import opened Prelude
  import opened Relay
  import AclCache
  import I = Invalidation
  import D = RelayDelivery
  import R = Registry
  import S = Subscription

  class Session {
    const id: string
    const user: string
    const workspace: string
    const cache: AclCache.Cache
    ghost const initial: set<string>
    var out: seq<Envelope>    // sends so far
    var ever: set<string>     // channels subscribed so far

    constructor (id: string, user: string, workspace: string, visible: seq<string>)
      ensures View(Reading) == Conn(user, Elems(visible), Elems(visible), [], Reading, {})
      ensures this.id == id && this.workspace == workspace && fresh(cache)
    {
      this.id, this.user, this.workspace := id, user, workspace;
      cache := new AclCache.Cache(visible);
      initial, out, ever := Elems(visible), [], {};
    }

    ghost function View(reader: Reader): Conn
      reads this, cache
    {
      Conn(user, initial, cache.ids, out, reader, ever)
    }
  }

  // ---- the subscribe loop ------------------------------------------------------------

  function Backfills(ch: string, events: seq<string>, first: bool): seq<Envelope> {
    seq(|events|, i requires 0 <= i < |events| => Backfill(ch, events[i], first))
  }

  /** One pass of the loop over requested channels. */
  function ServeItem(c: Conn, fetched: Option<seq<string>>): Conn
    requires c.reader.Gating? && HasCurrent(c.reader.p)
  {
    var p := c.reader.p;
    var ch := Current(p);
    if ch !in c.cache then Sent(c, Denied(ch)).(reader := Gating(p.(passed := p.passed + [false])))
    else
      c.(out := c.out + Backfills(ch, ToReplay(p, fetched), ch !in c.ever),
         ever := c.ever + {ch},
         reader := Gating(p.(passed := p.passed + [true], accepted := p.accepted + [ch])))
  }

  function Serve(c: Conn, fetch: nat -> Option<seq<string>>): (r: Conn)
    requires c.reader.Gating?
    ensures r.reader.Gating?
    decreases if HasCurrent(c.reader.p) then |c.reader.p.chans| - |c.reader.p.passed| else 0
  {
    if HasCurrent(c.reader.p) then Serve(ServeItem(c, fetch(|c.reader.p.passed|)), fetch) else c
  }

  /** Whether a step of the connection's own read loop can happen. */
  predicate CanStep(c: Conn, a: Action) {
    match a
    case AskSubscribe(_, _, _) => c.reader.Reading?
    case Gate(_, _) => c.reader.Gating? && HasCurrent(c.reader.p)
    case SendBackfill(_) => c.reader.Replaying? && c.reader.rest != [] && HasCurrent(c.reader.p)
    case Register(_) => c.reader.Replaying? && c.reader.rest == [] && HasCurrent(c.reader.p)
    case Acknowledge(_) => c.reader.Gating? && !HasCurrent(c.reader.p)
    case _ => false
  }

  /** Steps of one read loop with nothing in between, on the connection and on the index. */
  function LoopRun(c: Conn, subs: set<(string, string)>, as_: seq<Action>): (Conn, set<(string, string)>) {
    if as_ == [] then (c, subs)
    else
      var (c', subs') := LoopRun(c, subs, as_[..|as_| - 1]);
      (ReaderConn(c', as_[|as_| - 1]), ReaderSubs(subs', c', as_[|as_| - 1]))
  }

  ghost predicate LoopCan(c: Conn, as_: seq<Action>, id: string) {
    as_ == [] ||
    var a := as_[|as_| - 1];
    LoopCan(c, as_[..|as_| - 1], id) && CanStep(LoopRun(c, {}, as_[..|as_| - 1]).0, a) && a.id == id
  }

  lemma {:induction false} LoopConn(c: Conn, subs: set<(string, string)>, as_: seq<Action>)
    ensures LoopRun(c, subs, as_).0 == LoopRun(c, {}, as_).0
  {
    if as_ != [] {
      LoopConn(c, subs, as_[..|as_| - 1]);
    }
  }

  lemma OwnStep(s: State, id: string, a: Action)
    requires id in s.conns && CanStep(s.conns[id], a) && a.id == id
    ensures Enabled(s, a)
    ensures Next(s, a) == Set(s, id, ReaderConn(s.conns[id], a)).(subs := ReaderSubs(s.subs, s.conns[id], a))
  {
  }

  /** The same steps are a run of the whole relay, every one of them enabled. */
  lemma {:induction false} LoopIsRun(s: State, id: string, as_: seq<Action>)
    requires id in s.conns && LoopCan(s.conns[id], as_, id)
    ensures AllEnabled(s, as_)
    ensures var (c, subs) := LoopRun(s.conns[id], s.subs, as_); RunFrom(s, as_) == Set(s, id, c).(subs := subs)
  {
    if as_ == [] {
      assert s.conns[id := s.conns[id]] == s.conns;
    } else {
      var init, a := as_[..|as_| - 1], as_[|as_| - 1];
      LoopIsRun(s, id, init);
      LoopConn(s.conns[id], s.subs, init);
      OwnStep(RunFrom(s, init), id, a);
    }
  }

  lemma LoopSnoc(c: Conn, subs: set<(string, string)>, as_: seq<Action>, a: Action, id: string)
    ensures var (c', subs') := LoopRun(c, subs, as_);
            LoopRun(c, subs, as_ + [a]) == (ReaderConn(c', a), ReaderSubs(subs', c', a))
    ensures LoopCan(c, as_ + [a], id) <==> LoopCan(c, as_, id) && CanStep(LoopRun(c, subs, as_).0, a) && a.id == id
  {
    assert (as_ + [a])[..|as_|] == as_;
    LoopConn(c, subs, as_);
  }

  lemma {:induction false} LoopConcat(c: Conn, subs: set<(string, string)>, a: seq<Action>, b: seq<Action>, id: string)
    ensures var (c', subs') := LoopRun(c, subs, a);
            && LoopRun(c, subs, a + b) == LoopRun(c', subs', b)
            && (LoopCan(c, a + b, id) <==> LoopCan(c, a, id) && LoopCan(c', b, id))
  {
    var (c', subs') := LoopRun(c, subs, a);
    if b == [] {
      assert a + b == a;
    } else {
      var init, last := b[..|b| - 1], b[|b| - 1];
      LoopConcat(c, subs, a, init, id);
      LoopSnoc(c, subs, a + init, last, id);
      assert a + b == a + init + [last];
      LoopConn(c', subs', init);
    }
  }

  lemma LoopOne(c: Conn, subs: set<(string, string)>, a: Action, id: string)
    ensures LoopRun(c, subs, [a]) == (ReaderConn(c, a), ReaderSubs(subs, c, a))
    ensures LoopCan(c, [a], id) <==> CanStep(c, a) && a.id == id
  {
    LoopSnoc(c, subs, [], a, id);
    assert [] + [a] == [a];
  }

  function Sends(id: string, n: nat): seq<Action> {
    seq(n, _ => SendBackfill(id))
  }

  /** The steps of one pass: the gate, then for an admitted channel the replay sends and
      the registration. */
  function ItemSteps(c: Conn, id: string, fetched: Option<seq<string>>): seq<Action>
    requires c.reader.Gating? && HasCurrent(c.reader.p)
  {
    if Current(c.reader.p) !in c.cache then [Gate(id, fetched)]
    else [Gate(id, fetched)] + Sends(id, |ToReplay(c.reader.p, fetched)|) + [Register(id)]
  }

  lemma BackfillsSnoc(ch: string, events: seq<string>, n: nat, first: bool)
    requires n < |events|
    ensures Backfills(ch, events[..n + 1], first) ==
        Backfills(ch, events[..n], first) + [Backfill(ch, events[n], first)]
  {
  }

  /** The connection after `n` replay sends. */
  function Replayed(c: Conn, n: nat): Conn
    requires c.reader.Replaying? && HasCurrent(c.reader.p) && n <= |c.reader.rest|
  {
    var r := c.reader;
    c.(out := c.out + Backfills(Current(r.p), r.rest[..n], r.first), reader := r.(rest := r.rest[n..]))
  }

  lemma ReplayedSnoc(c: Conn, id: string, n: nat)
    requires c.reader.Replaying? && HasCurrent(c.reader.p) && n < |c.reader.rest|
    ensures CanStep(Replayed(c, n), SendBackfill(id))
    ensures ReaderConn(Replayed(c, n), SendBackfill(id)) == Replayed(c, n + 1)
  {
    var r := c.reader;
    BackfillsSnoc(Current(r.p), r.rest, n, r.first);
    assert r.rest[n..][1..] == r.rest[n + 1..];
  }

  lemma {:induction false} ReplayIsSteps(c: Conn, subs: set<(string, string)>, id: string, n: nat)
    requires c.reader.Replaying? && HasCurrent(c.reader.p) && n <= |c.reader.rest|
    ensures LoopCan(c, Sends(id, n), id) && LoopRun(c, subs, Sends(id, n)) == (Replayed(c, n), subs)
  {
    if n == 0 {
      assert c.out + Backfills(Current(c.reader.p), c.reader.rest[..0], c.reader.first) == c.out;
    } else {
      ReplayIsSteps(c, subs, id, n - 1);
      assert Sends(id, n) == Sends(id, n - 1) + [SendBackfill(id)];
      LoopSnoc(c, subs, Sends(id, n - 1), SendBackfill(id), id);
      ReplayedSnoc(c, id, n - 1);
    }
  }

  /** One pass of the loop is a gate step, then the replay sends, then the registration,
      each of them possible when its turn comes; it leaves the specified connection and
      puts exactly an admitted channel into the index. */
  lemma ServeItemIsSteps(c: Conn, subs: set<(string, string)>, id: string, fetched: Option<seq<string>>)
    requires c.reader.Gating? && HasCurrent(c.reader.p)
    ensures var ch, steps := Current(c.reader.p), ItemSteps(c, id, fetched);
            && LoopCan(c, steps, id)
            && LoopRun(c, subs, steps) == (ServeItem(c, fetched), if ch in c.cache then subs + {(id, ch)} else subs)
  {
    var gate := Gate(id, fetched);
    LoopOne(c, subs, gate, id);
    if Current(c.reader.p) in c.cache {
      var c1, events := ReaderConn(c, gate), ToReplay(c.reader.p, fetched);
      ReplayIsSteps(c1, subs, id, |events|);
      LoopConcat(c, subs, [gate], Sends(id, |events|), id);
      LoopSnoc(c, subs, [gate] + Sends(id, |events|), Register(id), id);
      assert events[..|events|] == events && events[|events|..] == [];
    }
  }

  function Pairs(id: string, chans: seq<string>): set<(string, string)> {
    set ch | ch in chans :: (id, ch)
  }

  /** The whole loop, one pass after the other. */
  lemma {:induction false} ServeIsSteps(c: Conn, subs: set<(string, string)>, id: string,
      fetch: nat -> Option<seq<string>>)
    returns (as_: seq<Action>)
    requires c.reader.Gating?
    ensures LoopCan(c, as_, id)
    ensures var done := Serve(c, fetch);
            && c.reader.p.accepted <= done.reader.p.accepted && !HasCurrent(done.reader.p)
            && LoopRun(c, subs, as_) == (done, subs + Pairs(id, done.reader.p.accepted[|c.reader.p.accepted|..]))
    decreases var p := c.reader.p; if HasCurrent(p) then |p.chans| - |p.passed| else 0
  {
    if HasCurrent(c.reader.p) {
      var fetched := fetch(|c.reader.p.passed|);
      var item, c1 := ItemSteps(c, id, fetched), ServeItem(c, fetched);
      ServeItemIsSteps(c, subs, id, fetched);
      var subs1 := LoopRun(c, subs, item).1;
      var rest := ServeIsSteps(c1, subs1, id, fetch);
      LoopConcat(c, subs, item, rest, id);
      as_ := item + rest;
      PairsStep(id, subs, Current(c.reader.p), c.reader.p.accepted, c1.reader.p.accepted,
          Serve(c, fetch).reader.p.accepted);
    } else {
      as_ := [];
      assert c.reader.p.accepted[|c.reader.p.accepted|..] == [];
      assert subs + Pairs(id, []) == subs;
    }
  }

  lemma PairsStep(id: string, subs: set<(string, string)>, ch: string, a: seq<string>, b: seq<string>, all: seq<string>)
    requires b <= all && (b == a || b == a + [ch])
    ensures a <= all
    ensures (if b == a then subs else subs + {(id, ch)}) + Pairs(id, all[|b|..]) == subs + Pairs(id, all[|a|..])
  {
    if b != a {
      assert all[|a|..] == [ch] + all[|b|..];
      assert Pairs(id, [ch] + all[|b|..]) == {(id, ch)} + Pairs(id, all[|b|..]);
    }
  }

  /** What the subscribe branch leaves of the connection, and the channels it accepted. */
  function Served(c: Conn, id: string, chans: seq<string>, resume: seq<int>, fetch: nat -> Option<seq<string>>)
    : (Conn, seq<string>)
  {
    var done := Serve(c.(reader := Gating(Progress(chans, resume, |c.out|, [], []))), fetch);
    (ReaderConn(done, Acknowledge(id)), done.reader.p.accepted)
  }

  /** The subscribe branch, undisturbed, is a run of the transition system: from any state
      in which the connection is reading, enabled steps lead to the connection the handler
      leaves, with exactly the accepted channels added to the index. */
  lemma SubscribeIsSteps(s: State, id: string, chans: seq<string>, resume: seq<int>, fetch: nat -> Option<seq<string>>)
    returns (as_: seq<Action>)
    requires id in s.conns && s.conns[id].reader.Reading?
    ensures AllEnabled(s, as_)
    ensures var (c, accepted) := Served(s.conns[id], id, chans, resume, fetch);
            RunFrom(s, as_) == Set(s, id, c).(subs := s.subs + Pairs(id, accepted))
  {
    var c, ask := s.conns[id], AskSubscribe(id, chans, resume);
    LoopOne(c, s.subs, ask, id);
    var loop := ServeIsSteps(ReaderConn(c, ask), s.subs, id, fetch);
    LoopConcat(c, s.subs, [ask], loop, id);
    LoopSnoc(c, s.subs, [ask] + loop, Acknowledge(id), id);
    as_ := [ask] + loop + [Acknowledge(id)];
    LoopIsRun(s, id, as_);
  }

  method SendBackfills(conn: Session, ch: string, events: seq<string>)
    modifies conn
    ensures conn.out == old(conn.out) + Backfills(ch, events, ch !in conn.ever) && conn.ever == old(conn.ever)
  {
    for k := 0 to |events|
      invariant conn.ever == old(conn.ever)
      invariant conn.out == old(conn.out) + Backfills(ch, events[..k], ch !in conn.ever)
    {
      assert Backfills(ch, events[..k + 1], ch !in conn.ever)
          == Backfills(ch, events[..k], ch !in conn.ever) + [Backfill(ch, events[k], ch !in conn.ever)];
      conn.out := conn.out + [Backfill(ch, events[k], ch !in conn.ever)];
    }
    assert events[..|events|] == events;
  }

  /** Send what was missed since a positive cursor, when the fetch answers. */
  method CatchUp(conn: Session, ch: string, since: int, events: Option<seq<string>>, ghost p: Progress)
    requires since == if |p.passed| < |p.resume| then p.resume[|p.passed|] else 0
    modifies conn
    ensures conn.out == old(conn.out) + Backfills(ch, ToReplay(p, events), ch !in conn.ever) &&
        conn.ever == old(conn.ever)
  {
    if since > 0 && events.Some? {
      SendBackfills(conn, ch, events.value);
    }
  }

  function Answered(p: Progress, ok: bool): Progress
    requires HasCurrent(p)
  {
    if ok then p.(passed := p.passed + [true], accepted := p.accepted + [Current(p)])
    else p.(passed := p.passed + [false])
  }

  /** The body of the loop over requested channels; `ok` says whether the gate let it pass. */
  method ServeChannel(conn: Session, subs: S.Index, since: int, events: Option<seq<string>>, ch: string,
      ghost p: Progress)
    returns (ok: bool)
    requires subs.Valid() && HasCurrent(p) && ch == Current(p)
    requires since == if |p.passed| < |p.resume| then p.resume[|p.passed|] else 0
    modifies conn, subs
    ensures subs.Valid() && subs.Pairs() == old(subs.Pairs()) + if ok then {(conn.id, ch)} else {}
    ensures conn.View(Gating(Answered(p, ok))) == ServeItem(old(conn.View(Gating(p))), events)
  {
    ok := conn.cache.Has(ch);
    if !ok {
      conn.out := conn.out + [Denied(ch)];
      return;
    }
    CatchUp(conn, ch, since, events, p);
    subs.Subscribe(conn.id, ch);
    conn.ever := conn.ever + {ch};
  }

  /** The subscribe branch of the message handler; `fetch(i)` answers the i-th backfill request. */
  method HandleSubscribe(conn: Session, subs: S.Index, chans: seq<string>, resume: seq<int>,
      fetch: nat -> Option<seq<string>>)
    returns (accepted: seq<string>)
    requires subs.Valid()
    modifies conn, subs
    ensures subs.Valid() && subs.Pairs() == old(subs.Pairs()) + Pairs(conn.id, accepted)
    ensures (conn.View(Reading), accepted) == Served(old(conn.View(Reading)), conn.id, chans, resume, fetch)
  {
    accepted := [];
    ghost var p := Progress(chans, resume, |conn.out|, [], []);
    for i := 0 to |chans|
      invariant p.chans == chans && p.resume == resume && |p.passed| == i && p.accepted == accepted
      invariant subs.Valid() && subs.Pairs() == old(subs.Pairs()) + Pairs(conn.id, accepted)
      invariant Serve(conn.View(Gating(p)), fetch)
             == Serve(old(conn.View(Gating(Progress(chans, resume, |conn.out|, [], [])))), fetch)
    {
      var ok := ServeChannel(conn, subs, if i < |resume| then resume[i] else 0, fetch(i), chans[i], p);
      p := Answered(p, ok);
      if ok {
        accepted := accepted + [chans[i]];
      }
    }
    conn.out := conn.out + [Subscribed(accepted)];
  }

  // ---- invalidation ----------------------------------------------------------------------

  /** What an invalidation must have done to one connection. */
  twostate predicate Refreshed(c: Session, ev: I.Event, new fetched: Option<seq<string>>)
    reads c, c.cache
  {
    exists added: seq<string>, removed: seq<string> ::
      && (ev.UserWide? && fetched.Some? ==> AclCache.IsDiff(old(c.cache.ids), Elems(fetched.value), added, removed))
      && var (now, envs) := Refresh(old(c.cache.ids), ev, fetched, added, removed);
         c.cache.ids == now && c.out == old(c.out) + envs && c.ever == old(c.ever)
  }

  method UpdateConn(c: Session, ev: I.Event, fetched: Option<seq<string>>)
    modifies c, c.cache
    ensures Refreshed(c, ev, fetched)
  {
    ghost var before, out := c.cache.ids, c.out;
    ghost var added: seq<string>, removed: seq<string> := [], [];
    match ev {
      case Single(_, ch, op) =>
        if op.RemoveOp? {
          var had := c.cache.Remove(ch);
          if had {
            c.out := c.out + [Revoked(ch)];
          }
        } else {
          var isNew := c.cache.Add(ch);
          if isNew {
            c.out := c.out + [Granted(ch)];
          }
        }
      case UserWide(_) =>
        if fetched.Some? {
          var plus, minus := c.cache.Replace(fetched.value);
          SendEach(c, Grants(plus));
          SendEach(c, Revokes(minus));
          added, removed := plus, minus;
        }
    }
    assert c.out == out + Refresh(before, ev, fetched, added, removed).1;
  }

  method SendEach(c: Session, envs: seq<Envelope>)
    modifies c
    ensures c.out == old(c.out) + envs && c.ever == old(c.ever)
  {
    for i := 0 to |envs|
      invariant c.out == old(c.out) + envs[..i] && c.ever == old(c.ever)
    {
      c.out := c.out + [envs[i]];
    }
  }

  /** The loop over a user's connections; `visible` answers per workspace. */
  method RefreshEach(conns: seq<Session>, ev: I.Event, visible: string -> Option<seq<string>>)
    requires forall i, j :: 0 <= i < j < |conns| ==> conns[i] != conns[j] && conns[i].cache != conns[j].cache
    modifies conns, set c | c in conns :: c.cache
    ensures forall i :: 0 <= i < |conns| ==> Refreshed(conns[i], ev, visible(conns[i].workspace))
  {
    for i := 0 to |conns|
      invariant forall j :: 0 <= j < i ==> Refreshed(conns[j], ev, visible(conns[j].workspace))
      invariant forall j :: i <= j < |conns| ==> unchanged(conns[j]) && unchanged(conns[j].cache)
    {
      UpdateConn(conns[i], ev, visible(conns[i].workspace));
    }
  }

  /** `HandleEvent`: refresh every connection the registry finds for the user, each once,
      and touch no other. */
  method HandleEvent(reg: R.ConnRegistry, sessions: map<string, Session>, ev: I.Event,
      visible: string -> Option<seq<string>>)
    requires reg.conns.Keys <= sessions.Keys
    requires forall a, b :: a in sessions && b in sessions && a != b ==>
               sessions[a] != sessions[b] && sessions[a].cache != sessions[b].cache
    modifies sessions.Values, set c | c in sessions.Values :: c.cache
    ensures forall id :: id in sessions && id in R.Found(old(reg.View()), ev.user) ==>
              Refreshed(sessions[id], ev, visible(sessions[id].workspace))
    ensures forall id :: id in sessions && id !in R.Found(old(reg.View()), ev.user) ==>
              unchanged(sessions[id]) && unchanged(sessions[id].cache)
  {
    var ids := reg.ConnsByUser(ev.user);
    assert forall id :: id in ids ==> id in sessions;
    var conns := seq(|ids|, i requires 0 <= i < |ids| => assert ids[i] in ids; sessions[ids[i]]);
    RefreshEach(conns, ev, visible);
    forall id | id in sessions && id in R.Found(old(reg.View()), ev.user)
      ensures Refreshed(sessions[id], ev, visible(sessions[id].workspace))
    {
      var i :| 0 <= i < |ids| && ids[i] == id;
      assert conns[i] == sessions[id];
    }
  }

  /** What each connection's fetch answers and which difference its cache reports. */
  datatype Answer = Answer(fetched: Option<seq<string>>, added: seq<string>, removed: seq<string>)

  ghost predicate Truthful(c: Conn, ev: I.Event, a: Answer) {
    ev.UserWide? && a.fetched.Some? ==> AclCache.IsDiff(c.cache, Elems(a.fetched.value), a.added, a.removed)
  }

  /** One connection after an invalidation: the new cache, and the envelopes owed for it. */
  function AfterEvent(c: Conn, ev: I.Event, a: Answer): Conn {
    var (cache, envs) := Refresh(c.cache, ev, a.fetched, a.added, a.removed);
    c.(cache := cache, out := c.out + envs)
  }

  lemma {:induction false} SendOwedIsSteps(s: State) returns (as_: seq<Action>)
    requires s.acl.AclSending? && s.acl.id in s.conns
    ensures AllEnabled(s, as_)
    ensures var c := s.conns[s.acl.id];
            RunFrom(s, as_) == Set(s, s.acl.id, c.(out := c.out + s.acl.envs)).(acl := AclLoop(s.acl.ev, s.acl.rest))
    decreases |s.acl.envs|
  {
    var id, envs := s.acl.id, s.acl.envs;
    var c := s.conns[id];
    RunFromSnoc(s, [], SendAcl);
    assert [] + [SendAcl] == [SendAcl];
    if envs == [] {
      as_ := [SendAcl];
      assert c.out + envs == c.out;
      assert s.conns[id := c] == s.conns;
    } else {
      var s1 := Next(s, SendAcl);
      var rest := SendOwedIsSteps(s1);
      RunFromConcat(s, [SendAcl], rest);
      as_ := [SendAcl] + rest;
      assert c.out + [envs[0]] + envs[1..] == c.out + envs;
      assert s1.conns[id := Sent(c, envs[0]).(out := c.out + envs)] == s.conns[id := c.(out := c.out + envs)];
    }
  }

  lemma UpdateIsSteps(s: State, id: string, a: Answer) returns (as_: seq<Action>)
    requires s.acl.AclLoop? && id in s.acl.rest && id in s.conns && Truthful(s.conns[id], s.acl.ev, a)
    ensures AllEnabled(s, as_)
    ensures RunFrom(s, as_) ==
        Set(s, id, AfterEvent(s.conns[id], s.acl.ev, a)).(acl := AclLoop(s.acl.ev, s.acl.rest - {id}))
  {
    var update := UpdateCache(id, a.fetched, a.added, a.removed);
    RunFromSnoc(s, [], update);
    assert [] + [update] == [update];
    var s1 := Next(s, update);
    var sends := SendOwedIsSteps(s1);
    RunFromConcat(s, [update], sends);
    as_ := [update] + sends;
  }

  /** The connections after refreshing those in `ids`. */
  function AllAfter(conns: map<string, Conn>, ids: set<string>, ev: I.Event, answers: map<string, Answer>)
    : map<string, Conn>
  {
    map id | id in conns :: if id in ids && id in answers then AfterEvent(conns[id], ev, answers[id]) else conns[id]
  }

  lemma AllAfterOne(conns: map<string, Conn>, ids: set<string>, id: string, ev: I.Event, answers: map<string, Answer>)
    requires id in ids && id in conns && id in answers
    ensures var one := conns[id := AfterEvent(conns[id], ev, answers[id])];
            AllAfter(one, ids - {id}, ev, answers) == AllAfter(conns, ids, ev, answers)
  {
  }

  lemma LoopEndIsStep(s: State)
    requires s.acl.AclLoop? && s.acl.rest == {}
    ensures AllEnabled(s, [SendAcl]) && RunFrom(s, [SendAcl]) == s.(acl := AclIdle)
  {
    D.RunFromOne(s, SendAcl);
  }

  lemma {:induction false} RefreshAllIsSteps(s: State, ev: I.Event, rest: set<string>, answers: map<string, Answer>)
    returns (as_: seq<Action>)
    requires s.acl == AclLoop(ev, rest) && rest <= s.conns.Keys && rest <= answers.Keys
    requires forall id :: id in rest ==> Truthful(s.conns[id], ev, answers[id])
    ensures AllEnabled(s, as_)
    ensures RunFrom(s, as_) == s.(conns := AllAfter(s.conns, rest, ev, answers), acl := AclIdle)
    decreases rest
  {
    if rest == {} {
      LoopEndIsStep(s);
      as_ := [SendAcl];
      assert AllAfter(s.conns, {}, ev, answers) == s.conns;
    } else {
      var id :| id in rest;
      var one := UpdateIsSteps(s, id, answers[id]);
      var s1 := s.(conns := s.conns[id := AfterEvent(s.conns[id], ev, answers[id])], acl := AclLoop(ev, rest - {id}));
      assert RunFrom(s, one) == s1;
      var more := RefreshAllIsSteps(s1, ev, rest - {id}, answers);
      RunFromConcat(s, one, more);
      as_ := one + more;
      AllAfterOne(s.conns, rest, id, ev, answers);
    }
  }

  /** An invalidation handled without interruption is a run of the transition system: from
      any state with the goroutine idle, enabled steps refresh exactly the user's registered
      connections, each as the handler refreshes it, and change nothing else. */
  lemma EventIsSteps(s: State, ev: I.Event, answers: map<string, Answer>) returns (as_: seq<Action>)
    requires s.acl.AclIdle? && Concerned(s, ev) <= answers.Keys
    requires forall id :: id in Concerned(s, ev) ==> Truthful(s.conns[id], ev, answers[id])
    ensures AllEnabled(s, as_)
    ensures RunFrom(s, as_) == s.(conns := AllAfter(s.conns, Concerned(s, ev), ev, answers))
  {
    RunFromSnoc(s, [], Invalidate(ev));
    assert [] + [Invalidate(ev)] == [Invalidate(ev)];
    var s1 := Next(s, Invalidate(ev));
    assert s1.acl == AclLoop(ev, Concerned(s, ev));
    var more := RefreshAllIsSteps(s1, ev, Concerned(s, ev), answers);
    RunFromConcat(s, [Invalidate(ev)], more);
    as_ := [Invalidate(ev)] + more;
  }

  // ---- dispatch -------------------------------------------------------------------------------

  /** Fan one event out to every subscribed connection that is still registered. */
  method ToSubscribers(ch: string, event: string, subs: S.Index, sessions: map<string, Session>)
    requires subs.Valid()
    requires forall a, b :: a in sessions && b in sessions && a != b ==> sessions[a] != sessions[b]
    modifies sessions.Values
    ensures forall id :: id in sessions ==>
      sessions[id].out == old(sessions[id].out) + if ch != "" && (id, ch) in subs.Pairs() then [Live(ch, event)] else []
  {
    if ch == "" {
      return;
    }
    var targets := subs.Subscribers(ch);
    for i := 0 to |targets|
      invariant forall id :: id in sessions ==>
        sessions[id].out == old(sessions[id].out) + if id in targets[..i] then [Live(ch, event)] else []
    {
      var id := targets[i];
      assert id !in targets[..i];
      assert targets[..i + 1] == targets[..i] + [id];
      if id in sessions {
        sessions[id].out := sessions[id].out + [Live(ch, event)];
      }
    }
    assert targets[..|targets|] == targets;
  }

  /** The connections after one event has been sent to those in `ids`. */
  function AllSent(conns: map<string, Conn>, ids: set<string>, e: Envelope): map<string, Conn> {
    map id | id in conns :: if id in ids then Sent(conns[id], e) else conns[id]
  }

  lemma {:induction false} DeliverAllIsSteps(s: State, d: nat) returns (as_: seq<Action>)
    requires d in s.fanouts && s.fanouts[d].holding.None?
    requires s.fanouts[d].targets <= s.registered && s.fanouts[d].targets <= s.conns.Keys
    ensures AllEnabled(s, as_)
    ensures var f := s.fanouts[d];
            RunFrom(s, as_) == s.(conns := AllSent(s.conns, f.targets, Live(f.chan, f.event)),
                                  fanouts := s.fanouts[d := f.(targets := {})])
    decreases s.fanouts[d].targets
  {
    var f := s.fanouts[d];
    var e := Live(f.chan, f.event);
    if f.targets == {} {
      as_ := [];
      assert AllSent(s.conns, {}, e) == s.conns && s.fanouts[d := f] == s.fanouts;
    } else {
      var id :| id in f.targets;
      D.LookUpAndDeliver(s, d, id);
      var s1 := D.Delivered(s, d, id);
      assert s1.fanouts[d].targets == f.targets - {id};
      var rest := DeliverAllIsSteps(s1, d);
      RunFromConcat(s, [Lookup(d, id), Deliver(d)], rest);
      as_ := [Lookup(d, id), Deliver(d)] + rest;
      assert AllSent(s1.conns, f.targets - {id}, e) == AllSent(s.conns, f.targets, e);
    }
  }

  /** Whom an event is for: nobody when the channel id is empty. */
  function Receivers(s: State, ch: string): set<string> {
    set id | id in s.conns && ch != "" && (id, ch) in s.subs
  }

  /** A dispatch carried through without interruption is a run of the transition system:
      from any reachable state, enabled steps send the event once to exactly the
      connections subscribed to its channel. For the empty channel id there is
      nothing to do. */
  lemma DispatchIsSteps(before: seq<Action>, d: nat, ch: string, event: string) returns (as_: seq<Action>)
    requires d !in Run(before).fanouts
    ensures var s := Run(before);
            var s' := RunFrom(s, as_);
            && AllEnabled(s, as_)
            && s'.conns == AllSent(s.conns, Receivers(s, ch), Live(ch, event))
            && s'.subs == s.subs && s'.registered == s.registered && s'.acl == s.acl
  {
    RunLifetime(before);
    var s, start := Run(before), Dispatch(d, ch, event);
    if ch == "" {
      as_ := [];
      assert AllSent(s.conns, {}, Live(ch, event)) == s.conns;
      return;
    }
    D.DispatchStep(s, d, ch, event);
    D.RunFromOne(s, start);
    var s1 := Next(s, start);
    assert s1.fanouts[d].targets == Receivers(s, ch);
    var more := DeliverAllIsSteps(s1, d);
    RunFromConcat(s, [start], more);
    as_ := [start] + more;
  }
}
