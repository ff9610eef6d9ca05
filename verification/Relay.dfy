/** The fan-out relay as one transition system: a read loop per connection, any
    number of concurrent dispatches, and the ACL invalidation goroutine. Each step is
    one lock-held operation or one send; sends are taken as delivered. Connection ids
    are never reused. */
module Relay {
  import opened Prelude
  import opened AclCache
  import I = Invalidation

  /** What a client receives. `first` is bookkeeping on a replayed event: it was sent
      while the connection had never yet been subscribed to the channel. */
  datatype Envelope =
    | Granted(chan: string)
    | Revoked(chan: string)
    | Backfill(chan: string, event: string, first: bool)
    | Live(chan: string, event: string)
    | Subscribed(chans: seq<string>)
    | Denied(chan: string)
    | Pong

  /** A subscribe message being worked through: `passed` records the gate's answers so
      far, `start` how many envelopes the client had when the message arrived. */
  datatype Progress = Progress(chans: seq<string>, resume: seq<int>, start: nat, passed: seq<bool>,
      accepted: seq<string>)

  datatype Reader =
    | Reading
    | Gating(p: Progress)
    | Replaying(p: Progress, rest: seq<string>, first: bool)
    | Unsubscribing(left: seq<string>)
    | Leaving   // read loop over, subscriptions removed
    | Gone      // unregistered

  datatype Conn = Conn(
    user: string,
    initial: set<string>,    // visible channels at connect time
    cache: set<string>,
    out: seq<Envelope>,
    reader: Reader,
    ever: set<string>)       // channels it has ever been subscribed to

  datatype Fanout = Fanout(chan: string, event: string, targets: set<string>, holding: Option<string>)

  datatype Acl =
    | AclIdle
    | AclLoop(ev: I.Event, rest: set<string>)
    | AclSending(ev: I.Event, id: string, envs: seq<Envelope>, rest: set<string>)

  datatype State = State(
    conns: map<string, Conn>,          // every connection so far, gone ones included
    registered: set<string>,
    subs: set<(string, string)>,
    fanouts: map<nat, Fanout>,
    acl: Acl)

  datatype Action =
    | Connect(id: string, user: string, visible: seq<string>)
    | AskSubscribe(id: string, chans: seq<string>, resume: seq<int>)
    | AskUnsubscribe(id: string, chans: seq<string>)
    | Ping(id: string)
    | Gate(id: string, fetched: Option<seq<string>>)
    | SendBackfill(id: string)
    | Register(id: string)
    | Acknowledge(id: string)
    | DropOne(id: string)
    | Hangup(id: string)
    | Unregister(id: string)
    | Dispatch(d: nat, chan: string, event: string)
    | Lookup(d: nat, id: string)
    | Deliver(d: nat)
    | Invalidate(ev: I.Event)
    | UpdateCache(id: string, fetched: Option<seq<string>>, added: seq<string>, removed: seq<string>)
    | SendAcl

  function Init(): State {
    State(map[], {}, {}, map[], AclIdle)
  }

  // ---- steps -----------------------------------------------------------------------

  ghost predicate Enabled(s: State, a: Action) {
    match a
    case Connect(id, _, _) => id !in s.conns
    case AskSubscribe(id, _, _) => id in s.conns && s.conns[id].reader.Reading?
    case AskUnsubscribe(id, _) => id in s.conns && s.conns[id].reader.Reading?
    case Ping(id) => id in s.conns && s.conns[id].reader.Reading?
    case Gate(id, _) => id in s.conns && s.conns[id].reader.Gating? && HasCurrent(s.conns[id].reader.p)
    case SendBackfill(id) =>
      && id in s.conns && s.conns[id].reader.Replaying? && s.conns[id].reader.rest != []
      && HasCurrent(s.conns[id].reader.p)
    case Register(id) =>
      && id in s.conns && s.conns[id].reader.Replaying? && s.conns[id].reader.rest == []
      && HasCurrent(s.conns[id].reader.p)
    case Acknowledge(id) => id in s.conns && s.conns[id].reader.Gating? && !HasCurrent(s.conns[id].reader.p)
    case DropOne(id) => id in s.conns && s.conns[id].reader.Unsubscribing?
    case Hangup(id) => id in s.conns && s.conns[id].reader.Reading?
    case Unregister(id) => id in s.conns && s.conns[id].reader.Leaving?
    case Dispatch(d, chan, _) => d !in s.fanouts && chan != ""
    case Lookup(d, id) => d in s.fanouts && id in s.fanouts[d].targets && s.fanouts[d].holding.None?
    case Deliver(d) => d in s.fanouts && s.fanouts[d].holding.Some? && s.fanouts[d].holding.value in s.conns
    case Invalidate(_) => s.acl.AclIdle?
    case UpdateCache(id, fetched, added, removed) =>
      && s.acl.AclLoop? && id in s.acl.rest && id in s.conns
      && (s.acl.ev.UserWide? && fetched.Some? ==> IsDiff(s.conns[id].cache, Elems(fetched.value), added, removed))
    case SendAcl => (s.acl.AclSending? && s.acl.id in s.conns) || (s.acl.AclLoop? && s.acl.rest == {})
  }

  predicate HasCurrent(p: Progress) {
    |p.passed| < |p.chans|
  }

  function Current(p: Progress): string
    requires HasCurrent(p)
  {
    p.chans[|p.passed|]
  }

  /** Missed events to replay: only for a positive cursor and a successful fetch. */
  function ToReplay(p: Progress, fetched: Option<seq<string>>): seq<string> {
    if |p.passed| < |p.resume| && p.resume[|p.passed|] > 0 && fetched.Some? then fetched.value else []
  }

  /** The cache an invalidation leaves and the envelopes it owes the client. */
  function Refresh(cache: set<string>, ev: I.Event, fetched: Option<seq<string>>, added: seq<string>,
      removed: seq<string>)
    : (set<string>, seq<Envelope>)
  {
    match ev
    case Single(_, ch, op) =>
      if op.RemoveOp? then (cache - {ch}, if ch in cache then [Revoked(ch)] else [])
      else (cache + {ch}, if ch in cache then [] else [Granted(ch)])
    case UserWide(_) =>
      if fetched.None? then (cache, []) else (Elems(fetched.value), Grants(added) + Revokes(removed))
  }

  function Grants(chans: seq<string>): seq<Envelope> {
    seq(|chans|, i requires 0 <= i < |chans| => Granted(chans[i]))
  }

  function Revokes(chans: seq<string>): seq<Envelope> {
    seq(|chans|, i requires 0 <= i < |chans| => Revoked(chans[i]))
  }

  function Set(s: State, id: string, c: Conn): State {
    s.(conns := s.conns[id := c])
  }

  function Sent(c: Conn, e: Envelope): Conn {
    c.(out := c.out + [e])
  }

  function GateStep(c: Conn, fetched: Option<seq<string>>): Conn
    requires c.reader.Gating? && HasCurrent(c.reader.p)
  {
    var p := c.reader.p;
    if Current(p) !in c.cache then Sent(c, Denied(Current(p))).(reader := Gating(p.(passed := p.passed + [false])))
    else c.(reader := Replaying(p, ToReplay(p, fetched), Current(p) !in c.ever))
  }

  function RegisterStep(c: Conn): Conn
    requires c.reader.Replaying? && HasCurrent(c.reader.p)
  {
    var p := c.reader.p;
    c.(reader := Gating(p.(passed := p.passed + [true], accepted := p.accepted + [Current(p)])),
       ever := c.ever + {Current(p)})
  }

  /** The acting connection after a step of its own read loop. */
  function ReaderConn(c: Conn, a: Action): Conn {
    match a
    case AskSubscribe(_, chans, resume) => c.(reader := Gating(Progress(chans, resume, |c.out|, [], [])))
    case AskUnsubscribe(_, chans) => c.(reader := Unsubscribing(chans))
    case Ping(_) => Sent(c, Pong)
    case Gate(_, fetched) => if c.reader.Gating? && HasCurrent(c.reader.p) then GateStep(c, fetched) else c
    case SendBackfill(_) =>
      if c.reader.Replaying? && c.reader.rest != [] && HasCurrent(c.reader.p) then
        var r := c.reader;
        Sent(c, Backfill(Current(r.p), r.rest[0], r.first)).(reader := r.(rest := r.rest[1..]))
      else c
    case Register(_) => if c.reader.Replaying? && HasCurrent(c.reader.p) then RegisterStep(c) else c
    case Acknowledge(_) => if c.reader.Gating? then Sent(c, Subscribed(c.reader.p.accepted)).(reader := Reading) else c
    case DropOne(_) =>
      if c.reader.Unsubscribing? && c.reader.left != [] then c.(reader := Unsubscribing(c.reader.left[1..]))
      else c.(reader := Reading)
    case Hangup(_) => c.(reader := Leaving)
    case Unregister(_) => c.(reader := Gone)
    case _ => c
  }

  function ReaderSubs(subs: set<(string, string)>, c: Conn, a: Action): set<(string, string)> {
    match a
    case Register(id) =>
      if c.reader.Replaying? && HasCurrent(c.reader.p) then subs + {(id, Current(c.reader.p))} else subs
    case DropOne(id) => if c.reader.Unsubscribing? && c.reader.left != [] then subs - {(id, c.reader.left[0])} else subs
    case Hangup(id) => set p | p in subs && p.0 != id
    case _ => subs
  }

  ghost function ReaderStep(s: State, a: Action): State
    requires Enabled(s, a) && !IsFanout(a) && !IsAcl(a)
  {
    if a.Connect? then
      var c := Conn(a.user, Elems(a.visible), Elems(a.visible), [], Reading, {});
      Set(s, a.id, c).(registered := s.registered + {a.id})
    else
      var c := s.conns[a.id];
      Set(s, a.id, ReaderConn(c, a)).(subs := ReaderSubs(s.subs, c, a),
                                      registered := if a.Unregister? then s.registered - {a.id} else s.registered)
  }

  ghost function FanoutStep(s: State, a: Action): State
    requires Enabled(s, a)
  {
    match a
    case Dispatch(d, chan, event) =>
      var targets := set p | p in s.subs && p.1 == chan :: p.0;
      s.(fanouts := s.fanouts[d := Fanout(chan, event, targets, None)])
    case Lookup(d, id) =>
      var f := s.fanouts[d];
      var holding := if id in s.registered then Some(id) else None;
      s.(fanouts := s.fanouts[d := f.(targets := f.targets - {id}, holding := holding)])
    case Deliver(d) =>
      var f := s.fanouts[d];
      Set(s, f.holding.value, Sent(s.conns[f.holding.value], Live(f.chan, f.event)))
        .(fanouts := s.fanouts[d := f.(holding := None)])
    case _ => s
  }

  /** The registered connections of the user an invalidation names. */
  function Concerned(s: State, ev: I.Event): set<string> {
    if ev.user == "" then {} else set id | id in s.registered && id in s.conns && s.conns[id].user == ev.user
  }

  ghost function AclStep(s: State, a: Action): State
    requires Enabled(s, a)
  {
    match a
    case Invalidate(ev) =>
      s.(acl := AclLoop(ev, Concerned(s, ev)))
    case UpdateCache(id, fetched, added, removed) =>
      var c := s.conns[id];
      var (cache, envs) := Refresh(c.cache, s.acl.ev, fetched, added, removed);
      Set(s, id, c.(cache := cache)).(acl := AclSending(s.acl.ev, id, envs, s.acl.rest - {id}))
    case SendAcl =>
      if s.acl.AclLoop? then s.(acl := AclIdle)
      else if s.acl.envs == [] then s.(acl := AclLoop(s.acl.ev, s.acl.rest))
      else Set(s, s.acl.id, Sent(s.conns[s.acl.id], s.acl.envs[0])).(acl := s.acl.(envs := s.acl.envs[1..]))
    case _ => s
  }

  predicate IsFanout(a: Action) {
    a.Dispatch? || a.Lookup? || a.Deliver?
  }

  predicate IsAcl(a: Action) {
    a.Invalidate? || a.UpdateCache? || a.SendAcl?
  }

  /** A disabled action changes nothing, so every sequence of actions is a run. */
  ghost function Next(s: State, a: Action): State {
    if !Enabled(s, a) then s
    else if IsFanout(a) then FanoutStep(s, a)
    else if IsAcl(a) then AclStep(s, a)
    else ReaderStep(s, a)
  }

  ghost function Run(as_: seq<Action>): State {
    if as_ == [] then Init() else Next(Run(as_[..|as_| - 1]), as_[|as_| - 1])
  }

  /** Further steps from any state. */
  ghost function RunFrom(s: State, as_: seq<Action>): State {
    if as_ == [] then s else Next(RunFrom(s, as_[..|as_| - 1]), as_[|as_| - 1])
  }

  /** Every step of the continuation really happens. */
  ghost predicate AllEnabled(s: State, as_: seq<Action>) {
    as_ == [] || (AllEnabled(s, as_[..|as_| - 1]) && Enabled(RunFrom(s, as_[..|as_| - 1]), as_[|as_| - 1]))
  }

  lemma RunFromSnoc(s: State, as_: seq<Action>, a: Action)
    ensures RunFrom(s, as_ + [a]) == Next(RunFrom(s, as_), a)
    ensures AllEnabled(s, as_ + [a]) <==> AllEnabled(s, as_) && Enabled(RunFrom(s, as_), a)
  {
    assert (as_ + [a])[..|as_ + [a]| - 1] == as_;
  }

  lemma {:induction false} RunFromConcat(s: State, a: seq<Action>, b: seq<Action>)
    ensures RunFrom(s, a + b) == RunFrom(RunFrom(s, a), b)
    ensures AllEnabled(s, a + b) <==> AllEnabled(s, a) && AllEnabled(RunFrom(s, a), b)
  {
    if b == [] {
      assert a + b == a;
    } else {
      assert (a + b)[..|a + b| - 1] == a + b[..|b| - 1];
      RunFromConcat(s, a, b[..|b| - 1]);
    }
  }

  lemma {:induction false} RunConcat(a: seq<Action>, b: seq<Action>)
    ensures Run(a + b) == RunFrom(Run(a), b)
  {
    if b == [] {
      assert a + b == a;
    } else {
      assert (a + b)[..|a + b| - 1] == a + b[..|b| - 1];
      RunConcat(a, b[..|b| - 1]);
    }
  }

  // ---- connection lifetime -----------------------------------------------------------

  /** Only registered connections are subscribed; a connection is registered until it
      is gone, and has no subscription from the moment it starts leaving. No event is
      fanned out for the empty channel id. */
  ghost predicate Lifetime(s: State) {
    && (forall id :: id in s.conns ==> (id in s.registered <==> !s.conns[id].reader.Gone?))
    && (forall id :: id in s.registered ==> id in s.conns)
    && (forall p :: p in s.subs ==> p.0 in s.registered && !s.conns[p.0].reader.Leaving?)
    && (forall d :: d in s.fanouts ==> s.fanouts[d].targets <= s.conns.Keys && s.fanouts[d].chan != "")
    && (forall d :: d in s.fanouts && s.fanouts[d].holding.Some? ==> s.fanouts[d].holding.value in s.conns)
    && (s.acl.AclLoop? ==> s.acl.rest <= s.conns.Keys)
    && (s.acl.AclSending? ==> s.acl.rest <= s.conns.Keys && s.acl.id in s.conns)
  }

  lemma LifetimeReaderSubs(s: State, a: Action)
    requires Enabled(s, a) && !IsFanout(a) && !IsAcl(a) && !a.Connect?
    ensures var c := s.conns[a.id];
            var c', subs := ReaderConn(c, a), ReaderSubs(s.subs, c, a);
            && (c'.reader.Gone? <==> a.Unregister?) && (c'.reader.Leaving? <==> a.Hangup?)
            && (forall p :: p in subs ==> p in s.subs || (p.0 == a.id && a.Register?))
            && (a.Hangup? ==> forall p :: p in subs ==> p.0 != a.id)
  {
  }

  lemma LifetimeReader(s: State, a: Action)
    requires Lifetime(s) && Enabled(s, a) && !IsFanout(a) && !IsAcl(a)
    ensures Lifetime(ReaderStep(s, a))
  {
    if !a.Connect? {
      LifetimeReaderSubs(s, a);
    }
  }

  lemma LifetimeNext(s: State, a: Action)
    requires Lifetime(s)
    ensures Lifetime(Next(s, a))
  {
    if Enabled(s, a) && !IsFanout(a) && !IsAcl(a) {
      LifetimeReader(s, a);
    }
  }

  lemma {:induction false} RunLifetime(as_: seq<Action>)
    ensures Lifetime(Run(as_))
  {
    if as_ != [] {
      RunLifetime(as_[..|as_| - 1]);
      LifetimeNext(Run(as_[..|as_| - 1]), as_[|as_| - 1]);
    }
  }

  /** In every interleaving, every id in the subscription index is registered, and a
      torn-down id appears neither there nor in the registry. */
  lemma NoDanglingSubscription(as_: seq<Action>, id: string, ch: string)
    ensures var s := Run(as_);
            && ((id, ch) in s.subs ==> id in s.registered)
            && (id in s.conns && s.conns[id].reader.Gone? ==> id !in s.registered && (id, ch) !in s.subs)
  {
    RunLifetime(as_);
  }

  // ---- backfill before live --------------------------------------------------------------

  ghost predicate NoLive(out: seq<Envelope>, ch: string) {
    forall i :: 0 <= i < |out| && out[i].Live? ==> out[i].chan != ch
  }

  /** No live event of a channel precedes a replayed event of its first acceptance. */
  ghost predicate BackfillFirst(out: seq<Envelope>) {
    forall i, j :: 0 <= i < j < |out| && out[i].Live? && out[j].Backfill? && out[j].first ==> out[i].chan != out[j].chan
  }

  ghost predicate Unheard(c: Conn) {
    && BackfillFirst(c.out)
    && (forall ch :: ch !in c.ever ==> NoLive(c.out, ch))
    && (c.reader.Replaying? && HasCurrent(c.reader.p) && c.reader.first ==> Current(c.reader.p) !in c.ever)
  }

  /** A channel never subscribed has reached the client by no path: not the index, not
      a dispatch under way, not the output. */
  ghost predicate Quiet(s: State) {
    && Lifetime(s)
    && (forall id :: id in s.conns ==> Unheard(s.conns[id]))
    && (forall p :: p in s.subs ==> p.1 in s.conns[p.0].ever)
    && (forall d, id :: d in s.fanouts && id in s.fanouts[d].targets ==> s.fanouts[d].chan in s.conns[id].ever)
    && (forall d :: d in s.fanouts && s.fanouts[d].holding.Some? ==>
        s.fanouts[d].chan in s.conns[s.fanouts[d].holding.value].ever)
  }

  lemma QuietSend(c: Conn, e: Envelope)
    requires Unheard(c)
    requires e.Live? ==> e.chan in c.ever
    requires e.Backfill? && e.first ==> e.chan !in c.ever
    ensures Unheard(Sent(c, e))
  {
    var c' := Sent(c, e);
    forall ch | ch !in c.ever ensures NoLive(c'.out, ch) { assert NoLive(c.out, ch); }
    if e.Backfill? && e.first { assert NoLive(c.out, e.chan); }
  }

  lemma UnheardReader(s: State, a: Action)
    requires Enabled(s, a) && !IsFanout(a) && !IsAcl(a) && !a.Connect? && Unheard(s.conns[a.id])
    ensures Unheard(ReaderConn(s.conns[a.id], a))
    ensures s.conns[a.id].ever <= ReaderConn(s.conns[a.id], a).ever
  {
    var c := s.conns[a.id];
    match a
    case Ping(_) => QuietSend(c, Pong);
    case Gate(_, _) => if Current(c.reader.p) !in c.cache { QuietSend(c, Denied(Current(c.reader.p))); }
    case SendBackfill(_) => QuietSend(c, Backfill(Current(c.reader.p), c.reader.rest[0], c.reader.first));
    case Acknowledge(_) => QuietSend(c, Subscribed(c.reader.p.accepted));
    case _ =>
  }

  /** Replacing one connection by a quiet one that forgets no channel. */
  lemma QuietUpdate(s: State, s': State, id: string)
    requires Quiet(s) && Lifetime(s') && id in s'.conns && s'.conns == s.conns[id := s'.conns[id]]
    requires s'.fanouts == s.fanouts && Unheard(s'.conns[id])
    requires id in s.conns ==> s.conns[id].ever <= s'.conns[id].ever
    requires forall p :: p in s'.subs ==> p in s.subs || (p.0 == id && p.1 in s'.conns[id].ever)
    ensures Quiet(s')
  {
  }

  lemma QuietReader(s: State, a: Action)
    requires Quiet(s) && Enabled(s, a) && !IsFanout(a) && !IsAcl(a)
    ensures Quiet(ReaderStep(s, a))
  {
    LifetimeReader(s, a);
    if !a.Connect? {
      var c := s.conns[a.id];
      var c', subs := ReaderConn(c, a), ReaderSubs(s.subs, c, a);
      UnheardReader(s, a);
      assert forall p :: p in subs ==> p in s.subs || (p.0 == a.id && p.1 in c'.ever);
    }
    QuietUpdate(s, ReaderStep(s, a), a.id);
  }

  lemma QuietFanout(s: State, a: Action)
    requires Quiet(s) && Enabled(s, a) && IsFanout(a)
    ensures Quiet(FanoutStep(s, a))
  {
    LifetimeNext(s, a);
    if a.Deliver? {
      var f := s.fanouts[a.d];
      QuietSend(s.conns[f.holding.value], Live(f.chan, f.event));
    }
  }

  lemma QuietAcl(s: State, a: Action)
    requires Quiet(s) && Enabled(s, a) && IsAcl(a)
    requires AclOnly(s)
    ensures Quiet(AclStep(s, a))
  {
    LifetimeNext(s, a);
    if a.SendAcl? && s.acl.AclSending? && s.acl.envs != [] {
      QuietSend(s.conns[s.acl.id], s.acl.envs[0]);
    }
  }

  ghost predicate AclOnly(s: State) {
    s.acl.AclSending? ==> forall i :: 0 <= i < |s.acl.envs| ==> s.acl.envs[i].Granted? || s.acl.envs[i].Revoked?
  }

  lemma AclOnlyNext(s: State, a: Action)
    requires AclOnly(s)
    ensures AclOnly(Next(s, a))
  {
  }

  lemma {:induction false} RunQuiet(as_: seq<Action>)
    ensures Quiet(Run(as_)) && AclOnly(Run(as_))
  {
    if as_ != [] {
      var s, a := Run(as_[..|as_| - 1]), as_[|as_| - 1];
      RunQuiet(as_[..|as_| - 1]);
      AclOnlyNext(s, a);
      if Enabled(s, a) {
        if IsFanout(a) { QuietFanout(s, a); }
        else if IsAcl(a) { QuietAcl(s, a); }
        else { QuietReader(s, a); }
      }
    }
  }

  lemma UnheardAt(s: State, id: string, i: nat, j: nat)
    requires Quiet(s) && id in s.conns && i < |s.conns[id].out| && j < |s.conns[id].out|
    ensures var out := s.conns[id].out;
            out[i].Live? && out[j].Backfill? && out[j].first && out[i].chan == out[j].chan ==> j < i
  {
    assert Unheard(s.conns[id]);
  }

  /** Backfill before live: in every interleaving of read loops, dispatches and
      invalidations, on every connection, each event replayed for the first
      acceptance of a channel comes before every live event of that channel. */
  lemma BackfillBeforeLive(as_: seq<Action>, id: string, i: nat, j: nat)
    requires var s := Run(as_); id in s.conns && i < |s.conns[id].out| && j < |s.conns[id].out|
    ensures var out := Run(as_).conns[id].out;
            out[i].Live? && out[j].Backfill? && out[j].first && out[i].chan == out[j].chan ==> j < i
  {
    RunQuiet(as_);
    var s := Run(as_);
    assert Quiet(s);
    UnheardAt(s, id, i, j);
  }

  lemma RunSnoc(as_: seq<Action>, a: Action)
    ensures Run(as_ + [a]) == Next(Run(as_), a)
  {
    assert (as_ + [a])[..|as_ + [a]| - 1] == as_;
  }

  // ---- the acknowledgement -----------------------------------------------------------------

  /** The channels whose gate answer is `want`, in request order. */
  function Chosen(chans: seq<string>, passed: seq<bool>, want: bool): seq<string>
    requires |passed| <= |chans|
  {
    if passed == [] then []
    else
      var n := |passed| - 1;
      Chosen(chans, passed[..n], want) + if passed[n] == want then [chans[n]] else []
  }

  /** Channels refused in a stretch of output. */
  function Refusals(out: seq<Envelope>): seq<string> {
    if out == [] then []
    else Refusals(out[..|out| - 1]) + if out[|out| - 1].Denied? then [out[|out| - 1].chan] else []
  }

  ghost predicate Faithful(c: Conn) {
    c.reader.Gating? || c.reader.Replaying? ==>
      var p := c.reader.p;
      && |p.passed| <= |p.chans| && p.start <= |c.out|
      && p.accepted == Chosen(p.chans, p.passed, true)
      && Refusals(c.out[p.start..]) == Chosen(p.chans, p.passed, false)
  }

  ghost predicate AllFaithful(s: State) {
    forall id :: id in s.conns ==> Faithful(s.conns[id])
  }

  lemma RefusalsSnoc(out: seq<Envelope>, start: nat, e: Envelope)
    requires start <= |out|
    ensures Refusals((out + [e])[start..]) == Refusals(out[start..]) + if e.Denied? then [e.chan] else []
  {
    var longer := (out + [e])[start..];
    assert longer[..|longer| - 1] == out[start..];
  }

  lemma FaithfulSend(c: Conn, e: Envelope)
    requires Faithful(c) && !e.Denied?
    ensures Faithful(Sent(c, e))
  {
    if c.reader.Gating? || c.reader.Replaying? {
      RefusalsSnoc(c.out, c.reader.p.start, e);
    }
  }

  lemma ChosenSnoc(chans: seq<string>, passed: seq<bool>, b: bool, want: bool)
    requires |passed| < |chans|
    ensures Chosen(chans, passed + [b], want) == Chosen(chans, passed, want) + if b == want then [chans[|passed|]]
        else []
  {
    assert (passed + [b])[..|passed|] == passed;
  }

  lemma FaithfulReader(s: State, a: Action)
    requires AllFaithful(s) && Enabled(s, a) && !IsFanout(a) && !IsAcl(a) && a.id in s.conns
    ensures Faithful(ReaderConn(s.conns[a.id], a))
  {
    var c := s.conns[a.id];
    assert Faithful(c);
    match a
    case AskSubscribe(_, _, _) => assert c.out[|c.out|..] == [];
    case Gate(_, _) =>
      var p := c.reader.p;
      if Current(p) !in c.cache {
        RefusalsSnoc(c.out, p.start, Denied(Current(p)));
        ChosenSnoc(p.chans, p.passed, false, true);
        ChosenSnoc(p.chans, p.passed, false, false);
      }
    case SendBackfill(_) =>
      RefusalsSnoc(c.out, c.reader.p.start, Backfill(Current(c.reader.p), c.reader.rest[0], c.reader.first));
    case Register(_) =>
      ChosenSnoc(c.reader.p.chans, c.reader.p.passed, true, true);
      ChosenSnoc(c.reader.p.chans, c.reader.p.passed, true, false);
    case _ =>
  }

  lemma FaithfulNext(s: State, a: Action)
    requires AllFaithful(s) && AclOnly(s)
    ensures AllFaithful(Next(s, a))
  {
    if Enabled(s, a) {
      if a.Deliver? {
        var f := s.fanouts[a.d];
        FaithfulSend(s.conns[f.holding.value], Live(f.chan, f.event));
      } else if a.SendAcl? && s.acl.AclSending? && s.acl.envs != [] {
        FaithfulSend(s.conns[s.acl.id], s.acl.envs[0]);
      } else if !IsFanout(a) && !IsAcl(a) && a.id in s.conns {
        FaithfulReader(s, a);
      }
    }
  }

  lemma {:induction false} RunFaithful(as_: seq<Action>)
    ensures AllFaithful(Run(as_))
  {
    if as_ != [] {
      RunFaithful(as_[..|as_| - 1]);
      RunQuiet(as_[..|as_| - 1]);
      FaithfulNext(Run(as_[..|as_| - 1]), as_[|as_| - 1]);
    }
  }

  /** The acknowledgement names exactly the requested channels that passed the gate,
      in request order; the refusals sent for the same message name the others. */
  lemma AckExact(as_: seq<Action>, id: string)
    requires Enabled(Run(as_), Acknowledge(id))
    ensures var s := Run(as_);
            var p := s.conns[id].reader.p;
            && |p.passed| == |p.chans| && p.start <= |s.conns[id].out|
            && Next(s, Acknowledge(id)).conns[id].out == s.conns[id].out + [Subscribed(Chosen(p.chans, p.passed, true))]
            && Refusals(s.conns[id].out[p.start..]) == Chosen(p.chans, p.passed, false)
  {
    RunFaithful(as_);
    assert Faithful(Run(as_).conns[id]);
  }

  // ---- the client's mirror of its ACL cache ---------------------------------------------------

  /** A client that follows the grants and revocations it receives. */
  function Fold(visible: set<string>, out: seq<Envelope>): set<string> {
    if out == [] then visible
    else
      var was, e := Fold(visible, out[..|out| - 1]), out[|out| - 1];
      if e.Granted? then was + {e.chan} else if e.Revoked? then was - {e.chan} else was
  }

  /** Every grant adds something the client lacked; every revocation removes something it had. */
  ghost predicate NoRedundant(visible: set<string>, out: seq<Envelope>) {
    out == [] ||
    var init, e := out[..|out| - 1], out[|out| - 1];
    && NoRedundant(visible, init)
    && (e.Granted? ==> e.chan !in Fold(visible, init))
    && (e.Revoked? ==> e.chan in Fold(visible, init))
  }

  predicate Neutral(e: Envelope) {
    !e.Granted? && !e.Revoked?
  }

  /** Envelopes the ACL goroutine has decided on but not yet sent. */
  function Owed(s: State, id: string): seq<Envelope> {
    if s.acl.AclSending? && s.acl.id == id then s.acl.envs else []
  }

  ghost predicate Mirrored(c: Conn, owed: seq<Envelope>) {
    Fold(c.initial, c.out + owed) == c.cache && NoRedundant(c.initial, c.out + owed)
  }

  ghost predicate Mirrors(s: State) {
    forall id :: id in s.conns ==> Mirrored(s.conns[id], Owed(s, id))
  }

  lemma {:induction false} FoldConcat(visible: set<string>, a: seq<Envelope>, b: seq<Envelope>)
    ensures Fold(visible, a + b) == Fold(Fold(visible, a), b)
    ensures NoRedundant(visible, a + b) <==> NoRedundant(visible, a) && NoRedundant(Fold(visible, a), b)
  {
    if b == [] {
      assert a + b == a;
    } else {
      assert (a + b)[..|a + b| - 1] == a + b[..|b| - 1];
      FoldConcat(visible, a, b[..|b| - 1]);
    }
  }

  lemma FoldNeutral(visible: set<string>, a: seq<Envelope>, e: Envelope, b: seq<Envelope>)
    requires Neutral(e)
    ensures Fold(visible, a + [e] + b) == Fold(visible, a + b)
    ensures NoRedundant(visible, a + [e] + b) <==> NoRedundant(visible, a + b)
  {
    FoldConcat(visible, a + [e], b);
    FoldConcat(visible, a, b);
    assert (a + [e])[..|a + [e]| - 1] == a;
  }

  lemma NeutralSend(c: Conn, e: Envelope, owed: seq<Envelope>)
    requires Mirrored(c, owed) && Neutral(e)
    ensures Mirrored(Sent(c, e), owed)
  {
    FoldNeutral(c.initial, c.out, e, owed);
  }

  lemma OwedSend(c: Conn, owed: seq<Envelope>)
    requires owed != [] && Mirrored(c, owed)
    ensures Mirrored(Sent(c, owed[0]), owed[1..])
  {
    assert c.out + owed == c.out + [owed[0]] + owed[1..];
  }

  lemma {:induction false} FoldGrants(visible: set<string>, chans: seq<string>)
    requires Distinct(chans) && forall c :: c in chans ==> c !in visible
    ensures Fold(visible, Grants(chans)) == visible + Elems(chans)
    ensures NoRedundant(visible, Grants(chans))
  {
    if chans != [] {
      var init, last := chans[..|chans| - 1], chans[|chans| - 1];
      assert Grants(chans)[..|chans| - 1] == Grants(init);
      FoldGrants(visible, init);
      assert chans == init + [last];
      assert last !in init;
      assert Elems(chans) == Elems(init) + {last};
    }
  }

  lemma {:induction false} FoldRevokes(visible: set<string>, chans: seq<string>)
    requires Distinct(chans) && forall c :: c in chans ==> c in visible
    ensures Fold(visible, Revokes(chans)) == visible - Elems(chans)
    ensures NoRedundant(visible, Revokes(chans))
  {
    if chans != [] {
      var init, last := chans[..|chans| - 1], chans[|chans| - 1];
      assert Revokes(chans)[..|chans| - 1] == Revokes(init);
      FoldRevokes(visible, init);
      assert chans == init + [last];
      assert last !in init;
      assert Elems(chans) == Elems(init) + {last};
    }
  }

  /** The envelopes owed for an invalidation turn the old cache into the new one, without waste. */
  lemma RefreshFolds(cache: set<string>, ev: I.Event, fetched: Option<seq<string>>, added: seq<string>,
      removed: seq<string>)
    requires ev.UserWide? && fetched.Some? ==> IsDiff(cache, Elems(fetched.value), added, removed)
    ensures var (now, envs) := Refresh(cache, ev, fetched, added, removed);
            Fold(cache, envs) == now && NoRedundant(cache, envs)
  {
    var (now, envs) := Refresh(cache, ev, fetched, added, removed);
    if ev.UserWide? && fetched.Some? {
      FoldGrants(cache, added);
      FoldRevokes(cache + Elems(added), removed);
      FoldConcat(cache, Grants(added), Revokes(removed));
      assert now == cache + Elems(added) - Elems(removed);
    } else if envs != [] {
      assert envs[..0] == [];
    }
  }

  lemma MirroredReader(s: State, a: Action, owed: seq<Envelope>)
    requires Enabled(s, a) && !IsFanout(a) && !IsAcl(a) && !a.Connect? && Mirrored(s.conns[a.id], owed)
    ensures Mirrored(ReaderConn(s.conns[a.id], a), owed)
  {
    var c := s.conns[a.id];
    match a
    case Ping(_) => NeutralSend(c, Pong, owed);
    case Gate(_, _) => if Current(c.reader.p) !in c.cache { NeutralSend(c, Denied(Current(c.reader.p)), owed); }
    case SendBackfill(_) => NeutralSend(c, Backfill(Current(c.reader.p), c.reader.rest[0], c.reader.first), owed);
    case Acknowledge(_) => NeutralSend(c, Subscribed(c.reader.p.accepted), owed);
    case _ =>
  }

  lemma MirrorsUpdate(s: State, id: string, c: Conn)
    requires Mirrors(s) && Mirrored(c, Owed(s, id))
    ensures Mirrors(Set(s, id, c))
  {
    forall x | x in s.conns && x != id ensures Mirrored(Set(s, id, c).conns[x], Owed(Set(s, id, c), x)) {
      assert Mirrored(s.conns[x], Owed(s, x));
    }
  }

  lemma MirrorsReader(s: State, a: Action)
    requires Mirrors(s) && Lifetime(s) && Enabled(s, a) && !IsFanout(a) && !IsAcl(a)
    ensures Mirrors(ReaderStep(s, a))
  {
    var s' := ReaderStep(s, a);
    if a.Connect? {
      assert Owed(s, a.id) == [];
      assert Mirrored(s'.conns[a.id], []);
    } else {
      MirroredReader(s, a, Owed(s, a.id));
    }
    MirrorsUpdate(s, a.id, s'.conns[a.id]);
    OnlyConnsMatter(Set(s, a.id, s'.conns[a.id]), s');
  }

  lemma OnlyConnsMatter(s: State, s': State)
    requires Mirrors(s) && s'.conns == s.conns
    requires s'.acl == s.acl || (!s.acl.AclSending? && !s'.acl.AclSending?)
    ensures Mirrors(s')
  {
    forall x | x in s'.conns ensures Mirrored(s'.conns[x], Owed(s', x)) {
      assert Mirrored(s.conns[x], Owed(s, x));
    }
  }

  lemma MirrorsRefresh(s: State, a: Action)
    requires Mirrors(s) && Lifetime(s) && Enabled(s, a) && a.UpdateCache?
    ensures Mirrors(AclStep(s, a))
  {
    var c := s.conns[a.id];
    var (now, envs) := Refresh(c.cache, s.acl.ev, a.fetched, a.added, a.removed);
    RefreshFolds(c.cache, s.acl.ev, a.fetched, a.added, a.removed);
    assert Mirrored(c, []);
    assert c.out + [] == c.out;
    FoldConcat(c.initial, c.out, envs);
    assert Mirrored(c.(cache := now), envs);
  }

  lemma MirrorsSend(s: State)
    requires Mirrors(s) && Lifetime(s) && Enabled(s, SendAcl)
    ensures Mirrors(AclStep(s, SendAcl))
  {
    if s.acl.AclSending? && s.acl.envs != [] {
      OwedSend(s.conns[s.acl.id], s.acl.envs);
    }
  }

  lemma MirrorsAcl(s: State, a: Action)
    requires Mirrors(s) && Lifetime(s) && Enabled(s, a) && IsAcl(a)
    ensures Mirrors(AclStep(s, a))
  {
    if a.UpdateCache? { MirrorsRefresh(s, a); }
    else if a.SendAcl? { MirrorsSend(s); }
    else { OnlyConnsMatter(s, AclStep(s, a)); }
  }

  lemma MirrorsFanout(s: State, a: Action)
    requires Mirrors(s) && Enabled(s, a) && IsFanout(a)
    ensures Mirrors(FanoutStep(s, a))
  {
    if a.Deliver? {
      var f := s.fanouts[a.d];
      var id := f.holding.value;
      NeutralSend(s.conns[id], Live(f.chan, f.event), Owed(s, id));
    }
  }

  lemma {:induction false} RunMirrors(as_: seq<Action>)
    ensures Mirrors(Run(as_))
  {
    if as_ != [] {
      var s, a := Run(as_[..|as_| - 1]), as_[|as_| - 1];
      RunMirrors(as_[..|as_| - 1]);
      RunLifetime(as_[..|as_| - 1]);
      if Enabled(s, a) {
        if IsFanout(a) { MirrorsFanout(s, a); }
        else if IsAcl(a) { MirrorsAcl(s, a); }
        else { MirrorsReader(s, a); }
      }
    }
  }

  /** Client mirror. Whenever no invalidation envelope is still owed to a connection, in
      particular between events, folding what the client received over its initial
      visible set gives its current cache, and nothing it received was redundant. */
  lemma ClientMirror(as_: seq<Action>, id: string)
    requires id in Run(as_).conns && Owed(Run(as_), id) == []
    ensures var c := Run(as_).conns[id];
            Fold(c.initial, c.out) == c.cache && NoRedundant(c.initial, c.out)
  {
    RunMirrors(as_);
    var c := Run(as_).conns[id];
    assert Mirrored(c, Owed(Run(as_), id));
    assert c.out + [] == c.out;
  }

  // ---- nothing is delivered that was never visible ------------------------------------------------

  /** Channels visible at connect time or granted since. */
  function Seen(visible: set<string>, out: seq<Envelope>): set<string> {
    visible + set e | e in out && e.Granted? :: e.chan
  }

  ghost predicate Vetted(c: Conn, owed: seq<Envelope>) {
    && c.ever <= Seen(c.initial, c.out + owed)
    && (c.reader.Replaying? && HasCurrent(c.reader.p) ==> Current(c.reader.p) in Seen(c.initial, c.out + owed))
  }

  ghost predicate AllVetted(s: State) {
    forall id :: id in s.conns ==> Vetted(s.conns[id], Owed(s, id))
  }

  lemma {:induction false} FoldWithinSeen(visible: set<string>, out: seq<Envelope>)
    ensures Fold(visible, out) <= Seen(visible, out)
  {
    if out != [] {
      FoldWithinSeen(visible, out[..|out| - 1]);
      assert out == out[..|out| - 1] + [out[|out| - 1]];
    }
  }

  lemma SeenGrows(visible: set<string>, a: seq<Envelope>, b: seq<Envelope>)
    requires forall e :: e in a ==> e in b
    ensures Seen(visible, a) <= Seen(visible, b)
  {
  }

  lemma VettedReader(s: State, a: Action, owed: seq<Envelope>)
    requires Enabled(s, a) && !IsFanout(a) && !IsAcl(a) && !a.Connect?
    requires Vetted(s.conns[a.id], owed) && Mirrored(s.conns[a.id], owed)
    ensures Vetted(ReaderConn(s.conns[a.id], a), owed)
  {
    var c := s.conns[a.id];
    var c' := ReaderConn(c, a);
    assert c.out <= c'.out;
    SeenGrows(c.initial, c.out + owed, c'.out + owed);
    FoldWithinSeen(c.initial, c.out + owed);
  }

  lemma VettedFanout(s: State, a: Action)
    requires AllVetted(s) && Enabled(s, a) && IsFanout(a)
    ensures AllVetted(FanoutStep(s, a))
  {
    if a.Deliver? {
      var f := s.fanouts[a.d];
      var id := f.holding.value;
      var c := s.conns[id];
      SeenGrows(c.initial, c.out + Owed(s, id), c.out + [Live(f.chan, f.event)] + Owed(s, id));
      assert Vetted(Sent(c, Live(f.chan, f.event)), Owed(s, id));
    }
  }

  lemma VettedOwn(s: State, a: Action)
    requires AllVetted(s) && Mirrors(s) && Enabled(s, a) && !IsFanout(a) && !IsAcl(a)
    ensures AllVetted(ReaderStep(s, a))
  {
    if a.Connect? {
      assert Vetted(ReaderStep(s, a).conns[a.id], Owed(s, a.id));
    } else {
      VettedReader(s, a, Owed(s, a.id));
    }
  }

  lemma VettedNext(s: State, a: Action)
    requires AllVetted(s) && Mirrors(s) && Lifetime(s)
    ensures AllVetted(Next(s, a))
  {
    if Enabled(s, a) {
      if IsFanout(a) { VettedFanout(s, a); }
      else if IsAcl(a) { VettedAcl(s, a); }
      else { VettedOwn(s, a); }
    }
  }

  lemma VettedUpdate(s: State, a: Action)
    requires AllVetted(s) && Lifetime(s) && Enabled(s, a) && a.UpdateCache?
    ensures AllVetted(AclStep(s, a))
  {
    var c, s' := s.conns[a.id], AclStep(s, a);
    SeenGrows(c.initial, c.out + [], c.out + s'.acl.envs);
    forall id | id in s'.conns ensures Vetted(s'.conns[id], Owed(s', id)) {
      assert Vetted(s.conns[id], Owed(s, id));
    }
  }

  lemma VettedSend(s: State)
    requires AllVetted(s) && Lifetime(s) && Enabled(s, SendAcl)
    ensures AllVetted(AclStep(s, SendAcl))
  {
    var s' := AclStep(s, SendAcl);
    if s.acl.AclSending? && s.acl.envs != [] {
      var c := s.conns[s.acl.id];
      assert c.out + s.acl.envs == c.out + [s.acl.envs[0]] + s.acl.envs[1..];
    }
    forall id | id in s'.conns ensures Vetted(s'.conns[id], Owed(s', id)) {
      assert Vetted(s.conns[id], Owed(s, id));
    }
  }

  lemma VettedAcl(s: State, a: Action)
    requires AllVetted(s) && Lifetime(s) && Enabled(s, a) && IsAcl(a)
    ensures AllVetted(AclStep(s, a))
  {
    if a.UpdateCache? {
      VettedUpdate(s, a);
    } else if a.SendAcl? {
      VettedSend(s);
    } else {
      forall id | id in s.conns ensures Vetted(AclStep(s, a).conns[id], Owed(AclStep(s, a), id)) {
        assert Vetted(s.conns[id], Owed(s, id));
      }
    }
  }

  lemma {:induction false} RunVetted(as_: seq<Action>)
    ensures AllVetted(Run(as_))
  {
    if as_ != [] {
      RunVetted(as_[..|as_| - 1]);
      RunMirrors(as_[..|as_| - 1]);
      RunLifetime(as_[..|as_| - 1]);
      VettedNext(Run(as_[..|as_| - 1]), as_[|as_| - 1]);
    }
  }

  /** Fail-closed gate: in every interleaving a live event only ever reaches a connection
      for a channel that was visible to it at connect time or was granted to it since. */
  lemma LiveOnlyIfVisible(as_: seq<Action>, id: string, i: nat)
    requires id in Run(as_).conns && i < |Run(as_).conns[id].out| && Run(as_).conns[id].out[i].Live?
    ensures var s := Run(as_);
            var c := s.conns[id];
            c.out[i].chan in Seen(c.initial, c.out + Owed(s, id))
  {
    RunVetted(as_);
    RunQuiet(as_);
    var c := Run(as_).conns[id];
    assert Unheard(c) && Vetted(c, Owed(Run(as_), id));
    assert c.out[i].chan !in c.ever ==> NoLive(c.out, c.out[i].chan);
  }
}
