/** What a run of the relay leaves in a connection's cache, in the subscription index and in
    the replayed history, told by the steps that decided it. */
module RelayHistory {
  import opened Prelude
  import opened AclCache
  import opened Relay
  import D = RelayDelivery
  import I = Invalidation
  import R = Registry

  // ---- what one refresh leaves and sends --------------------------------------------------

  /** How often the client is told exactly this. */
  function Times(envs: seq<Envelope>, e: Envelope): nat {
    if envs == [] then 0 else Times(envs[..|envs| - 1], e) + if envs[|envs| - 1] == e then 1 else 0
  }

  /** What an invalidation says about one channel: visible, hidden, or nothing. */
  function Says(ev: I.Event, fetched: Option<seq<string>>, ch: string): Option<bool> {
    match ev
    case Single(_, c, op) => if c == ch then Some(op == I.AddOp) else None
    case UserWide(_) => if fetched.Some? then Some(ch in fetched.value) else None
  }

  /** A refresh leaves each channel as the invalidation says, or as it was. */
  lemma RefreshLeaves(cache: set<string>, ev: I.Event, fetched: Option<seq<string>>, added: seq<string>,
      removed: seq<string>, ch: string)
    ensures var now := Refresh(cache, ev, fetched, added, removed).0;
            ch in now <==> if Says(ev, fetched, ch).Some? then Says(ev, fetched, ch).value else ch in cache
  {
  }

  /** And tells the client of exactly the channels that changed, each once. */
  lemma RefreshSends(cache: set<string>, ev: I.Event, fetched: Option<seq<string>>, added: seq<string>,
      removed: seq<string>, ch: string)
    requires ev.UserWide? && fetched.Some? ==> IsDiff(cache, Elems(fetched.value), added, removed)
    ensures var (now, envs) := Refresh(cache, ev, fetched, added, removed);
            && Times(envs, Granted(ch)) == (if ch in now && ch !in cache then 1 else 0)
            && Times(envs, Revoked(ch)) == (if ch in cache && ch !in now then 1 else 0)
            && forall e :: e in envs ==> e.Granted? || e.Revoked?
  {
    if ev.UserWide? && fetched.Some? {
      TimesConcat(Grants(added), Revokes(removed), Granted(ch));
      TimesConcat(Grants(added), Revokes(removed), Revoked(ch));
      TimesListed(added, ch);
      TimesListed(removed, ch);
    } else {
      var envs := Refresh(cache, ev, fetched, added, removed).1;
      if envs != [] { assert envs[..0] == []; }
    }
  }

  lemma {:induction false} TimesConcat(a: seq<Envelope>, b: seq<Envelope>, e: Envelope)
    ensures Times(a + b, e) == Times(a, e) + Times(b, e)
  {
    if b == [] {
      assert a + b == a;
    } else {
      assert (a + b)[..|a + b| - 1] == a + b[..|b| - 1];
      TimesConcat(a, b[..|b| - 1], e);
    }
  }

  lemma {:induction false} TimesListed(chans: seq<string>, ch: string)
    requires Distinct(chans)
    ensures Times(Grants(chans), Granted(ch)) == Times(Revokes(chans), Revoked(ch)) == if ch in chans then 1 else 0
    ensures Times(Grants(chans), Revoked(ch)) == Times(Revokes(chans), Granted(ch)) == 0
  {
    if chans != [] {
      var init, last := chans[..|chans| - 1], chans[|chans| - 1];
      assert Grants(chans)[..|chans| - 1] == Grants(init) && Revokes(chans)[..|chans| - 1] == Revokes(init);
      TimesListed(init, ch);
      assert chans == init + [last];
      assert last !in init;
    }
  }

  // ---- caches and subscriptions over whole runs ------------------------------------------------

  datatype Fact = Visible | Listening

  /** What one step decides about a channel of a connection, if anything. */
  ghost function Verdict(f: Fact, s: State, a: Action, id: string, ch: string): Option<bool> {
    if !Enabled(s, a) then None
    else
      match f
      case Visible => if a.UpdateCache? && a.id == id then Says(s.acl.ev, a.fetched, ch) else None
      case Listening =>
        if a.Register? && a.id == id && Current(s.conns[id].reader.p) == ch then Some(true)
        else if a.DropOne? && a.id == id && s.conns[id].reader.left != [] && s.conns[id].reader.left[0] == ch then
          Some(false)
        else if a.Hangup? && a.id == id then Some(false)
        else None
  }

  /** What the last step that decided it said. */
  ghost function Decided(f: Fact, as_: seq<Action>, id: string, ch: string): Option<bool> {
    if as_ == [] then None
    else
      var init, a := as_[..|as_| - 1], as_[|as_| - 1];
      var v := Verdict(f, Run(init), a, id, ch);
      if v.Some? then v else Decided(f, init, id, ch)
  }

  lemma CacheStep(s: State, a: Action, id: string, ch: string)
    requires id in s.conns
    ensures id in Next(s, a).conns && Next(s, a).conns[id].initial == s.conns[id].initial
    ensures Next(s, a).conns[id].user == s.conns[id].user
    ensures var v := Verdict(Visible, s, a, id, ch);
            ch in Next(s, a).conns[id].cache <==> if v.Some? then v.value else ch in s.conns[id].cache
  {
    if Enabled(s, a) && a.UpdateCache? {
      RefreshLeaves(s.conns[a.id].cache, s.acl.ev, a.fetched, a.added, a.removed, ch);
    }
  }

  lemma NewConnIsFresh(s: State, a: Action, id: string)
    requires Lifetime(s) && id !in s.conns && id in Next(s, a).conns
    ensures a == Connect(id, a.user, a.visible) && Enabled(s, a)
    ensures Next(s, a).conns[id] == Conn(a.user, Elems(a.visible), Elems(a.visible), [], Reading, {})
  {
  }

  lemma NoConnNoVerdict(f: Fact, s: State, a: Action, id: string, ch: string)
    requires id !in s.conns
    ensures Verdict(f, s, a, id, ch) == None
  {
  }

  lemma {:induction false} UnknownUndecided(f: Fact, as_: seq<Action>, id: string, ch: string)
    requires id !in Run(as_).conns
    ensures Decided(f, as_, id, ch) == None
  {
    if as_ != [] {
      var init := as_[..|as_| - 1];
      if id in Run(init).conns { CacheStep(Run(init), as_[|as_| - 1], id, ch); }
      NoConnNoVerdict(f, Run(init), as_[|as_| - 1], id, ch);
      UnknownUndecided(f, init, id, ch);
    }
  }

  /** The cache, read off the run: a channel is in a connection's cache as the last
      refresh of that connection which spoke of it said, otherwise as at connect time. */
  lemma {:induction false} CacheAsDecided(as_: seq<Action>, id: string, ch: string)
    requires id in Run(as_).conns
    ensures var c, v := Run(as_).conns[id], Decided(Visible, as_, id, ch);
            ch in c.cache <==> if v.Some? then v.value else ch in c.initial
  {
    var init, a := as_[..|as_| - 1], as_[|as_| - 1];
    if id in Run(init).conns {
      CacheAsDecided(init, id, ch);
      CacheStep(Run(init), a, id, ch);
    } else {
      RunLifetime(init);
      NewConnIsFresh(Run(init), a, id);
      UnknownUndecided(Visible, init, id, ch);
    }
  }

  lemma SubscriptionStep(s: State, a: Action, id: string, ch: string)
    ensures var v := Verdict(Listening, s, a, id, ch);
            (id, ch) in Next(s, a).subs <==> if v.Some? then v.value else (id, ch) in s.subs
  {
  }

  /** The index, read off the run: a connection is subscribed to a channel if and only if the
      last step about the two registered it, rather than dropping it or hanging up. */
  lemma {:induction false} SubscribedAsDecided(as_: seq<Action>, id: string, ch: string)
    ensures (id, ch) in Run(as_).subs <==> Decided(Listening, as_, id, ch) == Some(true)
  {
    if as_ != [] {
      SubscribedAsDecided(as_[..|as_| - 1], id, ch);
      SubscriptionStep(Run(as_[..|as_| - 1]), as_[|as_| - 1], id, ch);
    }
  }

  // ---- the last word of an invalidation ------------------------------------------------------

  /** Event `i` of the run is an invalidation taken up. */
  ghost predicate Invalidates(as_: seq<Action>, i: nat)
    requires i < |as_|
  {
    as_[i].Invalidate? && Enabled(Run(as_[..i]), as_[i])
  }

  /** The invalidation is under way and has still to reach the connection. */
  predicate Awaits(s: State, ev: I.Event, id: string) {
    !s.acl.AclIdle? && s.acl.ev == ev && id in s.acl.rest
  }

  /** Whoever an invalidation has still to reach is a connection of its user. */
  ghost predicate RightUsers(s: State) {
    !s.acl.AclIdle? ==> forall id :: id in s.acl.rest ==> id in s.conns && s.conns[id].user == s.acl.ev.user
  }

  lemma RightUsersNext(s: State, a: Action)
    requires Lifetime(s) && RightUsers(s)
    ensures RightUsers(Next(s, a))
  {
    if !Next(s, a).acl.AclIdle? {
      forall id | id in Next(s, a).acl.rest
        ensures id in Next(s, a).conns && Next(s, a).conns[id].user == Next(s, a).acl.ev.user
      {
        if id in s.conns { CacheStep(s, a, id, ""); }
      }
    }
  }

  lemma {:induction false} RunRightUsers(as_: seq<Action>)
    ensures RightUsers(Run(as_))
  {
    if as_ != [] {
      RunRightUsers(as_[..|as_| - 1]);
      RunLifetime(as_[..|as_| - 1]);
      RightUsersNext(Run(as_[..|as_| - 1]), as_[|as_| - 1]);
    }
  }

  /** What one step does to an invalidation under way. */
  lemma AwaitsStep(s: State, a: Action, ev: I.Event, id: string)
    ensures Awaits(s, ev, id) ==>
              if Enabled(s, a) && a.UpdateCache? && a.id == id then s.acl.ev == ev else Awaits(Next(s, a), ev, id)
    ensures !Next(s, a).acl.AclIdle? ==>
              if a.Invalidate? && Enabled(s, a) then Next(s, a).acl == AclLoop(a.ev, Concerned(s, a.ev))
              else !s.acl.AclIdle? && Next(s, a).acl.ev == s.acl.ev
  {
  }

  /** No later invalidation taken up speaks of the user and the channel. */
  ghost predicate LastWord(as_: seq<Action>, i: nat, ch: string)
    requires i < |as_| && as_[i].Invalidate?
  {
    forall m :: i < m < |as_| && Invalidates(as_, m) ==>
      as_[m].ev.user != as_[i].ev.user || (as_[m].ev.Single? && as_[m].ev.channel != ch)
  }

  lemma LastWordPrefix(as_: seq<Action>, i: nat, ch: string)
    requires i < |as_| - 1 && as_[i].Invalidate? && LastWord(as_, i, ch)
    ensures LastWord(as_[..|as_| - 1], i, ch)
  {
    var init := as_[..|as_| - 1];
    forall m | i < m < |init| && Invalidates(init, m)
      ensures init[m].ev.user != init[i].ev.user || (init[m].ev.Single? && init[m].ev.channel != ch)
    {
      assert init[..m] == as_[..m];
      assert Invalidates(as_, m);
    }
  }

  /** Since invalidation `i` the goroutine has worked on it or on ones that do not matter. */
  lemma {:induction false} WorksOn(as_: seq<Action>, i: nat, ch: string)
    requires i < |as_| && Invalidates(as_, i) && LastWord(as_, i, ch) && !Run(as_).acl.AclIdle?
    ensures var ev := Run(as_).acl.ev;
            ev == as_[i].ev || ev.user != as_[i].ev.user || (ev.Single? && ev.channel != ch)
  {
    var init, a := as_[..|as_| - 1], as_[|as_| - 1];
    AwaitsStep(Run(init), a, as_[i].ev, "");
    if i < |as_| - 1 {
      LastWordPrefix(as_, i, ch);
      assert init[..i] == as_[..i];
      if a.Invalidate? && Enabled(Run(init), a) {
        assert Invalidates(as_, |as_| - 1);
      } else {
        WorksOn(init, i, ch);
      }
    }
  }

  lemma {:induction false} WordStands(as_: seq<Action>, i: nat, id: string, ch: string)
    requires i < |as_| && Invalidates(as_, i) && LastWord(as_, i, ch)
    requires as_[i].ev.Single? && as_[i].ev.channel == ch && id in Concerned(Run(as_[..i]), as_[i].ev)
    ensures id in Run(as_).conns && Run(as_).conns[id].user == as_[i].ev.user
    ensures Awaits(Run(as_), as_[i].ev, id) || Decided(Visible, as_, id, ch) == Some(as_[i].ev.op == I.AddOp)
  {
    var init, a := as_[..|as_| - 1], as_[|as_| - 1];
    var s, ev := Run(init), as_[i].ev;
    AwaitsStep(s, a, ev, id);
    if i < |as_| - 1 {
      assert init[..i] == as_[..i];
      LastWordPrefix(as_, i, ch);
      WordStands(init, i, id, ch);
      CacheStep(s, a, id, ch);
      RunRightUsers(init);
      if Enabled(s, a) && a.UpdateCache? && a.id == id { WorksOn(init, i, ch); }
    } else {
      assert as_[..i] == init;
      CacheStep(s, a, id, ch);
    }
  }

  /** The last word. Between events, a channel granted or revoked by name is in the cache of a
      connection that was registered for the user at that time exactly if it was granted,
      when no later invalidation of the user has spoken of the channel. */
  lemma LastWordHolds(as_: seq<Action>, i: nat, id: string, ch: string)
    requires i < |as_| && Invalidates(as_, i) && LastWord(as_, i, ch) && Run(as_).acl.AclIdle?
    requires as_[i].ev.Single? && as_[i].ev.channel == ch && id in Concerned(Run(as_[..i]), as_[i].ev)
    ensures id in Run(as_).conns && (ch in Run(as_).conns[id].cache <==> as_[i].ev.op == I.AddOp)
  {
    WordStands(as_, i, id, ch);
    CacheAsDecided(as_, id, ch);
  }

  // ---- whom an invalidation concerns: the registry's own lookup -------------------------------

  /** The calls to the connection registry in a run. */
  ghost function RegistryCalls(as_: seq<Action>): seq<R.Op> {
    if as_ == [] then []
    else
      var init, a := as_[..|as_| - 1], as_[|as_| - 1];
      RegistryCalls(init) +
      if !Enabled(Run(init), a) then []
      else if a.Connect? then [R.Add(a.id, R.Conn(|as_|, Some(a.user)))]
      else if a.Unregister? then [R.Remove(a.id)]
      else []
  }

  /** The registry holds the registered connections under their users. */
  ghost predicate Agrees(t: R.Table, s: State) {
    && t.conns.Keys == s.registered
    && forall id :: id in s.registered ==> id in s.conns && t.conns[id].user == Some(s.conns[id].user)
  }

  /** What a step does to the registered connections. */
  lemma RegisteredStep(s: State, a: Action)
    requires Lifetime(s)
    ensures Next(s, a).registered ==
            if !Enabled(s, a) then s.registered
            else if a.Connect? then s.registered + {a.id}
            else if a.Unregister? then s.registered - {a.id} else s.registered
    ensures Enabled(s, a) && a.Connect? ==> a.id in Next(s, a).conns && Next(s, a).conns[a.id].user == a.user
  {
  }

  lemma AgreesNext(t: R.Table, s: State, a: Action, tag: nat)
    requires Lifetime(s) && Agrees(t, s)
    ensures Agrees(if !Enabled(s, a) then t
                   else if a.Connect? then R.Added(t, a.id, R.Conn(tag, Some(a.user)))
                   else if a.Unregister? then R.Removed(t, a.id) else t, Next(s, a))
  {
    RegisteredStep(s, a);
    forall id | id in s.conns ensures id in Next(s, a).conns && Next(s, a).conns[id].user == s.conns[id].user {
      CacheStep(s, a, id, "");
    }
  }

  lemma {:induction false} RegistryAgrees(as_: seq<Action>)
    ensures R.NoTakeover(RegistryCalls(as_)) && Agrees(R.Run(RegistryCalls(as_)), Run(as_))
  {
    if as_ != [] {
      var init, a := as_[..|as_| - 1], as_[|as_| - 1];
      var ops := RegistryCalls(init);
      RegistryAgrees(init);
      RunLifetime(init);
      AgreesNext(R.Run(ops), Run(init), a, |as_|);
      if Enabled(Run(init), a) && a.Connect? {
        var op := R.Add(a.id, R.Conn(|as_|, Some(a.user)));
        assert (ops + [op])[..|ops|] == ops;
      } else if Enabled(Run(init), a) && a.Unregister? {
        assert (ops + [R.Remove(a.id)])[..|ops|] == ops;
      } else {
        assert ops + [] == ops;
      }
    }
  }

  /** An invalidation concerns exactly the connections that the registry finds for its user. */
  lemma ConcernedIsFound(as_: seq<Action>, ev: I.Event)
    ensures Concerned(Run(as_), ev) == R.Found(R.Run(RegistryCalls(as_)), ev.user)
  {
    RegistryAgrees(as_);
    R.RunExact(RegistryCalls(as_));
    var t := R.Run(RegistryCalls(as_));
    if ev.user != "" {
      R.FoundIsOwned(t, ev.user);
      assert Concerned(Run(as_), ev) == R.Owned(t, ev.user);
    }
  }

  // ---- unsubscribing -----------------------------------------------------------------------------

  /** All steps of the connection's own read loop among these are drops. */
  ghost predicate OnlyDrops(as_: seq<Action>, id: string) {
    forall i :: 0 <= i < |as_| && D.Own(as_[i], id) ==> as_[i].DropOne?
  }

  /** Part way through the list: what stands before `left` has been dropped. */
  ghost predicate DroppedSoFar(s: State, id: string, chans: seq<string>) {
    && id in s.conns
    && (s.conns[id].reader.Unsubscribing? || s.conns[id].reader.Reading?)
    && var left := if s.conns[id].reader.Unsubscribing? then s.conns[id].reader.left else [];
       && |left| <= |chans| && left == chans[|chans| - |left|..]
       && forall i :: 0 <= i < |chans| - |left| ==> (id, chans[i]) !in s.subs
  }

  lemma OthersKeep(s: State, a: Action, id: string)
    requires id in s.conns && !D.Own(a, id)
    ensures id in Next(s, a).conns && Next(s, a).conns[id].reader == s.conns[id].reader
    ensures forall ch :: (id, ch) in Next(s, a).subs ==> (id, ch) in s.subs
  {
  }

  lemma DropOneStep(s: State, id: string)
    requires Enabled(s, DropOne(id))
    ensures var left, s' := s.conns[id].reader.left, Next(s, DropOne(id));
            && id in s'.conns
            && s'.conns[id].reader == (if left == [] then Reading else Unsubscribing(left[1..]))
            && s'.subs == if left == [] then s.subs else s.subs - {(id, left[0])}
  {
  }

  lemma DropsStep(s: State, a: Action, id: string, chans: seq<string>)
    requires DroppedSoFar(s, id, chans) && (D.Own(a, id) ==> a.DropOne?)
    ensures DroppedSoFar(Next(s, a), id, chans)
  {
    if !D.Own(a, id) { OthersKeep(s, a, id); }
    else if Enabled(s, a) { DropOneStep(s, id); }
  }

  /** Unsubscribing. When the read loop has worked through an unsubscribe message, whatever else
      happened meanwhile, the connection is subscribed to none of its channels. */
  lemma {:induction false} UnsubscribeDone(s: State, id: string, chans: seq<string>, as_: seq<Action>)
    requires Enabled(s, AskUnsubscribe(id, chans)) && OnlyDrops(as_, id)
    ensures var s' := RunFrom(Next(s, AskUnsubscribe(id, chans)), as_);
            && DroppedSoFar(s', id, chans)
            && (s'.conns[id].reader.Reading? ==> forall ch :: ch in chans ==> (id, ch) !in s'.subs)
  {
    var s1 := Next(s, AskUnsubscribe(id, chans));
    if as_ == [] {
      assert chans == chans[0..];
    } else {
      assert OnlyDrops(as_[..|as_| - 1], id);
      UnsubscribeDone(s, id, chans, as_[..|as_| - 1]);
      DropsStep(RunFrom(s1, as_[..|as_| - 1]), as_[|as_| - 1], id, chans);
    }
  }

  // ---- what is replayed ---------------------------------------------------------------------------

  /** Replayed events of the channel. */
  function Replayed(out: seq<Envelope>, ch: string): seq<string> {
    if out == [] then []
    else
      var e := out[|out| - 1];
      Replayed(out[..|out| - 1], ch) + if e.Backfill? && e.chan == ch then [e.event] else []
  }

  /** All steps of the connection's own read loop among these are replay sends. */
  ghost predicate OnlyReplays(as_: seq<Action>, id: string) {
    forall i :: 0 <= i < |as_| && D.Own(as_[i], id) ==> as_[i].SendBackfill?
  }

  /** The events missed since a positive cursor for the channel at hand, if they could be fetched. */
  predicate Missed(p: Progress, fetched: Option<seq<string>>, events: seq<string>) {
    var n := |p.passed|;
    if n < |p.resume| && p.resume[n] > 0 then events == (if fetched.Some? then fetched.value else []) else events == []
  }

  ghost predicate ReplayedSoFar(s: State, id: string, start: nat, ch: string, events: seq<string>) {
    && id in s.conns && start <= |s.conns[id].out|
    && s.conns[id].reader.Replaying? && HasCurrent(s.conns[id].reader.p) && Current(s.conns[id].reader.p) == ch
    && events == Replayed(s.conns[id].out[start..], ch) + s.conns[id].reader.rest
  }

  lemma ReplayedSnoc(out: seq<Envelope>, start: nat, e: Envelope, ch: string)
    requires start <= |out|
    ensures Replayed((out + [e])[start..], ch) ==
            Replayed(out[start..], ch) + if e.Backfill? && e.chan == ch then [e.event] else []
  {
    assert (out + [e])[start..] == out[start..] + [e];
    assert (out[start..] + [e])[..|out[start..]|] == out[start..];
  }

  lemma OthersSend(s: State, a: Action, id: string)
    requires id in s.conns && AclOnly(s) && !D.Own(a, id)
    ensures id in Next(s, a).conns && Next(s, a).conns[id].reader == s.conns[id].reader
    ensures var out, out' := s.conns[id].out, Next(s, a).conns[id].out;
            out' == out || (|out'| == |out| + 1 && out' == out + [out'[|out|]] && !out'[|out|].Backfill?)
  {
  }

  lemma ReplayKept(s: State, a: Action, id: string, start: nat, ch: string, events: seq<string>)
    requires ReplayedSoFar(s, id, start, ch, events) && AclOnly(s) && !D.Own(a, id)
    ensures ReplayedSoFar(Next(s, a), id, start, ch, events)
  {
    var c := s.conns[id];
    OthersSend(s, a, id);
    var out' := Next(s, a).conns[id].out;
    if out' != c.out { ReplayedSnoc(c.out, start, out'[|c.out|], ch); }
  }

  lemma SendBackfillStep(s: State, id: string)
    requires Enabled(s, SendBackfill(id))
    ensures var c, s' := s.conns[id], Next(s, SendBackfill(id));
            && id in s'.conns
            && s'.conns[id].out == c.out + [Backfill(Current(c.reader.p), c.reader.rest[0], c.reader.first)]
            && s'.conns[id].reader == c.reader.(rest := c.reader.rest[1..])
  {
  }

  lemma ReplaySent(s: State, id: string, start: nat, ch: string, events: seq<string>)
    requires ReplayedSoFar(s, id, start, ch, events) && Enabled(s, SendBackfill(id))
    ensures ReplayedSoFar(Next(s, SendBackfill(id)), id, start, ch, events)
  {
    var c := s.conns[id];
    SendBackfillStep(s, id);
    ReplayedSnoc(c.out, start, Backfill(ch, c.reader.rest[0], c.reader.first), ch);
    assert [c.reader.rest[0]] + c.reader.rest[1..] == c.reader.rest;
  }

  lemma ReplayStep(s: State, a: Action, id: string, start: nat, ch: string, events: seq<string>)
    requires ReplayedSoFar(s, id, start, ch, events) && AclOnly(s) && (D.Own(a, id) ==> a.SendBackfill?)
    ensures ReplayedSoFar(Next(s, a), id, start, ch, events)
  {
    if !D.Own(a, id) {
      ReplayKept(s, a, id, start, ch, events);
    } else if Enabled(s, a) {
      ReplaySent(s, id, start, ch, events);
    }
  }

  /** Replay. From passing the gate for a channel up to registering for it, the client is
      replayed exactly the events fetched since its cursor, in order, or none without a
      positive cursor or an answer, whatever else it is sent meanwhile. */
  lemma {:induction false} ReplayedAreMissed(s: State, id: string, fetched: Option<seq<string>>, as_: seq<Action>)
    requires Enabled(s, Gate(id, fetched)) && Current(s.conns[id].reader.p) in s.conns[id].cache && AclOnly(s)
    requires OnlyReplays(as_, id)
    ensures var s' := RunFrom(Next(s, Gate(id, fetched)), as_);
            var p, start := s.conns[id].reader.p, |s.conns[id].out|;
            && AclOnly(s') && id in s'.conns && s'.conns[id].reader.Replaying? && start <= |s'.conns[id].out|
            && Missed(p, fetched, Replayed(s'.conns[id].out[start..], Current(p)) + s'.conns[id].reader.rest)
            && ReplayedSoFar(s', id, start, Current(p), ToReplay(p, fetched))
  {
    var p, start := s.conns[id].reader.p, |s.conns[id].out|;
    var s1 := Next(s, Gate(id, fetched));
    if as_ == [] {
      AclOnlyNext(s, Gate(id, fetched));
      assert s1.conns[id].out[start..] == [];
    } else {
      var init := as_[..|as_| - 1];
      assert OnlyReplays(init, id);
      ReplayedAreMissed(s, id, fetched, init);
      ReplayStep(RunFrom(s1, init), as_[|as_| - 1], id, start, Current(p), ToReplay(p, fetched));
      AclOnlyNext(RunFrom(s1, init), as_[|as_| - 1]);
    }
  }

  // ---- pings -----------------------------------------------------------------------------------------

  /** Pings read from the connection so far. */
  ghost function Pings(as_: seq<Action>, id: string): nat {
    if as_ == [] then 0
    else
      var init, a := as_[..|as_| - 1], as_[|as_| - 1];
      Pings(init, id) + if a == Ping(id) && Enabled(Run(init), a) then 1 else 0
  }

  lemma OwnPong(c: Conn, a: Action)
    ensures var out, out' := c.out, ReaderConn(c, a).out;
            out' == out || (|out'| == |out| + 1 && out' == out + [out'[|out|]] && (out'[|out|] == Pong <==> a.Ping?))
    ensures a.Ping? ==> ReaderConn(c, a).out == c.out + [Pong]
  {
  }

  lemma OthersNoPong(s: State, a: Action, id: string)
    requires id in s.conns && AclOnly(s) && !D.Own(a, id)
    ensures id in Next(s, a).conns && Times(Next(s, a).conns[id].out, Pong) == Times(s.conns[id].out, Pong)
  {
    var out, out' := s.conns[id].out, Next(s, a).conns[id].out;
    if |out'| == |out| + 1 { assert out'[..|out|] == out; }
  }

  lemma PongStep(s: State, a: Action, id: string)
    requires id in s.conns && AclOnly(s)
    ensures id in Next(s, a).conns
    ensures Times(Next(s, a).conns[id].out, Pong) ==
            Times(s.conns[id].out, Pong) + if a == Ping(id) && Enabled(s, a) then 1 else 0
  {
    if !D.Own(a, id) {
      OthersNoPong(s, a, id);
    } else if Enabled(s, a) {
      OwnPong(s.conns[id], a);
      var out, out' := s.conns[id].out, ReaderConn(s.conns[id], a).out;
      assert Next(s, a).conns[id].out == out';
      if out' != out { assert out'[..|out|] == out; }
    }
  }

  /** Every ping is answered by one pong, and nothing else is. */
  lemma {:induction false} PongsAnswerPings(as_: seq<Action>, id: string)
    requires id in Run(as_).conns
    ensures Times(Run(as_).conns[id].out, Pong) == Pings(as_, id)
  {
    var init, a := as_[..|as_| - 1], as_[|as_| - 1];
    if id in Run(init).conns {
      PongsAnswerPings(init, id);
      RunQuiet(init);
      PongStep(Run(init), a, id);
    } else {
      RunLifetime(init);
      NewConnIsFresh(Run(init), a, id);
      NoPingsBefore(init, id);
    }
  }

  lemma {:induction false} NoPingsBefore(as_: seq<Action>, id: string)
    requires id !in Run(as_).conns
    ensures Pings(as_, id) == 0
  {
    if as_ != [] {
      if id in Run(as_[..|as_| - 1]).conns { CacheStep(Run(as_[..|as_| - 1]), as_[|as_| - 1], id, ""); }
      NoPingsBefore(as_[..|as_| - 1], id);
    }
  }
}
