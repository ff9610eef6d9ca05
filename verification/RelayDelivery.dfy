/** When a live event can reach a connection: exactly from which states, how that relates
    to the acknowledgement, and why a revocation by itself does not stop it. */
module RelayDelivery {
  import opened Prelude
  import opened Relay
  import I = Invalidation

  /** The client has been sent an acknowledgement naming the channel. */
  ghost predicate AckedFor(out: seq<Envelope>, ch: string) {
    exists i :: 0 <= i < |out| && out[i].Subscribed? && ch in out[i].chans
  }

  /** Every live event of the channel comes after an acknowledgement naming it. */
  ghost predicate LiveAfterAck(out: seq<Envelope>, ch: string) {
    forall i :: 0 <= i < |out| && out[i].Live? && out[i].chan == ch ==> AckedFor(out[..i], ch)
  }

  /** Live events of the channel so far. */
  function Lives(out: seq<Envelope>, ch: string): nat {
    if out == [] then 0
    else Lives(out[..|out| - 1], ch) + if out[|out| - 1].Live? && out[|out| - 1].chan == ch then 1 else 0
  }

  /** A fan-out of the channel holds the connection or has still to look it up. */
  ghost predicate Targeted(s: State, id: string, ch: string) {
    exists d :: d in s.fanouts && s.fanouts[d].chan == ch &&
        (s.fanouts[d].holding == Some(id) || id in s.fanouts[d].targets)
  }

  /** The fan-out can still deliver to the connection. */
  ghost predicate Bound(s: State, d: nat, id: string, ch: string) {
    && d in s.fanouts && s.fanouts[d].chan == ch
    && (s.fanouts[d].holding == Some(id) || (id in s.fanouts[d].targets && id in s.registered))
  }

  /** The connection is subscribed, or a fan-out under way can still deliver to it; events
      for the empty channel id are never fanned out, whoever has subscribed to it. */
  ghost predicate Exposed(s: State, id: string, ch: string) {
    ch != "" && ((id, ch) in s.subs || exists d :: Bound(s, d, id, ch))
  }

  /** A step of the connection's own read loop. */
  predicate Own(a: Action, id: string) {
    !IsFanout(a) && !IsAcl(a) && a.id == id
  }

  /** Whatever happens, except that the connection's own read loop stands still. */
  ghost predicate ReaderIdle(as_: seq<Action>, id: string) {
    forall i :: 0 <= i < |as_| ==> !Own(as_[i], id)
  }

  // ---- what one step sends -------------------------------------------------------------

  /** At most one envelope more, and no live event of the channel. */
  ghost predicate NoLiveAdded(out: seq<Envelope>, out': seq<Envelope>, ch: string) {
    out' == out || (|out'| > 0 && out' == out + [out'[|out'| - 1]] &&
        !(out'[|out'| - 1].Live? && out'[|out'| - 1].chan == ch))
  }

  lemma ReaderSends(s: State, a: Action, ch: string)
    requires Enabled(s, a) && !IsFanout(a) && !IsAcl(a) && a.id in s.conns
    ensures NoLiveAdded(s.conns[a.id].out, ReaderConn(s.conns[a.id], a).out, ch)
  {
  }

  /** Every step other than the delivery of the channel to the connection. */
  lemma StepSends(s: State, a: Action, id: string, ch: string)
    requires id in s.conns && AclOnly(s)
    requires !(a.Deliver? && a.d in s.fanouts && s.fanouts[a.d].chan == ch && s.fanouts[a.d].holding == Some(id))
    ensures id in Next(s, a).conns && NoLiveAdded(s.conns[id].out, Next(s, a).conns[id].out, ch)
  {
    if Enabled(s, a) && !IsFanout(a) && !IsAcl(a) && a.id == id {
      ReaderSends(s, a, ch);
    }
  }

  lemma OutGrows(s: State, a: Action, id: string)
    requires id in s.conns
    ensures id in Next(s, a).conns && s.conns[id].out <= Next(s, a).conns[id].out
  {
  }

  lemma AckedGrows(a: seq<Envelope>, b: seq<Envelope>, ch: string)
    requires a <= b && AckedFor(a, ch)
    ensures AckedFor(b, ch)
  {
    var i :| 0 <= i < |a| && a[i].Subscribed? && ch in a[i].chans;
    assert b[i] == a[i];
  }

  lemma NoLiveKeeps(out: seq<Envelope>, out': seq<Envelope>, ch: string)
    requires NoLiveAdded(out, out', ch)
    ensures LiveAfterAck(out, ch) <==> LiveAfterAck(out', ch)
    ensures Lives(out', ch) == Lives(out, ch)
  {
    if out' != out {
      assert out'[..|out|] == out;
      assert forall i :: 0 <= i < |out| ==> out'[i] == out[i] && out'[..i] == out[..i];
    }
  }

  lemma LiveSent(out: seq<Envelope>, ch: string, event: string)
    ensures LiveAfterAck(out + [Live(ch, event)], ch) <==> LiveAfterAck(out, ch) && AckedFor(out, ch)
    ensures Lives(out + [Live(ch, event)], ch) == Lives(out, ch) + 1
  {
    var out' := out + [Live(ch, event)];
    assert out'[..|out|] == out && out'[|out|] == Live(ch, event);
    assert forall i :: 0 <= i < |out| ==> out'[i] == out[i] && out'[..i] == out[..i];
  }

  // ---- acknowledgement before live, when dispatches stay out of the window ----------------

  /** No dispatch of the channel starts while the connection is subscribed to it but has
      not been acknowledged. */
  ghost predicate OutsideWindow(as_: seq<Action>, id: string, ch: string) {
    as_ == [] ||
    var s, a := Run(as_[..|as_| - 1]), as_[|as_| - 1];
    && OutsideWindow(as_[..|as_| - 1], id, ch)
    && (a.Dispatch? && a.chan == ch && Enabled(s, a) && (id, ch) in s.subs ==>
          id in s.conns && AckedFor(s.conns[id].out, ch))
  }

  ghost predicate Shielded(s: State, id: string, ch: string) {
    && (id in s.conns ==> LiveAfterAck(s.conns[id].out, ch))
    && (Targeted(s, id, ch) ==> id in s.conns && AckedFor(s.conns[id].out, ch))
  }

  /** Only a dispatch of the channel makes a subscribed connection a target. */
  lemma TargetedNext(s: State, a: Action, id: string, ch: string)
    requires Targeted(Next(s, a), id, ch)
    ensures Targeted(s, id, ch) || (Enabled(s, a) && a.Dispatch? && a.chan == ch && (id, ch) in s.subs)
  {
    var s' := Next(s, a);
    var d :| d in s'.fanouts && s'.fanouts[d].chan == ch &&
        (s'.fanouts[d].holding == Some(id) || id in s'.fanouts[d].targets);
    if Enabled(s, a) && a.Dispatch? && a.d == d {
      assert id in s'.fanouts[d].targets;
    } else {
      assert d in s.fanouts && s.fanouts[d].chan == ch;
    }
  }

  lemma OrderNext(s: State, a: Action, id: string, ch: string)
    requires Shielded(s, id, ch) && id in s.conns && AclOnly(s)
    ensures id in Next(s, a).conns && LiveAfterAck(Next(s, a).conns[id].out, ch)
  {
    var out, out' := s.conns[id].out, Next(s, a).conns[id].out;
    if a.Deliver? && a.d in s.fanouts && s.fanouts[a.d].chan == ch && s.fanouts[a.d].holding == Some(id) {
      assert Targeted(s, id, ch);
      LiveSent(out, ch, s.fanouts[a.d].event);
    } else {
      StepSends(s, a, id, ch);
      NoLiveKeeps(out, out', ch);
    }
  }

  lemma AckedNext(s: State, a: Action, id: string, ch: string)
    requires id in s.conns && AckedFor(s.conns[id].out, ch)
    ensures id in Next(s, a).conns && AckedFor(Next(s, a).conns[id].out, ch)
  {
    OutGrows(s, a, id);
    AckedGrows(s.conns[id].out, Next(s, a).conns[id].out, ch);
  }

  lemma NewConnIsSilent(s: State, a: Action, id: string, ch: string)
    requires id !in s.conns && id in Next(s, a).conns && Lifetime(s)
    ensures LiveAfterAck(Next(s, a).conns[id].out, ch)
  {
  }

  lemma ShieldedNext(s: State, a: Action, id: string, ch: string)
    requires Shielded(s, id, ch) && Lifetime(s) && AclOnly(s)
    requires a.Dispatch? && a.chan == ch && Enabled(s, a) && (id, ch) in s.subs ==>
               id in s.conns && AckedFor(s.conns[id].out, ch)
    ensures Shielded(Next(s, a), id, ch)
  {
    if id in s.conns {
      OrderNext(s, a, id, ch);
    } else if id in Next(s, a).conns {
      NewConnIsSilent(s, a, id, ch);
    }
    if Targeted(Next(s, a), id, ch) {
      TargetedNext(s, a, id, ch);
      AckedNext(s, a, id, ch);
    }
  }

  lemma {:induction false} RunShielded(as_: seq<Action>, id: string, ch: string)
    requires OutsideWindow(as_, id, ch)
    ensures Shielded(Run(as_), id, ch)
  {
    if as_ != [] {
      RunShielded(as_[..|as_| - 1], id, ch);
      RunQuiet(as_[..|as_| - 1]);
      ShieldedNext(Run(as_[..|as_| - 1]), as_[|as_| - 1], id, ch);
    }
  }

  /** Acknowledgement before live. In every run in which each dispatch of the channel
      starts while the connection is not subscribed to it or has been acknowledged, every
      live event of the channel comes after an acknowledgement naming it. */
  lemma AckBeforeLive(as_: seq<Action>, id: string, ch: string)
    requires OutsideWindow(as_, id, ch) && id in Run(as_).conns
    ensures LiveAfterAck(Run(as_).conns[id].out, ch)
  {
    RunShielded(as_, id, ch);
  }

  // ---- exactly who can still be reached -------------------------------------------------------

  lemma UnexposedReader(s: State, a: Action, id: string, ch: string)
    requires !Exposed(s, id, ch) && Enabled(s, a) && !IsFanout(a) && !IsAcl(a) && a.id != id
    ensures !Exposed(ReaderStep(s, a), id, ch)
  {
    var s' := ReaderStep(s, a);
    assert s'.fanouts == s.fanouts && (id in s'.registered ==> id in s.registered);
    if ch != "" {
      forall d ensures !Bound(s', d, id, ch) { assert !Bound(s, d, id, ch); }
    }
  }

  lemma UnexposedFanout(s: State, a: Action, id: string, ch: string)
    requires !Exposed(s, id, ch) && Enabled(s, a) && IsFanout(a)
    ensures !Exposed(FanoutStep(s, a), id, ch)
  {
    var s' := FanoutStep(s, a);
    if ch != "" {
      forall d ensures !Bound(s', d, id, ch) { assert !Bound(s, d, id, ch); }
    }
  }

  /** A connection nothing leads to stays so while its own read loop stands still. */
  lemma UnexposedNext(s: State, a: Action, id: string, ch: string)
    requires id in s.conns && Lifetime(s) && AclOnly(s) && !Exposed(s, id, ch) && !Own(a, id)
    ensures !Exposed(Next(s, a), id, ch)
    ensures id in Next(s, a).conns && NoLiveAdded(s.conns[id].out, Next(s, a).conns[id].out, ch)
  {
    if a.Deliver? && ch != "" { assert !Bound(s, a.d, id, ch); }
    StepSends(s, a, id, ch);
    if Enabled(s, a) {
      if IsFanout(a) { UnexposedFanout(s, a, id, ch); }
      else if IsAcl(a) { InvalidationKeepsSubscriptions(s, a, id, ch); }
      else { UnexposedReader(s, a, id, ch); }
    }
  }

  lemma {:induction false} UnexposedForever(s: State, as_: seq<Action>, id: string, ch: string)
    requires id in s.conns && Lifetime(s) && AclOnly(s) && !Exposed(s, id, ch) && ReaderIdle(as_, id)
    ensures var s' := RunFrom(s, as_);
            && id in s'.conns && Lifetime(s') && AclOnly(s') && !Exposed(s', id, ch)
            && Lives(s'.conns[id].out, ch) == Lives(s.conns[id].out, ch)
            && (LiveAfterAck(s'.conns[id].out, ch) <==> LiveAfterAck(s.conns[id].out, ch))
  {
    if as_ != [] {
      var before := RunFrom(s, as_[..|as_| - 1]);
      UnexposedForever(s, as_[..|as_| - 1], id, ch);
      UnexposedNext(before, as_[|as_| - 1], id, ch);
      LifetimeNext(before, as_[|as_| - 1]);
      AclOnlyNext(before, as_[|as_| - 1]);
      NoLiveKeeps(before.conns[id].out, Next(before, as_[|as_| - 1]).conns[id].out, ch);
    }
  }

  lemma FreshFanout(ds: set<nat>) returns (d: nat)
    ensures d !in ds
    ensures forall x :: x in ds ==> x < d
  {
    if ds == {} {
      d := 0;
    } else {
      var x :| x in ds;
      var y := FreshFanout(ds - {x});
      d := if x < y then y else x + 1;
      assert forall z :: z in ds ==> z == x || z in ds - {x};
    }
  }

  lemma LookupStep(s: State, d: nat, id: string)
    requires Enabled(s, Lookup(d, id)) && id in s.registered
    ensures var f := s.fanouts[d];
            Next(s, Lookup(d, id)) ==
                s.(fanouts := s.fanouts[d := f.(targets := f.targets - {id}, holding := Some(id))])
  {
  }

  lemma DeliverStep(s: State, d: nat, id: string)
    requires d in s.fanouts && s.fanouts[d].holding == Some(id) && id in s.conns
    ensures var f := s.fanouts[d];
            Next(s, Deliver(d)) == s.(conns := s.conns[id := Sent(s.conns[id], Live(f.chan, f.event))],
                                      fanouts := s.fanouts[d := f.(holding := None)])
  {
  }

  /** The event of a fan-out delivered to one of its targets. */
  function Delivered(s: State, d: nat, id: string): State
    requires d in s.fanouts && id in s.conns
  {
    var f := s.fanouts[d];
    s.(conns := s.conns[id := Sent(s.conns[id], Live(f.chan, f.event))],
       fanouts := s.fanouts[d := f.(targets := f.targets - {id}, holding := None)])
  }

  /** Looking the connection up and sending, from a fan-out that still has it as a target. */
  lemma LookUpAndDeliver(s: State, d: nat, id: string)
    requires d in s.fanouts && id in s.fanouts[d].targets && s.fanouts[d].holding.None?
    requires id in s.registered && id in s.conns
    ensures AllEnabled(s, [Lookup(d, id), Deliver(d)])
    ensures RunFrom(s, [Lookup(d, id), Deliver(d)]) == Delivered(s, d, id)
  {
    LookupStep(s, d, id);
    var s1 := Next(s, Lookup(d, id));
    DeliverStep(s1, d, id);
    assert Next(s1, Deliver(d)).fanouts == Delivered(s, d, id).fanouts;
    RunFromTwo(s, Lookup(d, id), Deliver(d));
  }

  lemma RunFromTwo(s: State, a: Action, b: Action)
    ensures RunFrom(s, [a, b]) == Next(Next(s, a), b)
    ensures AllEnabled(s, [a, b]) <==> Enabled(s, a) && Enabled(Next(s, a), b)
  {
    RunFromOne(s, a);
    RunFromSnoc(s, [a], b);
    assert [a] + [b] == [a, b];
  }

  lemma RunFromOne(s: State, a: Action)
    ensures RunFrom(s, [a]) == Next(s, a)
    ensures AllEnabled(s, [a]) <==> Enabled(s, a)
  {
    RunFromSnoc(s, [], a);
    assert [] + [a] == [a];
  }

  lemma DispatchStep(s: State, d: nat, ch: string, event: string)
    requires d !in s.fanouts && ch != ""
    ensures var targets := set p | p in s.subs && p.1 == ch :: p.0;
            Next(s, Dispatch(d, ch, event)) == s.(fanouts := s.fanouts[d := Fanout(ch, event, targets, None)])
    ensures forall id :: (id, ch) in s.subs ==> id in Next(s, Dispatch(d, ch, event)).fanouts[d].targets
  {
  }

  /** A subscribed connection is reached by a new dispatch, whatever else is going on. */
  lemma DispatchReaches(s: State, id: string, ch: string, event: string) returns (as_: seq<Action>)
    requires Lifetime(s) && (id, ch) in s.subs && ch != ""
    ensures ReaderIdle(as_, id) && AllEnabled(s, as_) && id in s.conns
    ensures var s' := RunFrom(s, as_);
            && s'.conns == s.conns[id := Sent(s.conns[id], Live(ch, event))]
            && s'.subs == s.subs && s'.registered == s.registered && s'.acl == s.acl
  {
    var d := FreshFanout(s.fanouts.Keys);
    var start := Dispatch(d, ch, event);
    DispatchStep(s, d, ch, event);
    LookUpAndDeliver(Next(s, start), d, id);
    RunFromOne(s, start);
    RunFromConcat(s, [start], [Lookup(d, id), Deliver(d)]);
    as_ := [start] + [Lookup(d, id), Deliver(d)];
  }

  /** A fan-out that can still deliver to the connection does so next. */
  lemma BoundReaches(s: State, d: nat, id: string, ch: string) returns (as_: seq<Action>)
    requires Lifetime(s) && id in s.conns && Bound(s, d, id, ch)
    ensures ReaderIdle(as_, id) && id in RunFrom(s, as_).conns
    ensures RunFrom(s, as_).conns[id].out == s.conns[id].out + [Live(ch, s.fanouts[d].event)]
  {
    var f := s.fanouts[d];
    if f.holding == Some(id) {
      as_ := [Deliver(d)];
      RunFromOne(s, Deliver(d));
    } else if f.holding.None? {
      as_ := [Lookup(d, id), Deliver(d)];
      LookUpAndDeliver(s, d, id);
    } else {
      var s1 := Next(s, Deliver(d));
      RunFromOne(s, Deliver(d));
      LifetimeNext(s, Deliver(d));
      LookUpAndDeliver(s1, d, id);
      RunFromConcat(s, [Deliver(d)], [Lookup(d, id), Deliver(d)]);
      as_ := [Deliver(d)] + [Lookup(d, id), Deliver(d)];
    }
  }

  lemma ExposedReaches(s: State, id: string, ch: string) returns (as_: seq<Action>)
    requires Lifetime(s) && id in s.conns && Exposed(s, id, ch)
    ensures ReaderIdle(as_, id) && id in RunFrom(s, as_).conns
    ensures var out, out' := s.conns[id].out, RunFrom(s, as_).conns[id].out;
            && Lives(out', ch) == Lives(out, ch) + 1
            && (LiveAfterAck(out', ch) <==> LiveAfterAck(out, ch) && AckedFor(out, ch))
  {
    if (id, ch) in s.subs {
      as_ := DispatchReaches(s, id, ch, "");
      LiveSent(s.conns[id].out, ch, "");
    } else {
      var d :| Bound(s, d, id, ch);
      as_ := BoundReaches(s, d, id, ch);
      LiveSent(s.conns[id].out, ch, s.fanouts[d].event);
    }
  }

  /** Reach, exactly. From every reachable state, while its read loop stands still, another
      live event of a channel can reach a connection if and only if the channel id is not
      empty and the connection is subscribed to it or a fan-out under way can still deliver
      to it. Whether the channel is still
      in the connection's ACL cache plays no part. */
  lemma LiveReachesIff(as_: seq<Action>, id: string, ch: string)
    requires id in Run(as_).conns
    ensures (exists more :: ReaderIdle(more, id) && id in RunFrom(Run(as_), more).conns
                         && Lives(RunFrom(Run(as_), more).conns[id].out, ch) > Lives(Run(as_).conns[id].out, ch))
       <==> Exposed(Run(as_), id, ch)
  {
    var s := Run(as_);
    RunQuiet(as_);
    if Exposed(s, id, ch) {
      var more := ExposedReaches(s, id, ch);
    } else {
      forall more | ReaderIdle(more, id) && id in RunFrom(s, more).conns
        ensures Lives(RunFrom(s, more).conns[id].out, ch) == Lives(s.conns[id].out, ch)
      {
        UnexposedForever(s, more, id, ch);
      }
    }
  }

  lemma {:induction false} AckedForever(s: State, as_: seq<Action>, id: string, ch: string)
    requires Lifetime(s) && AclOnly(s) && id in s.conns && LiveAfterAck(s.conns[id].out, ch) &&
        AckedFor(s.conns[id].out, ch)
    ensures var s' := RunFrom(s, as_);
            && Lifetime(s') && AclOnly(s') && id in s'.conns
            && LiveAfterAck(s'.conns[id].out, ch) && AckedFor(s'.conns[id].out, ch)
  {
    if as_ != [] {
      var before, a := RunFrom(s, as_[..|as_| - 1]), as_[|as_| - 1];
      AckedForever(s, as_[..|as_| - 1], id, ch);
      LifetimeNext(before, a);
      AclOnlyNext(before, a);
      ShieldedNext(before, a, id, ch);
      AckedNext(before, a, id, ch);
    }
  }

  /** Live before its acknowledgement, exactly. After any run that kept the order so far,
      some continuation without steps of the connection's own read loop puts a live event
      of the channel before every acknowledgement naming it if and only if none has been
      sent and the connection is already subscribed or about to be delivered to. */
  lemma EarlyLiveIff(as_: seq<Action>, id: string, ch: string)
    requires id in Run(as_).conns && LiveAfterAck(Run(as_).conns[id].out, ch)
    ensures (exists more :: ReaderIdle(more, id) && id in RunFrom(Run(as_), more).conns
                         && !LiveAfterAck(RunFrom(Run(as_), more).conns[id].out, ch))
       <==> !AckedFor(Run(as_).conns[id].out, ch) && Exposed(Run(as_), id, ch)
  {
    var s := Run(as_);
    RunQuiet(as_);
    if !AckedFor(s.conns[id].out, ch) && Exposed(s, id, ch) {
      var more := ExposedReaches(s, id, ch);
    } else {
      forall more | ReaderIdle(more, id) && id in RunFrom(s, more).conns
        ensures LiveAfterAck(RunFrom(s, more).conns[id].out, ch)
      {
        if AckedFor(s.conns[id].out, ch) { AckedForever(s, more, id, ch); } else { UnexposedForever(s, more, id, ch); }
      }
    }
  }

  // ---- two runs ------------------------------------------------------------------------------

  /** A relay with one connection and nothing else going on. */
  function Alone(id: string, c: Conn, subs: set<(string, string)>): State {
    State(map[id := c], {id}, subs, map[], AclIdle)
  }

  lemma AloneStep(as_: seq<Action>, id: string, c: Conn, subs: set<(string, string)>, a: Action)
    requires Run(as_) == Alone(id, c, subs)
    requires !IsFanout(a) && !IsAcl(a) && !a.Connect? && !a.Unregister? && a.id == id && Enabled(Alone(id, c, subs), a)
    ensures Run(as_ + [a]) == Alone(id, ReaderConn(c, a), ReaderSubs(subs, c, a))
  {
    RunSnoc(as_, a);
  }

  /** A connection subscribed to one channel and about to be acknowledged. */
  lemma SubscribedNotAcked(id: string, ch: string) returns (as_: seq<Action>, c: Conn)
    ensures Run(as_) == Alone(id, c, {(id, ch)})
    ensures c.out == [] && c.reader == Gating(Progress([ch], [], 0, [true], [ch]))
    ensures c.user == "user" && c.cache == {ch}
  {
    var connect, ask := Connect(id, "user", [ch]), AskSubscribe(id, [ch], []);
    RunSnoc([], connect);
    as_ := [] + [connect];
    c := Conn("user", Elems([ch]), Elems([ch]), [], Reading, {});
    assert Run(as_) == Alone(id, c, {});
    AloneStep(as_, id, c, {}, ask);
    as_, c := as_ + [ask], ReaderConn(c, ask);
    assert [ch][0] == ch;
    assert Current(c.reader.p) in c.cache;
    AloneStep(as_, id, c, {}, Gate(id, None));
    as_, c := as_ + [Gate(id, None)], ReaderConn(c, Gate(id, None));
    AloneStep(as_, id, c, {}, Register(id));
    as_, c := as_ + [Register(id)], ReaderConn(c, Register(id));
  }

  lemma AcknowledgeStep(s: State, id: string)
    requires Enabled(s, Acknowledge(id))
    ensures var s' := Next(s, Acknowledge(id));
            id in s'.conns && s'.conns[id].out == s.conns[id].out + [Subscribed(s.conns[id].reader.p.accepted)]
  {
  }

  /** The order "acknowledgement before live" does not hold: a dispatch that runs between
      the registration and the acknowledgement delivers its event first. */
  lemma LiveCanPrecedeAck(id: string, ch: string, event: string) returns (as_: seq<Action>)
    requires ch != ""
    ensures id in Run(as_).conns && Run(as_).conns[id].out == [Live(ch, event), Subscribed([ch])]
  {
    var c;
    as_, c := SubscribedNotAcked(id, ch);
    RunLifetime(as_);
    var more := DispatchReaches(Run(as_), id, ch, event);
    RunConcat(as_, more);
    as_ := as_ + more;
    AcknowledgeStep(Run(as_), id);
    RunSnoc(as_, Acknowledge(id));
    as_ := as_ + [Acknowledge(id)];
  }

  /** An invalidation reaches only caches: subscriptions survive it, and with them
      whatever can still be delivered. */
  lemma InvalidationKeepsSubscriptions(s: State, a: Action, id: string, ch: string)
    requires IsAcl(a)
    ensures Next(s, a).subs == s.subs && Next(s, a).registered == s.registered
    ensures Exposed(Next(s, a), id, ch) <==> Exposed(s, id, ch)
  {
    assert Next(s, a).fanouts == s.fanouts;
    forall d ensures Bound(Next(s, a), d, id, ch) <==> Bound(s, d, id, ch) {
    }
  }

  /** The steps of revoking one channel of a connection that stands alone. */
  lemma RevokeAlone(id: string, c: Conn, subs: set<(string, string)>, ch: string)
    requires c.user != "" && ch in c.cache
    ensures var ev := I.Single(c.user, ch, I.RemoveOp);
            var s3 := Next(Next(Next(Alone(id, c, subs), Invalidate(ev)), UpdateCache(id, None, [], [])), SendAcl);
            s3 == Alone(id, Sent(c, Revoked(ch)).(cache := c.cache - {ch}), subs).(acl := AclSending(ev, id, [], {}))
  {
    var ev, revoked := I.Single(c.user, ch, I.RemoveOp), c.(cache := c.cache - {ch});
    var s1 := Next(Alone(id, c, subs), Invalidate(ev));
    assert s1.acl.rest == {id};
    var s2 := Next(s1, UpdateCache(id, None, [], []));
    assert s2 == Alone(id, revoked, subs).(acl := AclSending(ev, id, [Revoked(ch)], {id} - {id}));
    assert [Revoked(ch)][1..] == [] && {id} - {id} == {};
    assert Next(s2, SendAcl).conns == map[id := Sent(revoked, Revoked(ch))];
  }

  lemma RevokedButSubscribed(id: string, ch: string) returns (as_: seq<Action>)
    ensures var s := Run(as_);
            && id in s.conns && ch !in s.conns[id].cache && (id, ch) in s.subs
            && s.conns[id].out == [Subscribed([ch]), Revoked(ch)]
  {
    var c;
    as_, c := SubscribedNotAcked(id, ch);
    AloneStep(as_, id, c, {(id, ch)}, Acknowledge(id));
    as_, c := as_ + [Acknowledge(id)], ReaderConn(c, Acknowledge(id));
    RevokeAlone(id, c, {(id, ch)}, ch);
    var ask, update := Invalidate(I.Single(c.user, ch, I.RemoveOp)), UpdateCache(id, None, [], []);
    RunSnoc(as_, ask);
    RunSnoc(as_ + [ask], update);
    RunSnoc(as_ + [ask] + [update], SendAcl);
    as_ := as_ + [ask] + [update] + [SendAcl];
  }

  /** A client that has been told of a revocation still receives the channel. */
  lemma RevokedStillReached(id: string, ch: string, event: string) returns (as_: seq<Action>)
    requires ch != ""
    ensures id in Run(as_).conns && ch !in Run(as_).conns[id].cache
    ensures Run(as_).conns[id].out == [Subscribed([ch]), Revoked(ch), Live(ch, event)]
  {
    as_ := RevokedButSubscribed(id, ch);
    RunLifetime(as_);
    var more := DispatchReaches(Run(as_), id, ch, event);
    RunConcat(as_, more);
    as_ := as_ + more;
  }
}
