/** Which keys a drain hands over, told by the events alone: forced since the last
    hand-over, old enough since then or since the first line, or long enough. */
module LogDrain {
  import opened JobModels
  import opened LogBuffer

  /** Event `n` of the run is a snapshot that hands lines of the key to `flush_fn`. */
  predicate HandsOver(c: Config, es: seq<Event>, n: nat, k: PhaseKey)
    requires n < |es|
  {
    es[n].Snapshot? && k in Next(c, Run(c, es[..n]), es[n]).1.batches
  }

  lemma HandsOverPrefix(c: Config, es: seq<Event>, n: nat, k: PhaseKey)
    requires n < |es| - 1
    ensures HandsOver(c, es[..|es| - 1], n, k) <==> HandsOver(c, es, n, k)
  {
    assert es[..|es| - 1][..n] == es[..n];
  }

  /** The last event that handed over lines of the key, or -1. */
  function LastHandOver(c: Config, es: seq<Event>, k: PhaseKey): (n: int)
    ensures -1 <= n < |es|
    ensures n >= 0 ==> HandsOver(c, es, n, k)
  {
    if es == [] then -1
    else if HandsOver(c, es, |es| - 1, k) then |es| - 1
    else
      var n := LastHandOver(c, es[..|es| - 1], k);
      if n >= 0 then HandsOverPrefix(c, es, n, k); n else n
  }

  lemma {:induction false} LastHandOverIsLast(c: Config, es: seq<Event>, k: PhaseKey, n: nat)
    requires LastHandOver(c, es, k) < n < |es|
    ensures !HandsOver(c, es, n, k)
  {
    if n < |es| - 1 {
      HandsOverPrefix(c, es, n, k);
      LastHandOverIsLast(c, es[..|es| - 1], k, n);
    }
  }

  predicate Forces(e: Event, k: PhaseKey) {
    e.ForceFlush? && e.key == k
  }

  predicate Appends(e: Event, k: PhaseKey) {
    e.Append? && e.key == k
  }

  function LastForce(es: seq<Event>, k: PhaseKey): (n: int)
    ensures -1 <= n < |es|
    ensures n >= 0 ==> Forces(es[n], k)
    ensures forall m :: 0 <= m < |es| && n < m ==> !Forces(es[m], k)
  {
    if es == [] then -1
    else if Forces(es[|es| - 1], k) then |es| - 1
    else LastForce(es[..|es| - 1], k)
  }

  /** The first event that appended to the key, or the length when there is none. */
  function FirstAppend(es: seq<Event>, k: PhaseKey): (n: nat)
    ensures n <= |es|
    ensures n < |es| ==> Appends(es[n], k)
    ensures forall m :: 0 <= m < n ==> !Appends(es[m], k)
  {
    if es == [] then 0
    else
      var init := es[..|es| - 1];
      var n := FirstAppend(init, k);
      if n < |init| then n else if Appends(es[|es| - 1], k) then |es| - 1 else |es|
  }

  /** When the key's lines were last handed over, or when its first line came. */
  function Since(c: Config, es: seq<Event>, k: PhaseKey): real
    requires FirstAppend(es, k) < |es|
  {
    var n := LastHandOver(c, es, k);
    if n >= 0 then es[n].now else es[FirstAppend(es, k)].now
  }

  ghost predicate Remembered(c: Config, es: seq<Event>, k: PhaseKey) {
    var s := Run(c, es);
    && (k in s.buffers <==> FirstAppend(es, k) < |es|)
    && (k in s.lastFlush <==> FirstAppend(es, k) < |es|)
    && (k in s.lastFlush ==> s.lastFlush[k] == Since(c, es, k))
    && (k in s.forced <==> LastForce(es, k) > LastHandOver(c, es, k))
  }

  lemma LastHandOverSnoc(c: Config, es: seq<Event>, e: Event, k: PhaseKey)
    ensures LastHandOver(c, es + [e], k) ==
            if k in Next(c, Run(c, es), e).1.batches then |es| else LastHandOver(c, es, k)
  {
    assert (es + [e])[..|es + [e]| - 1] == es;
    OnlySnapshotsHandOver(c, Run(c, es), e);
  }

  lemma EventsSnoc(c: Config, es: seq<Event>, e: Event, k: PhaseKey)
    ensures LastForce(es + [e], k) == if Forces(e, k) then |es| else LastForce(es, k)
    ensures FirstAppend(es + [e], k) ==
            if FirstAppend(es, k) < |es| then FirstAppend(es, k) else if Appends(e, k) then |es| else |es| + 1
    ensures Run(c, es + [e]) == Next(c, Run(c, es), e).0
  {
    assert (es + [e])[..|es + [e]| - 1] == es;
  }

  /** Only snapshots of the worker hand anything over. */
  lemma OnlySnapshotsHandOver(c: Config, s: State, e: Event)
    ensures Next(c, s, e).1.batches != map[] ==> e.Snapshot? && (s.worker.Draining? || s.worker.LastDraining?)
  {
  }

  predicate InStep(s: State, k: PhaseKey) {
    k in s.buffers <==> k in s.lastFlush
  }

  /** What one event does to the memory of one key. */
  lemma MemoryHandedOver(c: Config, s: State, e: Event, k: PhaseKey)
    requires InStep(s, k) && k in Next(c, s, e).1.batches
    ensures var s' := Next(c, s, e).0;
            && e.Snapshot? && InStep(s', k) && k in s.buffers && k in s'.buffers
            && s'.lastFlush[k] == e.now && k !in s'.forced
  {
  }

  lemma MemoryOfSnapshot(c: Config, s: State, now: real, k: PhaseKey)
    requires InStep(s, k) && k !in Next(c, s, Snapshot(now)).1.batches
    ensures var s' := Next(c, s, Snapshot(now)).0;
            && InStep(s', k) && (k in s'.buffers <==> k in s.buffers)
            && (k in s.lastFlush ==> s'.lastFlush[k] == s.lastFlush[k])
            && (k in s'.forced <==> k in s.forced)
  {
  }

  lemma MemoryKept(c: Config, s: State, e: Event, k: PhaseKey)
    requires InStep(s, k) && k !in Next(c, s, e).1.batches
    ensures var s' := Next(c, s, e).0;
            && InStep(s', k) && (k in s'.buffers <==> k in s.buffers || Appends(e, k))
            && (k in s.lastFlush ==> s'.lastFlush[k] == s.lastFlush[k])
            && (k !in s.lastFlush && Appends(e, k) ==> s'.lastFlush[k] == e.now)
            && (k in s'.forced <==> k in s.forced || Forces(e, k))
  {
    if e.Snapshot? { MemoryOfSnapshot(c, s, e.now, k); }
  }

  lemma SinceSnoc(c: Config, es: seq<Event>, e: Event, k: PhaseKey)
    requires FirstAppend(es + [e], k) < |es| + 1
    ensures Since(c, es + [e], k) ==
            if k in Next(c, Run(c, es), e).1.batches && e.Snapshot? then e.now
            else if FirstAppend(es, k) < |es| then Since(c, es, k)
            else if LastHandOver(c, es, k) >= 0 then es[LastHandOver(c, es, k)].now
            else if e.Append? then e.now else 0.0
  {
    LastHandOverSnoc(c, es, e, k);
    EventsSnoc(c, es, e, k);
    OnlySnapshotsHandOver(c, Run(c, es), e);
  }

  /** Lines of a key are handed over only after some were appended. */
  lemma {:induction false} RunRemembers(c: Config, es: seq<Event>, k: PhaseKey)
    ensures Remembered(c, es, k) && (FirstAppend(es, k) == |es| ==> LastHandOver(c, es, k) == -1)
  {
    if es != [] {
      var init, e := es[..|es| - 1], es[|es| - 1];
      assert es == init + [e];
      RunRemembers(c, init, k);
      RememberedSnoc(c, init, e, k);
    }
  }

  lemma RememberedSnoc(c: Config, es: seq<Event>, e: Event, k: PhaseKey)
    requires Remembered(c, es, k) && (FirstAppend(es, k) == |es| ==> LastHandOver(c, es, k) == -1)
    ensures Remembered(c, es + [e], k)
    ensures FirstAppend(es + [e], k) == |es| + 1 ==> LastHandOver(c, es + [e], k) == -1
  {
    LastHandOverSnoc(c, es, e, k);
    EventsSnoc(c, es, e, k);
    if k in Next(c, Run(c, es), e).1.batches {
      MemoryHandedOver(c, Run(c, es), e, k);
    } else {
      MemoryKept(c, Run(c, es), e, k);
    }
    if FirstAppend(es + [e], k) < |es| + 1 { SinceSnoc(c, es, e, k); }
  }

  /** The key is due at time `now`: forced since its last hand-over, at least the time
      threshold old since then or else since its first line, or at the size threshold. */
  predicate DueByEvents(c: Config, es: seq<Event>, k: PhaseKey, now: real)
    requires FirstAppend(es, k) < |es|
  {
    || LastForce(es, k) > LastHandOver(c, es, k)
    || now - Since(c, es, k) >= c.timeThreshold
    || |Buf(Run(c, es), k)| >= c.sizeThreshold
  }

  /** The worker is about to take a snapshot; `stopping` is what it read before. */
  predicate AboutToDrain(s: State, stopping: bool) {
    s.worker == Draining(stopping) || (s.worker.LastDraining? && stopping)
  }

  /** What a drain hands over, exactly. In every run, for every key, a snapshot hands over
      the whole buffer if it is not empty and the worker is stopping or the key is due, and
      nothing otherwise; what it hands over leaves the buffer, and nothing else does. */
  lemma HandedOverIff(c: Config, es: seq<Event>, k: PhaseKey, now: real, stopping: bool)
    requires AboutToDrain(Run(c, es), stopping)
    ensures var (s', out) := Next(c, Run(c, es), Snapshot(now));
            var buf := Buf(Run(c, es), k);
            && (k in out.batches <==>
                  buf != [] && FirstAppend(es, k) < |es| && (stopping || DueByEvents(c, es, k, now)))
            && (if k in out.batches then out.batches[k] == buf && Buf(s', k) == [] else Buf(s', k) == buf)
  {
    RunRemembers(c, es, k);
  }

  // ---- nobody waits for a forced key, or is woken for nothing ----------------------------------

  /** The worker drains before it sleeps again. */
  predicate Pressing(s: State) {
    s.wake || s.worker.Draining? || s.worker.LastDraining?
  }

  lemma BufferStays(c: Config, s: State, e: Event, k: PhaseKey)
    requires Buf(s, k) != [] && |Buf(s, k)| <= c.cap && k !in Next(c, s, e).1.batches
    ensures Buf(Next(c, s, e).0, k) != []
  {
    OneKey(c, s, e, k);
  }

  lemma CapHolds(c: Config, es: seq<Event>, k: PhaseKey)
    ensures Buf(Run(c, es), k) == [] || |Buf(Run(c, es), k)| <= c.cap
  {
    NoLostWakeUp(c, es);
  }

  lemma PressingNext(c: Config, s: State, e: Event, k: PhaseKey)
    requires Pressing(s) && Buf(s, k) != [] && k in s.forced && k !in Next(c, s, e).1.batches
    ensures Pressing(Next(c, s, e).0)
  {
  }

  /** A key forced while it has lines is drained at the next opportunity: until its lines
      are handed over the worker has a wake-up pending or is on its way to a snapshot, and
      they are still all there to be taken. */
  lemma {:induction false} ForcedIsPressing(c: Config, es: seq<Event>, n: nat, k: PhaseKey)
    requires n < |es| && Forces(es[n], k) && Buf(Run(c, es[..n]), k) != [] && LastHandOver(c, es, k) < n
    ensures Pressing(Run(c, es)) && Buf(Run(c, es), k) != []
  {
    var init, e := es[..|es| - 1], es[|es| - 1];
    assert es == init + [e];
    LastHandOverSnoc(c, init, e, k);
    if n == |es| - 1 {
      assert es[..n] == init;
    } else {
      assert init[..n] == es[..n];
      ForcedIsPressing(c, init, n, k);
      RunRemembers(c, init, k);
      CapHolds(c, init, k);
      BufferStays(c, Run(c, init), e, k);
      PressingNext(c, Run(c, init), e, k);
    }
  }

  /** The event asks for a drain: by force, by stopping, or by a buffer that is long enough. */
  predicate AsksForDrain(c: Config, s: State, e: Event) {
    || e.ForceFlush? || e.Stop?
    || (e.Append? && |Buf(Next(c, s, e).0, e.key)| >= c.sizeThreshold)
  }

  /** The worker's wait ends. */
  predicate WakesUp(s: State, e: Event) {
    e.Wake? && s.worker.Waiting? && (s.wake || e.timedOut)
  }

  /** Event `n` asked for a drain, and the worker has not woken up since. */
  ghost predicate StillAsked(c: Config, es: seq<Event>, n: nat) {
    && n < |es| && AsksForDrain(c, Run(c, es[..n]), es[n])
    && forall m :: n < m < |es| ==> !WakesUp(Run(c, es[..m]), es[m])
  }

  lemma StillAskedSnoc(c: Config, es: seq<Event>, e: Event, n: nat)
    ensures StillAsked(c, es + [e], n) <==>
            if n == |es| then AsksForDrain(c, Run(c, es), e)
            else n < |es| && StillAsked(c, es, n) && !WakesUp(Run(c, es), e)
  {
    var all := es + [e];
    assert all[..|es|] == es;
    assert forall m :: 0 <= m < |es| ==> all[..m] == es[..m] && all[m] == es[m];
    if n < |es| && StillAsked(c, es, n) && !WakesUp(Run(c, es), e) {
      forall m | n < m < |all| ensures !WakesUp(Run(c, all[..m]), all[m]) {
        if m < |es| { assert !WakesUp(Run(c, es[..m]), es[m]); }
      }
    }
    if StillAsked(c, all, n) && n < |es| {
      assert !WakesUp(Run(c, all[..|es|]), all[|es|]);
      forall m | n < m < |es| ensures !WakesUp(Run(c, es[..m]), es[m]) {
        assert !WakesUp(Run(c, all[..m]), all[m]);
      }
    }
  }

  lemma WakeStep(c: Config, s: State, e: Event)
    ensures Next(c, s, e).0.wake <==> AsksForDrain(c, s, e) || (s.wake && !WakesUp(s, e))
  {
  }

  /** The wake event is set if and only if somebody has asked for a drain since the worker
      last woke up: no request is forgotten, and none is made up. */
  lemma {:induction false} WakeIff(c: Config, es: seq<Event>)
    ensures Run(c, es).wake <==> exists n :: StillAsked(c, es, n)
  {
    if es != [] {
      var init, e := es[..|es| - 1], es[|es| - 1];
      assert es == init + [e];
      WakeIff(c, init);
      WakeStep(c, Run(c, init), e);
      forall n: nat { StillAskedSnoc(c, init, e, n); }
      assert AsksForDrain(c, Run(c, init), e) ==> StillAsked(c, es, |init|);
      if n :| StillAsked(c, init, n) && !WakesUp(Run(c, init), e) {
        assert StillAsked(c, es, n);
      }
    }
  }

  /** The worker is started anew. */
  predicate StartsAnew(s: State, e: Event) {
    e.Start? && s.worker.NotRunning?
  }

  /** Event `n` stopped the worker, and it has not been started anew since. */
  ghost predicate StillStopped(c: Config, es: seq<Event>, n: nat) {
    n < |es| && es[n].Stop? && forall m :: n < m < |es| ==> !StartsAnew(Run(c, es[..m]), es[m])
  }

  lemma StillStoppedSnoc(c: Config, es: seq<Event>, e: Event, n: nat)
    ensures StillStopped(c, es + [e], n) <==>
            if n == |es| then e.Stop? else n < |es| && StillStopped(c, es, n) && !StartsAnew(Run(c, es), e)
  {
    var all := es + [e];
    assert all[..|es|] == es;
    assert forall m :: 0 <= m < |es| ==> all[..m] == es[..m] && all[m] == es[m];
    if n < |es| && StillStopped(c, es, n) && !StartsAnew(Run(c, es), e) {
      forall m | n < m < |all| ensures !StartsAnew(Run(c, all[..m]), all[m]) {
        if m < |es| { assert !StartsAnew(Run(c, es[..m]), es[m]); }
      }
    }
    if StillStopped(c, all, n) && n < |es| {
      assert !StartsAnew(Run(c, all[..|es|]), all[|es|]);
      forall m | n < m < |es| ensures !StartsAnew(Run(c, es[..m]), es[m]) {
        assert !StartsAnew(Run(c, all[..m]), all[m]);
      }
    }
  }

  lemma StopStep(c: Config, s: State, e: Event)
    ensures Next(c, s, e).0.stop <==> e.Stop? || (s.stop && !StartsAnew(s, e))
    ensures StartsAnew(s, e) ==> Next(c, s, e).0.worker.Launched?
  {
  }

  /** The worker is told to stop if and only if a stop came after the last time it was started. */
  lemma {:induction false} StopIff(c: Config, es: seq<Event>)
    ensures Run(c, es).stop <==> exists n :: StillStopped(c, es, n)
  {
    if es != [] {
      var init, e := es[..|es| - 1], es[|es| - 1];
      assert es == init + [e];
      StopIff(c, init);
      StopStep(c, Run(c, init), e);
      forall n: nat { StillStoppedSnoc(c, init, e, n); }
      assert e.Stop? ==> StillStopped(c, es, |init|);
      if n :| StillStopped(c, init, n) && !StartsAnew(Run(c, init), e) {
        assert StillStopped(c, es, n);
      }
    }
  }

  // ---- whatever happened, lines can still be handed over ----------------------------------------

  function RunFrom(c: Config, s: State, es: seq<Event>): State
    decreases |es|
  {
    if es == [] then s else RunFrom(c, Next(c, s, es[0]).0, es[1..])
  }

  /** Bring the worker, started if need be, to a snapshot; `n` steps at most. */
  lemma {:induction false} ToSnapshot(c: Config, s: State, n: nat) returns (es: seq<Event>)
    requires n >= Distance(s)
    ensures |es| <= n && forall i :: 0 <= i < |es| ==> !es[i].Append? && !es[i].Snapshot? && !es[i].Stop?
    ensures var s' := RunFrom(c, s, es);
            && s'.buffers == s.buffers && s'.forced == s.forced && s'.lastFlush == s.lastFlush
            && (s'.worker.Draining? || s'.worker.LastDraining?)
    decreases n
  {
    if s.worker.Draining? || s.worker.LastDraining? {
      es := [];
    } else {
      var e := Forward(s);
      var rest := ToSnapshot(c, Next(c, s, e).0, n - 1);
      es := [e] + rest;
      assert es[1..] == rest;
    }
  }

  function Distance(s: State): nat {
    match s.worker
    case LastFlushing => 4
    case NotRunning => 3
    case Launched => 2
    case Flushing => 2
    case Waiting => 1
    case Draining(_) => 0
    case LastDraining => 0
  }

  function Forward(s: State): Event {
    match s.worker
    case NotRunning => Start
    case Launched => LoopTop
    case Waiting => Wake(true)
    case _ => FlushDone
  }

  /** From every state, running, stopping or stopped, buffered lines can be handed over: when
      their key is forced, the worker's own steps, after a start if it has ended, lead to a
      snapshot that takes all of them. */
  lemma CanHandOver(c: Config, s: State, k: PhaseKey, now: real) returns (es: seq<Event>)
    requires Buf(s, k) != []
    ensures |es| <= 4 && forall i :: 0 <= i < |es| ==> !es[i].Append? && !es[i].Snapshot? && !es[i].Stop?
    ensures var s' := RunFrom(c, Next(c, s, ForceFlush(k)).0, es);
            var out := Next(c, s', Snapshot(now)).1.batches;
            k in out && out[k] == Buf(s, k)
  {
    es := ToSnapshot(c, Next(c, s, ForceFlush(k)).0, 4);
  }
}
