/** The batching log buffer: per-(job, step) lists with a ring cap, a wake event,
    forced keys and one background drain worker. Every lock-held section is one step. */
module LogBuffer {
  import opened JobModels

  datatype Line = Line(lineNo: int, ts: real, text: string)

  datatype Config = Config(sizeThreshold: int, timeThreshold: real, cap: int)

  /** Where the worker is between its suspension points. */
  datatype Worker =
    | NotRunning
    | Launched                 // task created, loop condition not yet tested
    | Waiting                  // in `wait_for(wake.wait(), ...)`
    | Draining(stopping: bool) // wake cleared, `_stop` read, lock not yet taken
    | Flushing                 // snapshot taken, `flush_fn` calls running
    | LastDraining             // loop left; the final drain waits for the lock
    | LastFlushing

  datatype State = State(
    buffers: map<PhaseKey, seq<Line>>,
    lastFlush: map<PhaseKey, real>,
    forced: set<PhaseKey>,
    wake: bool,
    stop: bool,
    worker: Worker)

  datatype Event =
    | Append(key: PhaseKey, line: Line, now: real)
    | ForceFlush(key: PhaseKey)
    | Start
    | Stop
    | LoopTop                  // a fresh worker tests its loop condition
    | Wake(timedOut: bool)     // the wait ends, by event or by timeout
    | Snapshot(now: real)      // the lock-held half of `_drain_once`
    | FlushDone                // all `flush_fn` calls returned or raised

  /** What a step hands to the outside: batches to `flush_fn`, counts to `on_drop`. */
  datatype Output = Output(batches: map<PhaseKey, seq<Line>>, reported: int)

  const SILENT := Output(map[], 0)

  function Init(): State {
    State(map[], map[], {}, false, false, NotRunning)
  }

  function Buf(s: State, k: PhaseKey): seq<Line> {
    if k in s.buffers then s.buffers[k] else []
  }

  /** How many of `n` lines `del buf[:n - cap]` removes, and what `on_drop` is told. */
  function Lost(n: nat, cap: int): (r: nat)
    ensures r <= n
  {
    if n <= cap then 0 else if n - cap <= n then n - cap else n
  }

  function Reported(n: nat, cap: int): nat {
    if n <= cap then 0 else n - cap
  }

  function Appended(c: Config, s: State, k: PhaseKey, line: Line, now: real): State {
    var grown := Buf(s, k) + [line];
    var kept := grown[Lost(|grown|, c.cap)..];
    s.(buffers := s.buffers[k := kept],
       lastFlush := if k in s.lastFlush then s.lastFlush else s.lastFlush[k := now],
       wake := s.wake || |kept| >= c.sizeThreshold)
  }

  predicate Due(c: Config, s: State, k: PhaseKey, now: real, stopping: bool)
    requires k in s.buffers
  {
    && s.buffers[k] != []
    && (|| stopping
        || now - (if k in s.lastFlush then s.lastFlush[k] else 0.0) >= c.timeThreshold
        || |s.buffers[k]| >= c.sizeThreshold
        || k in s.forced)
  }

  function DueKeys(c: Config, s: State, now: real, stopping: bool): set<PhaseKey> {
    set k | k in s.buffers && Due(c, s, k, now, stopping)
  }

  function Drained(c: Config, s: State, now: real, stopping: bool): State {
    var due := DueKeys(c, s, now, stopping);
    s.(buffers := Emptied(s.buffers, due), lastFlush := Stamped(s.lastFlush, due, now), forced := s.forced - due)
  }

  function Emptied(buffers: map<PhaseKey, seq<Line>>, due: set<PhaseKey>): map<PhaseKey, seq<Line>> {
    map k | k in buffers :: if k in due then [] else buffers[k]
  }

  function Stamped(lastFlush: map<PhaseKey, real>, due: set<PhaseKey>, now: real): map<PhaseKey, real> {
    map k | k in lastFlush.Keys + due :: if k in due then now else lastFlush[k]
  }

  function Taken(buffers: map<PhaseKey, seq<Line>>, due: set<PhaseKey>): map<PhaseKey, seq<Line>> {
    map k | k in due && k in buffers :: buffers[k]
  }

  function Batches(c: Config, s: State, now: real, stopping: bool): map<PhaseKey, seq<Line>> {
    Taken(s.buffers, DueKeys(c, s, now, stopping))
  }

  function Next(c: Config, s: State, e: Event): (State, Output) {
    match e
    case Append(k, line, now) =>
      (Appended(c, s, k, line, now), Output(map[], Reported(|Buf(s, k)| + 1, c.cap)))
    case ForceFlush(k) => (s.(forced := s.forced + {k}, wake := true), SILENT)
    case Start =>
      if s.worker.NotRunning? then (s.(stop := false, worker := Launched), SILENT) else (s, SILENT)
    case Stop => (s.(stop := true, wake := true), SILENT)
    case LoopTop =>
      if s.worker.Launched? then (s.(worker := if s.stop then LastDraining else Waiting), SILENT) else (s, SILENT)
    case Wake(timedOut) =>
      if s.worker.Waiting? && (s.wake || timedOut) then (s.(wake := false, worker := Draining(s.stop)), SILENT)
      else (s, SILENT)
    case Snapshot(now) =>
      if s.worker.Draining? then
        (Drained(c, s, now, s.worker.stopping).(worker := Flushing), Output(Batches(c, s, now, s.worker.stopping), 0))
      else if s.worker.LastDraining? then
        (Drained(c, s, now, true).(worker := LastFlushing), Output(Batches(c, s, now, true), 0))
      else (s, SILENT)
    case FlushDone =>
      if s.worker.Flushing? then (s.(worker := if s.stop then LastDraining else Waiting), SILENT)
      else if s.worker.LastFlushing? then (s.(worker := NotRunning), SILENT)
      else (s, SILENT)
  }

  function Run(c: Config, es: seq<Event>): State {
    if es == [] then Init() else Next(c, Run(c, es[..|es| - 1]), es[|es| - 1]).0
  }

  /** The output of the last event of a run. */
  function LastOutput(c: Config, es: seq<Event>): Output
    requires es != []
  {
    Next(c, Run(c, es[..|es| - 1]), es[|es| - 1]).1
  }

  // ---- what the outside world sees for one key ------------------------------------

  function AppendedLines(es: seq<Event>, k: PhaseKey): seq<Line> {
    if es == [] then []
    else
      var e := es[|es| - 1];
      AppendedLines(es[..|es| - 1], k) + if e.Append? && e.key == k then [e.line] else []
  }

  /** All batches given to `flush_fn` for the key, concatenated. */
  function FlushedLines(c: Config, es: seq<Event>, k: PhaseKey): seq<Line> {
    if es == [] then []
    else
      var out := LastOutput(c, es).batches;
      FlushedLines(c, es[..|es| - 1], k) + if k in out then out[k] else []
  }

  /** The sum of what `on_drop` was told on appends to the key. */
  function ReportedDrops(c: Config, es: seq<Event>, k: PhaseKey): int {
    if es == [] then 0
    else
      var e := es[|es| - 1];
      ReportedDrops(c, es[..|es| - 1], k) + if e.Append? && e.key == k then LastOutput(c, es).reported else 0
  }

  // ---- conservation ------------------------------------------------------------------

  datatype Fate = Flushed | Dropped

  /** How each line that has left the buffer left it, oldest first. */
  function Fates(c: Config, es: seq<Event>, k: PhaseKey): seq<(Line, Fate)> {
    if es == [] then []
    else
      var s, e := Run(c, es[..|es| - 1]), es[|es| - 1];
      var out := LastOutput(c, es).batches;
      Fates(c, es[..|es| - 1], k) +
      if k in out then Tag(out[k], Flushed)
      else if e.Append? && e.key == k then
        var grown := Buf(s, k) + [e.line];
        Tag(grown[..Lost(|grown|, c.cap)], Dropped)
      else []
  }

  function Tag(lines: seq<Line>, f: Fate): seq<(Line, Fate)> {
    seq(|lines|, i requires 0 <= i < |lines| => (lines[i], f))
  }

  function Lines(ts: seq<(Line, Fate)>): seq<Line> {
    seq(|ts|, i requires 0 <= i < |ts| => ts[i].0)
  }

  function With(ts: seq<(Line, Fate)>, f: Fate): seq<Line> {
    if ts == [] then []
    else With(ts[..|ts| - 1], f) + if ts[|ts| - 1].1 == f then [ts[|ts| - 1].0] else []
  }

  lemma {:induction false} WithConcat(a: seq<(Line, Fate)>, b: seq<(Line, Fate)>, f: Fate)
    ensures With(a + b, f) == With(a, f) + With(b, f)
  {
    if b == [] {
      assert a + b == a;
    } else {
      assert (a + b)[..|a + b| - 1] == a + b[..|b| - 1];
      WithConcat(a, b[..|b| - 1], f);
    }
  }

  lemma {:induction false} WithTag(lines: seq<Line>, g: Fate, f: Fate)
    ensures With(Tag(lines, g), f) == if f == g then lines else []
  {
    if lines != [] {
      assert Tag(lines, g)[..|lines| - 1] == Tag(lines[..|lines| - 1], g);
      WithTag(lines[..|lines| - 1], g, f);
      assert lines == lines[..|lines| - 1] + [lines[|lines| - 1]];
    }
  }

  lemma LinesConcat(a: seq<(Line, Fate)>, lines: seq<Line>, f: Fate)
    ensures Lines(a + Tag(lines, f)) == Lines(a) + lines
  {
  }

  /** What one event does to the buffer of one key. */
  lemma OneKey(c: Config, s: State, e: Event, k: PhaseKey)
    ensures var (s', out) := Next(c, s, e);
            && (k in out.batches ==> out.batches[k] == Buf(s, k) && Buf(s', k) == [] && !e.Append?)
            && (k !in out.batches && !(e.Append? && e.key == k) ==> Buf(s', k) == Buf(s, k))
            && (e.Append? ==> out.batches == map[])
            && (e.Append? && e.key == k ==>
                  var grown := Buf(s, k) + [e.line];
                  Buf(s', k) == grown[Lost(|grown|, c.cap)..])
  {
  }

  /** Log conservation. For every key, in every interleaving, the appended lines are
      those that left, oldest first, followed by exactly the current buffer. */
  lemma {:induction false} Conservation(c: Config, es: seq<Event>, k: PhaseKey)
    ensures AppendedLines(es, k) == Lines(Fates(c, es, k)) + Buf(Run(c, es), k)
  {
    if es != [] {
      var init, e := es[..|es| - 1], es[|es| - 1];
      var s, past := Run(c, init), Fates(c, init, k);
      Conservation(c, init, k);
      OneKey(c, s, e, k);
      var out := LastOutput(c, es).batches;
      if k in out {
        Leave(past, Buf(s, k), |Buf(s, k)|, Flushed);
      } else if e.Append? && e.key == k {
        var grown := Buf(s, k) + [e.line];
        Leave(past, grown, Lost(|grown|, c.cap), Dropped);
        assert Lines(past) + grown == Lines(past) + Buf(s, k) + [e.line];
      } else {
        assert Fates(c, es, k) == past;
      }
    }
  }

  /** Moving the first `n` buffered lines to the past loses nothing and keeps order. */
  lemma Leave(past: seq<(Line, Fate)>, buf: seq<Line>, n: nat, f: Fate)
    requires n <= |buf|
    ensures Lines(past) + buf == Lines(past + Tag(buf[..n], f)) + buf[n..]
    ensures n == |buf| ==> buf[..n] == buf && buf[n..] == []
  {
    LinesConcat(past, buf[..n], f);
    assert buf == buf[..n] + buf[n..];
  }

  /** Flush order: the batches given to `flush_fn`, concatenated, are exactly the
      flushed lines in append order. */
  lemma {:induction false} FlushOrder(c: Config, es: seq<Event>, k: PhaseKey)
    ensures FlushedLines(c, es, k) == With(Fates(c, es, k), Flushed)
  {
    if es != [] {
      var init, e := es[..|es| - 1], es[|es| - 1];
      var s, past := Run(c, init), Fates(c, init, k);
      FlushOrder(c, init, k);
      OneKey(c, s, e, k);
      var out := LastOutput(c, es).batches;
      if k in out {
        WithConcat(past, Tag(out[k], Flushed), Flushed);
        WithTag(out[k], Flushed, Flushed);
      } else if e.Append? && e.key == k {
        var gone := (Buf(s, k) + [e.line])[..Lost(|Buf(s, k)| + 1, c.cap)];
        WithConcat(past, Tag(gone, Dropped), Flushed);
        WithTag(gone, Dropped, Flushed);
      } else {
        assert Fates(c, es, k) == past;
      }
    }
  }

  /** Dropped lines and `on_drop` totals: the reports count exactly the lines lost to
      the cap, unless the cap is negative and something was appended. */
  lemma {:induction false} DropTotals(c: Config, es: seq<Event>, k: PhaseKey)
    ensures |With(Fates(c, es, k), Dropped)| <= ReportedDrops(c, es, k)
    ensures ReportedDrops(c, es, k) == |With(Fates(c, es, k), Dropped)| <==> c.cap >= 0 || AppendedLines(es, k) == []
  {
    if es != [] {
      var init, e := es[..|es| - 1], es[|es| - 1];
      var s, past := Run(c, init), Fates(c, init, k);
      DropTotals(c, init, k);
      OneKey(c, s, e, k);
      var out := LastOutput(c, es).batches;
      if k in out {
        WithConcat(past, Tag(out[k], Flushed), Dropped);
        WithTag(out[k], Flushed, Dropped);
      } else if e.Append? && e.key == k {
        var grown := Buf(s, k) + [e.line];
        var gone := grown[..Lost(|grown|, c.cap)];
        WithConcat(past, Tag(gone, Dropped), Dropped);
        WithTag(gone, Dropped, Dropped);
        assert Reported(|grown|, c.cap) == |gone| <==> c.cap >= 0;
      } else {
        assert Fates(c, es, k) == past;
      }
    }
  }

  // ---- the cap, the wake-up and the final drain -------------------------------------------

  /** No buffer exceeds the cap (a negative cap acts as zero), and a buffer that has
      reached the size threshold is never forgotten: the wake event is set or the
      worker is between clearing it and taking its snapshot. A worker told to stop does
      not sleep either. */
  ghost predicate Attended(c: Config, s: State) {
    && (forall k :: k in s.buffers ==> |s.buffers[k]| <= c.cap || s.buffers[k] == [])
    && (forall k :: k in s.buffers && s.buffers[k] != [] && |s.buffers[k]| >= c.sizeThreshold
          ==> s.wake || s.worker.Draining? || s.worker.LastDraining?)
    && (s.worker.LastDraining? || s.worker.LastFlushing? ==> s.stop)
    && (s.worker.Waiting? && s.stop ==> s.wake)
  }

  lemma AttendedAppend(c: Config, s: State, k: PhaseKey, line: Line, now: real)
    requires Attended(c, s)
    ensures Attended(c, Appended(c, s, k, line, now))
  {
    var grown := Buf(s, k) + [line];
    assert |grown[Lost(|grown|, c.cap)..]| <= c.cap || grown[Lost(|grown|, c.cap)..] == [];
  }

  lemma AttendedSnapshot(c: Config, s: State, now: real)
    requires Attended(c, s)
    ensures Attended(c, Next(c, s, Snapshot(now)).0)
  {
    var s' := Next(c, s, Snapshot(now)).0;
    assert forall k :: k in s'.buffers ==> k in s.buffers && (s'.buffers[k] == [] || s'.buffers[k] == s.buffers[k]);
  }

  lemma AttendedNext(c: Config, s: State, e: Event)
    requires Attended(c, s)
    ensures Attended(c, Next(c, s, e).0)
  {
    match e
    case Append(k, line, now) => AttendedAppend(c, s, k, line, now);
    case Snapshot(now) => AttendedSnapshot(c, s, now);
    case _ => assert Next(c, s, e).0.buffers == s.buffers;
  }

  lemma {:induction false} NoLostWakeUp(c: Config, es: seq<Event>)
    ensures Attended(c, Run(c, es))
  {
    if es != [] {
      NoLostWakeUp(c, es[..|es| - 1]);
      AttendedNext(c, Run(c, es[..|es| - 1]), es[|es| - 1]);
    }
  }

  /** Draining while stopping hands over every buffered line and leaves nothing behind. */
  lemma StoppingSnapshot(c: Config, s: State, now: real)
    requires s.worker.LastDraining?
    ensures var (s', out) := Next(c, s, Snapshot(now));
            && (forall k :: Buf(s', k) == [])
            && (forall k :: Buf(s, k) != [] ==> k in out.batches && out.batches[k] == Buf(s, k))
            && (forall k :: k in out.batches ==> Buf(s, k) != [])
  {
  }

  predicate Over(w: Worker) {
    w.LastFlushing? || w.NotRunning?
  }

  /** The only ways into the last flush and out of it, and what is handed over there. */
  lemma OverSteps(c: Config, s: State, e: Event)
    ensures var (s', out) := Next(c, s, e);
            && (s'.worker.LastFlushing? && !s.worker.LastFlushing? ==> e.Snapshot? && s.worker.LastDraining?)
            && (s'.worker.NotRunning? ==> Over(s.worker))
            && (Over(s.worker) ==> out.batches == map[])
  {
  }

  lemma RunSplit(c: Config, es: seq<Event>, p: nat)
    requires p < |es|
    ensures Run(c, es[..p + 1]) == Next(c, Run(c, es[..p]), es[p]).0
  {
    assert es[..p + 1][..p] == es[..p];
  }

  /** The worker took its last snapshot at `m` and has done nothing but end since. */
  ghost predicate EndsAt(c: Config, es: seq<Event>, m: nat) {
    && m < |es| && es[m].Snapshot? && Run(c, es[..m]).worker.LastDraining?
    && forall p :: m < p <= |es| ==> Over(Run(c, es[..p]).worker)
  }

  lemma EndsAtLonger(c: Config, es: seq<Event>, m: nat)
    requires es != [] && EndsAt(c, es[..|es| - 1], m) && Over(Run(c, es).worker)
    ensures EndsAt(c, es, m)
  {
    var init := es[..|es| - 1];
    assert init[..m] == es[..m] && es[..|es|] == es;
    forall p | m < p <= |es| ensures Over(Run(c, es[..p]).worker) {
      if p < |es| { assert init[..p] == es[..p]; }
    }
  }

  lemma {:induction false} FlushingSince(c: Config, es: seq<Event>) returns (m: nat)
    requires Run(c, es).worker.LastFlushing?
    ensures EndsAt(c, es, m)
  {
    var n := |es| - 1;
    OverSteps(c, Run(c, es[..n]), es[n]);
    if Run(c, es[..n]).worker.LastFlushing? {
      m := FlushingSince(c, es[..n]);
      EndsAtLonger(c, es, m);
    } else {
      m := n;
      assert es[..n + 1] == es;
    }
  }

  lemma {:induction false} EndedSince(c: Config, es: seq<Event>, n: nat) returns (m: nat)
    requires n <= |es| && !Run(c, es[..n]).worker.NotRunning? && Run(c, es).worker.NotRunning?
    ensures EndsAt(c, es, m)
  {
    assert es[..|es|] == es;
    var init := es[..|es| - 1];
    assert init[..n] == es[..n];
    OverSteps(c, Run(c, init), es[|es| - 1]);
    if Run(c, init).worker.LastFlushing? {
      m := FlushingSince(c, init);
    } else {
      m := EndedSince(c, init, n);
    }
    EndsAtLonger(c, es, m);
  }

  lemma {:induction false} FatesPrefix(c: Config, es: seq<Event>, n: nat, k: PhaseKey)
    requires n <= |es|
    ensures Fates(c, es[..n], k) <= Fates(c, es, k)
  {
    if n == |es| {
      assert es[..n] == es;
    } else {
      assert es[..|es| - 1][..n] == es[..n];
      FatesPrefix(c, es[..|es| - 1], n, k);
    }
  }

  /** What event `p` of the run hands to `flush_fn`. */
  function HandedAt(c: Config, es: seq<Event>, p: nat): map<PhaseKey, seq<Line>>
    requires p < |es|
  {
    Next(c, Run(c, es[..p]), es[p]).1.batches
  }

  lemma SnapshotTakesAll(c: Config, es: seq<Event>, m: nat, k: PhaseKey)
    requires m < |es| && es[m].Snapshot? && Run(c, es[..m]).worker.LastDraining?
    ensures Lines(Fates(c, es[..m + 1], k)) == AppendedLines(es[..m], k)
  {
    var upTo := es[..m + 1];
    assert upTo[..m] == es[..m];
    RunSplit(c, es, m);
    StoppingSnapshot(c, Run(c, es[..m]), es[m].now);
    Conservation(c, upTo, k);
    assert Lines(Fates(c, upTo, k)) + [] == Lines(Fates(c, upTo, k));
  }

  /** Final drain. In every run in which the worker ran and has ended, stop was requested
      and there was a last snapshot, at `m`: for every key, all lines appended before it
      have been flushed or dropped, and nothing is handed over after it. */
  lemma FinalDrain(c: Config, es: seq<Event>, n: nat) returns (m: nat)
    requires n <= |es| && !Run(c, es[..n]).worker.NotRunning? && Run(c, es).worker.NotRunning?
    ensures m < |es| && es[m].Snapshot? && Run(c, es[..m]).stop
    ensures forall k :: Lines(Fates(c, es[..m + 1], k)) == AppendedLines(es[..m], k)
    ensures forall k :: Fates(c, es[..m + 1], k) <= Fates(c, es, k)
    ensures forall p :: m < p < |es| ==> HandedAt(c, es, p) == map[]
  {
    m := EndedSince(c, es, n);
    NoLostWakeUp(c, es[..m]);
    forall k ensures Lines(Fates(c, es[..m + 1], k)) == AppendedLines(es[..m], k) {
      SnapshotTakesAll(c, es, m, k);
    }
    forall k ensures Fates(c, es[..m + 1], k) <= Fates(c, es, k) {
      FatesPrefix(c, es, m + 1, k);
    }
    forall p | m < p < |es| ensures HandedAt(c, es, p) == map[] {
      OverSteps(c, Run(c, es[..p]), es[p]);
    }
  }

  // ---- stopping ends the worker ---------------------------------------------------------

  /** How many steps of its own a stopping worker has left. */
  function Left(w: Worker): nat {
    match w
    case NotRunning => 0
    case LastFlushing => 1
    case LastDraining => 2
    case Flushing => 3
    case Launched => 3
    case Draining(_) => 4
    case Waiting => 5
  }

  /** What the worker does next; none of it waits for a timeout. */
  function OwnStep(w: Worker): Event {
    match w
    case Launched => LoopTop
    case Waiting => Wake(false)
    case Draining(_) => Snapshot(0.0)
    case LastDraining => Snapshot(0.0)
    case _ => FlushDone
  }

  function RunFrom(c: Config, s: State, es: seq<Event>): State {
    if es == [] then s else Next(c, RunFrom(c, s, es[..|es| - 1]), es[|es| - 1]).0
  }

  /** How many of the events moved the worker. */
  function Moves(c: Config, s: State, es: seq<Event>): nat {
    if es == [] then 0
    else
      var before := RunFrom(c, s, es[..|es| - 1]);
      Moves(c, s, es[..|es| - 1]) + if Next(c, before, es[|es| - 1]).0.worker != before.worker then 1 else 0
  }

  lemma StoppingStep(c: Config, s: State, e: Event)
    requires Attended(c, s) && (s.worker.NotRunning? || s.stop) && !e.Start?
    ensures var s' := Next(c, s, e).0;
            && (s'.worker.NotRunning? || s'.stop)
            && Left(s'.worker) + (if s'.worker != s.worker then 1 else 0) <= Left(s.worker)
  {
  }

  lemma StoppingCanMove(c: Config, s: State)
    requires Attended(c, s) && s.stop && !s.worker.NotRunning?
    ensures Left(Next(c, s, OwnStep(s.worker)).0.worker) < Left(s.worker)
  {
  }

  ghost predicate Stopping(c: Config, s: State) {
    Attended(c, s) && (s.worker.NotRunning? || s.stop)
  }

  lemma {:induction false} StoppingRun(c: Config, s: State, es: seq<Event>)
    requires Stopping(c, s) && forall i :: 0 <= i < |es| ==> !es[i].Start?
    ensures Stopping(c, RunFrom(c, s, es))
    ensures Moves(c, s, es) + Left(RunFrom(c, s, es).worker) <= Left(s.worker)
  {
    if es != [] {
      var before, e := RunFrom(c, s, es[..|es| - 1]), es[|es| - 1];
      StoppingRun(c, s, es[..|es| - 1]);
      StoppingStep(c, before, e);
      AttendedNext(c, before, e);
    }
  }

  /** Stop ends the worker. From any reachable state with stop signalled, whatever happens
      short of a new start, the worker takes at most five more steps of its own, and
      until it has ended one of them is always possible. */
  lemma StopLeadsToFinalDrain(c: Config, es: seq<Event>, more: seq<Event>)
    requires Run(c, es).stop && forall i :: 0 <= i < |more| ==> !more[i].Start?
    ensures var s, s' := Run(c, es), RunFrom(c, Run(c, es), more);
            && Moves(c, s, more) + Left(s'.worker) <= Left(s.worker) <= 5
            && (!s'.worker.NotRunning? ==> s'.stop && Left(Next(c, s', OwnStep(s'.worker)).0.worker) < Left(s'.worker))
  {
    NoLostWakeUp(c, es);
    StoppingRun(c, Run(c, es), more);
    var s' := RunFrom(c, Run(c, es), more);
    if !s'.worker.NotRunning? {
      StoppingCanMove(c, s');
    }
  }

  lemma TakeOne(
    buffers: map<PhaseKey, seq<Line>>, lastFlush: map<PhaseKey, real>, done: set<PhaseKey>, k: PhaseKey, now: real)
    requires k in buffers && k !in done
    ensures Emptied(buffers, done)[k] == buffers[k]
    ensures Emptied(buffers, done + {k}) == Emptied(buffers, done)[k := []]
    ensures Stamped(lastFlush, done + {k}, now) == Stamped(lastFlush, done, now)[k := now]
    ensures Taken(buffers, done + {k}) == Taken(buffers, done)[k := buffers[k]]
  {
  }

  // ---- the buffer object ---------------------------------------------------------------------

  class Buffer {
    const config: Config
    var buffers: map<PhaseKey, seq<Line>>
    var lastFlush: map<PhaseKey, real>
    var forced: set<PhaseKey>
    var wake: bool
    var stop: bool
    var worker: Worker

    function View(): State
      reads this
    {
      State(buffers, lastFlush, forced, wake, stop, worker)
    }

    constructor (config: Config)
      ensures View() == Init() && this.config == config
    {
      this.config := config;
      buffers, lastFlush, forced := map[], map[], {};
      wake, stop, worker := false, false, NotRunning;
    }

    /** The lock-held body of `append`; `reported` is what `on_drop` receives. */
    method Append(key: PhaseKey, line: Line, now: real) returns (reported: int)
      modifies this
      ensures (View(), Output(map[], reported)) == Next(config, old(View()), Event.Append(key, line, now))
    {
      var buf := if key in buffers then buffers[key] else [];
      buf := buf + [line];
      if key !in lastFlush {
        lastFlush := lastFlush[key := now];
      }
      reported := 0;
      if |buf| > config.cap {
        reported := |buf| - config.cap;
        buf := if reported < |buf| then buf[reported..] else [];
      }
      buffers := buffers[key := buf];
      if |buf| >= config.sizeThreshold {
        wake := true;
      }
    }

    method ForceFlush(key: PhaseKey)
      modifies this
      ensures View() == Next(config, old(View()), Event.ForceFlush(key)).0
    {
      forced := forced + {key};
      wake := true;
    }

    /** First loop of `_drain_once`: which buffers are due. */
    method CollectDue(now: real, stopping: bool) returns (due: set<PhaseKey>)
      ensures due == DueKeys(config, View(), now, stopping)
    {
      due := {};
      var rest := buffers.Keys;
      while rest != {}
        invariant rest <= buffers.Keys
        invariant due == set k | k in buffers.Keys - rest && Due(config, View(), k, now, stopping)
      {
        var k :| k in rest;
        rest := rest - {k};
        var buf := buffers[k];
        if buf != [] {
          var aged := now - (if k in lastFlush then lastFlush[k] else 0.0) >= config.timeThreshold;
          if stopping || aged || |buf| >= config.sizeThreshold || k in forced {
            due := due + {k};
          }
        }
      }
      assert buffers.Keys - rest == buffers.Keys;
    }

    /** Second loop of `_drain_once`: empty the due buffers into batches. */
    method TakeBatches(due: set<PhaseKey>, now: real) returns (batches: map<PhaseKey, seq<Line>>)
      requires due <= buffers.Keys
      modifies this`buffers, this`lastFlush
      ensures buffers == Emptied(old(buffers), due)
      ensures lastFlush == Stamped(old(lastFlush), due, now)
      ensures batches == Taken(old(buffers), due)
    {
      batches := map[];
      ghost var done: set<PhaseKey> := {};
      var rest := due;
      while rest != {}
        invariant rest <= due && done == due - rest
        invariant buffers == Emptied(old(buffers), done)
        invariant lastFlush == Stamped(old(lastFlush), done, now)
        invariant batches == Taken(old(buffers), done)
      {
        var k :| k in rest;
        TakeOne(old(buffers), old(lastFlush), done, k, now);
        rest := rest - {k};
        batches := batches[k := buffers[k]];
        buffers := buffers[k := []];
        lastFlush := lastFlush[k := now];
        done := done + {k};
      }
    }

    /** The lock-held half of `_drain_once`, on the worker's behalf. */
    method SnapshotLocked(now: real) returns (batches: map<PhaseKey, seq<Line>>)
      requires worker.Draining? || worker.LastDraining?
      modifies this
      ensures (View(), Output(batches, 0)) == Next(config, old(View()), Snapshot(now))
    {
      var stopping := worker.LastDraining? || worker.stopping;
      var due := CollectDue(now, stopping);
      batches := TakeBatches(due, now);
      forced := forced - due;
      worker := if worker.LastDraining? then LastFlushing else Flushing;
    }
  }
}
