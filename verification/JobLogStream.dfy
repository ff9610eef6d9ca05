/** Numbering of log lines and their wait behind the write queue. `append` numbers a
    line at once and then suspends only in the writer's `join()`: the buffer's lock is
    never held across a suspension, so a call that need not wait for the queue enters
    the buffer in one stretch, and a resumed one does so as soon as its turn comes. */
module JobLogStream {
  import opened JobModels
  import opened JobStore
  import W = JobDbWriter

  /** One `append` call: its place among all calls, the number it drew, and how many
      writes had been scheduled by then. */
  datatype Entry = Entry(call: nat, key: PhaseKey, lineNo: int, text: string, ticket: nat)

  datatype Stream = Stream(
    writer: W.Writer,
    counters: map<PhaseKey, int>,
    calls: nat,             // `append` calls so far
    joining: seq<Entry>,    // suspended in `join()`, in order of suspension
    released: seq<Entry>,   // woken from `join()`, still to be resumed, in that order
    buffered: seq<Entry>)   // in the buffer, in order of arrival

  datatype Event =
    | Writer(step: W.Event)
    | Append(key: PhaseKey, text: string)
    | Resume                // the event loop resumes the longest-woken call
    | ResetPhase(key: PhaseKey)
    | EvictJob(jobId: string)

  function Init(maxSize: int, db: Db): Stream {
    Stream(W.Init(maxSize, db), map[], 0, [], [], [])
  }

  function Counter(counters: map<PhaseKey, int>, k: PhaseKey): int {
    if k in counters then counters[k] else 0
  }

  /** `queue.join()` returns at once when no accepted write is unfinished. */
  predicate AllFinished(w: W.Writer) {
    w.queue == [] && w.stage.Idle?
  }

  function NewEntry(s: Stream, k: PhaseKey, text: string): Entry {
    Entry(s.calls, k, Counter(s.counters, k) + 1, text, |s.writer.scheduled|)
  }

  function Next(s: Stream, e: Event): Stream {
    match e
    case Writer(step) =>
      var w := W.Next(s.writer, step);
      // the last `task_done()` wakes every joiner
      if step.TaskDone? && AllFinished(w) then s.(writer := w, joining := [], released := s.released + s.joining)
      else s.(writer := w)
    case Append(k, text) =>
      var entry := NewEntry(s, k, text);
      var s' := s.(counters := s.counters[k := entry.lineNo], calls := s.calls + 1);
      if AllFinished(s.writer) then s'.(buffered := s.buffered + [entry]) else s'.(joining := s.joining + [entry])
    case Resume =>
      if s.released == [] then s else s.(released := s.released[1..], buffered := s.buffered + [s.released[0]])
    case ResetPhase(k) => s.(counters := s.counters[k := 0])
    case EvictJob(id) => s.(counters := Evicted(s.counters, id))
  }

  function Evicted(counters: map<PhaseKey, int>, id: string): map<PhaseKey, int> {
    map k | k in counters && k.0 != id :: counters[k]
  }

  function Run(s: Stream, es: seq<Event>): Stream {
    if es == [] then s else Next(Run(s, es[..|es| - 1]), es[|es| - 1])
  }

  lemma {:induction false} RunConcat(s: Stream, a: seq<Event>, b: seq<Event>)
    ensures Run(s, a + b) == Run(Run(s, a), b)
  {
    if b == [] {
      assert a + b == a;
    } else {
      RunConcat(s, a, b[..|b| - 1]);
      assert (a + b)[..|a + b| - 1] == a + b[..|b| - 1];
    }
  }

  lemma RunCons(s: Stream, e: Event, es: seq<Event>)
    ensures Run(s, [e] + es) == Run(Next(s, e), es)
  {
    assert [e][..0] == [];
    assert Run(s, [e]) == Next(Run(s, []), e);
    RunConcat(s, [e], es);
  }

  // ---- happens-before ----------------------------------------------------------

  /** Write `i` has left the queue for good: finished, well or badly, or never accepted. */
  ghost predicate Settled(w: W.Writer, i: nat) {
    i in W.Indices(w.finished) || i in w.dropped
  }

  ghost predicate Behind(w: W.Writer, entries: seq<Entry>) {
    forall a, i: nat :: 0 <= a < |entries| && i < entries[a].ticket ==> Settled(w, i)
  }

  ghost predicate Ordered(s: Stream) {
    && W.Accounted(s.writer)
    && Behind(s.writer, s.released) && Behind(s.writer, s.buffered)
    && (forall a :: 0 <= a < |s.joining| ==> s.joining[a].ticket <= |s.writer.scheduled|)
    && (AllFinished(s.writer) ==> s.joining == [])
  }

  lemma SettledMonotone(w: W.Writer, e: W.Event, i: nat)
    requires Settled(w, i)
    ensures Settled(W.Next(w, e), i)
  {
    var w' := W.Next(w, e);
    if i in W.Indices(w.finished) {
      var k :| 0 <= k < |w.finished| && w.finished[k].0 == i;
      assert w'.finished[k] == w.finished[k];
      assert W.Indices(w'.finished)[k] == i;
    }
  }

  lemma AllSettled(w: W.Writer, i: nat)
    requires W.Accounted(w) && AllFinished(w) && i < |w.scheduled|
    ensures Settled(w, i)
  {
    assert W.Accepted(w) == W.Indices(w.finished);
  }

  lemma BehindMonotone(w: W.Writer, e: W.Event, entries: seq<Entry>)
    requires Behind(w, entries)
    ensures Behind(W.Next(w, e), entries)
  {
    forall a, i: nat | 0 <= a < |entries| && i < entries[a].ticket ensures Settled(W.Next(w, e), i) {
      SettledMonotone(w, e, i);
    }
  }

  lemma ScheduledMonotone(w: W.Writer, e: W.Event)
    ensures |w.scheduled| <= |W.Next(w, e).scheduled|
  {
  }

  lemma Releasable(w: W.Writer, entries: seq<Entry>)
    requires W.Accounted(w) && AllFinished(w)
    requires forall a :: 0 <= a < |entries| ==> entries[a].ticket <= |w.scheduled|
    ensures Behind(w, entries)
  {
    forall a, i: nat | 0 <= a < |entries| && i < entries[a].ticket ensures Settled(w, i) {
      AllSettled(w, i);
    }
  }

  lemma BehindConcat(w: W.Writer, a: seq<Entry>, b: seq<Entry>)
    requires Behind(w, a) && Behind(w, b)
    ensures Behind(w, a + b)
  {
  }

  lemma BehindSub(w: W.Writer, a: seq<Entry>, b: seq<Entry>)
    requires Behind(w, b) && forall x :: x in a ==> x in b
    ensures Behind(w, a)
  {
    forall i, n: nat | 0 <= i < |a| && n < a[i].ticket ensures Settled(w, n) {
      assert a[i] in b;
      var j :| 0 <= j < |b| && b[j] == a[i];
    }
  }

  lemma OrderedNext(s: Stream, e: Event)
    requires Ordered(s)
    ensures Ordered(Next(s, e))
  {
    var w := s.writer;
    match e
    case Writer(step) =>
      var w' := W.Next(w, step);
      W.AccountedNext(w, step);
      BehindMonotone(w, step, s.released);
      BehindMonotone(w, step, s.buffered);
      ScheduledMonotone(w, step);
      if step.TaskDone? && AllFinished(w') {
        Releasable(w', s.joining);
        BehindConcat(w', s.released, s.joining);
      }
    case Append(k, text) =>
      if AllFinished(w) {
        Releasable(w, [NewEntry(s, k, text)]);
        BehindConcat(w, s.buffered, [NewEntry(s, k, text)]);
      }
    case Resume =>
      if s.released != [] {
        BehindSub(w, s.released[1..], s.released);
        BehindSub(w, [s.released[0]], s.released);
        BehindConcat(w, s.buffered, [s.released[0]]);
      }
    case ResetPhase(_) =>
    case EvictJob(_) =>
  }

  lemma {:induction false} RunOrdered(maxSize: int, db: Db, es: seq<Event>)
    ensures Ordered(Run(Init(maxSize, db), es))
  {
    if es == [] {
      W.AccountedInit(maxSize, db);
    } else {
      RunOrdered(maxSize, db, es[..|es| - 1]);
      OrderedNext(Run(Init(maxSize, db), es[..|es| - 1]), es[|es| - 1]);
    }
  }

  /** Happens-before. In every run, a line in the buffer got there only after every
      write scheduled before its `append` call had been settled. */
  lemma LinesFollowWrites(maxSize: int, db: Db, es: seq<Event>, a: nat, i: nat)
    requires var s := Run(Init(maxSize, db), es); a < |s.buffered| && i < s.buffered[a].ticket
    ensures Settled(Run(Init(maxSize, db), es).writer, i)
  {
    RunOrdered(maxSize, db, es);
  }

  lemma SoundStep(db: Db, s: Stream, e: Event)
    requires W.Sound(db, s.writer)
    ensures W.Sound(db, Next(s, e).writer)
  {
    if e.Writer? { W.SoundNext(db, s.writer, e.step); }
  }

  lemma {:induction false} RunSound(maxSize: int, db: Db, es: seq<Event>)
    ensures W.Sound(db, Run(Init(maxSize, db), es).writer)
  {
    if es == [] {
      W.SoundInit(maxSize, db);
    } else {
      var s := Run(Init(maxSize, db), es[..|es| - 1]);
      RunSound(maxSize, db, es[..|es| - 1]);
      SoundStep(db, s, es[|es| - 1]);
    }
  }

  /** The write was dropped by the queue, or its statement raised. */
  ghost predicate Lost(w: W.Writer, i: nat) {
    i in w.dropped || (i, false) in w.finished
  }

  lemma SettledRan(w: W.Writer, i: nat)
    requires Settled(w, i) && !Lost(w, i)
    ensures i in W.Executed(w)
  {
    var k :| 0 <= k < |w.finished| && w.finished[k].0 == i;
    assert w.finished[k] == (i, w.finished[k].1);
    W.FinishedWell(w.finished, k);
  }

  /** What the wait is for: a log row refers to its job's row. In every run, in every state
      from the arrival of a line in the buffer on, the line's job has a row, provided an
      insertion of the job was scheduled before the `append` call and was not lost. */
  lemma LinesHaveJobRow(maxSize: int, db: Db, es: seq<Event>, a: nat, i: nat)
    requires var s := Run(Init(maxSize, db), es);
             && a < |s.buffered| && i < s.buffered[a].ticket
             && i < |s.writer.scheduled| && s.writer.scheduled[i].InsertJob?
             && s.writer.scheduled[i].jobId == s.buffered[a].key.0
             && !Lost(s.writer, i)
    ensures var s := Run(Init(maxSize, db), es); s.buffered[a].key.0 in s.writer.db.jobs
  {
    var s := Run(Init(maxSize, db), es);
    LinesFollowWrites(maxSize, db, es, a, i);
    SettledRan(s.writer, i);
    RunSound(maxSize, db, es);
    W.JobRowIff(db, s.writer, s.buffered[a].key.0);
    assert W.Inserted(s.writer, i, s.buffered[a].key.0);
  }

  // ---- numbering -------------------------------------------------------------------

  predicate Resets(e: Event, k: PhaseKey) {
    (e.ResetPhase? && e.key == k) || (e.EvictJob? && e.jobId == k.0)
  }

  predicate Appends(e: Event, k: PhaseKey) {
    e.Append? && e.key == k
  }

  /** Numbers drawn for the key since its counter was last reset or evicted. */
  function Numbers(s: Stream, es: seq<Event>, k: PhaseKey): seq<int> {
    if es == [] then []
    else
      var init, e := es[..|es| - 1], es[|es| - 1];
      if Resets(e, k) then []
      else if Appends(e, k) then Numbers(s, init, k) + [Counter(Run(s, init).counters, k) + 1]
      else Numbers(s, init, k)
  }

  /** Between resets the numbers drawn are 1, 2, 3, ... in call order, hence unique. */
  lemma {:induction false} NumbersConsecutive(maxSize: int, db: Db, es: seq<Event>, k: PhaseKey)
    ensures var ns := Numbers(Init(maxSize, db), es, k);
            && |ns| == Counter(Run(Init(maxSize, db), es).counters, k)
            && forall i :: 0 <= i < |ns| ==> ns[i] == i + 1
  {
    if es != [] {
      NumbersConsecutive(maxSize, db, es[..|es| - 1], k);
    }
  }

  // ---- the stream object ---------------------------------------------------------------

  class LogStream {
    var counters: map<PhaseKey, int>
    var bound: bool              // a buffer has been bound
    var flushes: seq<PhaseKey>   // `force_flush` tasks started so far

    constructor ()
      ensures counters == map[] && !bound && flushes == []
    {
      counters, bound, flushes := map[], false, [];
    }

    method BindBuffer()
      modifies this`bound
      ensures bound
    {
      bound := true;
    }

    /** Fire and forget: nothing without a buffer or a running loop. */
    method ForceFlushPhase(k: PhaseKey, loopRunning: bool)
      modifies this`flushes
      ensures flushes == old(flushes) + if bound && loopRunning then [k] else []
    {
      if !bound {
        return;
      }
      if loopRunning {
        flushes := flushes + [k];
      }
    }

    method ResetPhaseCounter(k: PhaseKey)
      modifies this`counters
      ensures counters == old(counters)[k := 0]
    {
      counters := counters[k := 0];
    }

    /** The part of `append` before its first suspension. */
    method Number(k: PhaseKey) returns (lineNo: int)
      modifies this`counters
      ensures lineNo == Counter(old(counters), k) + 1 && counters == old(counters)[k := lineNo]
    {
      counters := counters[k := Counter(counters, k) + 1];
      lineNo := counters[k];
    }

    method EvictJobCounters(jobId: string)
      modifies this`counters
      ensures counters == Evicted(old(counters), jobId)
    {
      var rest := set k | k in counters && k.0 == jobId;
      while rest != {}
        invariant rest == set k | k in counters && k.0 == jobId
        invariant forall k: PhaseKey :: k.0 != jobId ==> (k in counters <==> k in old(counters))
        invariant forall k :: k in counters ==> k in old(counters) && counters[k] == old(counters)[k]
      {
        var k :| k in rest;
        rest, counters := rest - {k}, counters - {k};
      }
      assert counters == Evicted(old(counters), jobId) by {
        forall k | k in counters ensures k.0 != jobId {
          assert k.0 == jobId ==> k in rest;
        }
      }
    }
  }
}
