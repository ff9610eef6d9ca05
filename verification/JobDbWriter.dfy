/** The write-behind queue: one bounded FIFO with one worker on one event loop.
    A write is named by its position in the order of `schedule` calls. */
module JobDbWriter {
  import opened Prelude
  import opened JobStore

  datatype Stage =
    | Idle                         // waiting in `q.get()`
    | Running(i: nat)              // awaiting the statement
    | Committed(i: nat, ok: bool)  // statement returned or raised; `task_done()` still to run

  datatype Writer = Writer(
    maxSize: int,
    scheduled: seq<Write>,         // every `schedule` call so far
    queue: seq<nat>,
    stage: Stage,
    finished: seq<(nat, bool)>,    // `task_done()` ran; true when the statement succeeded
    dropped: seq<nat>,             // queue full, or no running loop
    db: Db)

  datatype Event =
    | Schedule(write: Write, loopRunning: bool)
    | Get
    | Commit(up: bool)             // `up` is false when the database fails for its own reasons
    | TaskDone

  /** asyncio treats a non-positive bound as unbounded. */
  predicate Full(maxSize: int, size: nat) {
    maxSize > 0 && size >= maxSize
  }

  function Init(maxSize: int, db: Db): Writer {
    Writer(maxSize, [], [], Idle, [], [], db)
  }

  function Next(w: Writer, e: Event): Writer {
    match e
    case Schedule(write, loopRunning) =>
      var w' := w.(scheduled := w.scheduled + [write]);
      if !loopRunning || Full(w.maxSize, |w.queue|) then w'.(dropped := w.dropped + [|w.scheduled|])
      else w'.(queue := w.queue + [|w.scheduled|])
    case Get =>
      if w.stage.Idle? && w.queue != [] then w.(stage := Running(w.queue[0]), queue := w.queue[1..]) else w
    case Commit(up) =>
      if w.stage.Running? && w.stage.i < |w.scheduled| then
        var ok := up && !Refused(w.db, w.scheduled[w.stage.i]);
        w.(stage := Committed(w.stage.i, ok), db := if ok then Apply(w.db, w.scheduled[w.stage.i]) else w.db)
      else w
    case TaskDone =>
      if w.stage.Committed? then w.(stage := Idle, finished := w.finished + [(w.stage.i, w.stage.ok)]) else w
  }

  function Run(w: Writer, es: seq<Event>): Writer {
    if es == [] then w else Next(Run(w, es[..|es| - 1]), es[|es| - 1])
  }

  // ---- accounting ------------------------------------------------------------

  ghost predicate Increasing(xs: seq<nat>) {
    forall i, j :: 0 <= i < j < |xs| ==> xs[i] < xs[j]
  }

  ghost predicate Below(xs: seq<nat>, n: nat) {
    forall k :: 0 <= k < |xs| ==> xs[k] < n
  }

  /** `idx` is the run of positions from `lo` up to `lo + |idx|`. */
  ghost predicate Consecutive(idx: seq<nat>, lo: nat) {
    forall k :: 0 <= k < |idx| ==> idx[k] == lo + k
  }

  lemma IncreasingSnoc(xs: seq<nat>, x: nat)
    requires Increasing(xs) && Below(xs, x)
    ensures Increasing(xs + [x])
  {
  }

  function Indices(finished: seq<(nat, bool)>): (r: seq<nat>)
    ensures |r| == |finished|
    ensures forall k :: 0 <= k < |r| ==> r[k] == finished[k].0
  {
    seq(|finished|, k requires 0 <= k < |finished| => finished[k].0)
  }

  function InFlight(w: Writer): seq<nat> {
    if w.stage.Idle? then [] else [w.stage.i]
  }

  /** Accepted writes: finished, then in flight, then queued. */
  function Accepted(w: Writer): seq<nat> {
    Indices(w.finished) + InFlight(w) + w.queue
  }

  /** Positions whose statement succeeded, in the order they ran. */
  function Succeeded(finished: seq<(nat, bool)>): seq<nat> {
    if finished == [] then []
    else
      var rest := Succeeded(finished[..|finished| - 1]);
      if finished[|finished| - 1].1 then rest + [finished[|finished| - 1].0] else rest
  }

  function Executed(w: Writer): seq<nat> {
    Succeeded(w.finished) + if w.stage.Committed? && w.stage.ok then [w.stage.i] else []
  }

  ghost predicate Accounted(w: Writer) {
    && Increasing(Accepted(w))
    && Increasing(w.dropped)
    && (forall i: nat :: i < |w.scheduled| <==> i in Accepted(w) || i in w.dropped)
    && (forall i :: i in Accepted(w) ==> i !in w.dropped)
    && (w.dropped == [] ==> |Accepted(w)| == |w.scheduled| && Consecutive(Accepted(w), 0))
  }

  lemma AccountedInit(maxSize: int, db: Db)
    ensures Accounted(Init(maxSize, db))
  {
    assert Accepted(Init(maxSize, db)) == [];
  }

  lemma AllBelow(xs: seq<nat>, n: nat)
    requires forall i :: i in xs ==> i < n
    ensures Below(xs, n)
  {
    forall k | 0 <= k < |xs| ensures xs[k] < n { assert xs[k] in xs; }
  }

  lemma InSnoc(xs: seq<nat>, x: nat)
    ensures forall i :: i in xs + [x] <==> i in xs || i == x
  {
  }

  lemma AccountedSchedule(w: Writer, e: Event)
    requires Accounted(w) && e.Schedule?
    ensures Accounted(Next(w, e))
  {
    var w', n, a, d := Next(w, e), |w.scheduled|, Accepted(w), w.dropped;
    AllBelow(a, n);
    AllBelow(d, n);
    if !e.loopRunning || Full(w.maxSize, |w.queue|) {
      IncreasingSnoc(d, n);
      InSnoc(d, n);
      assert Accepted(w') == a && w'.dropped == d + [n];
    } else {
      IncreasingSnoc(a, n);
      InSnoc(a, n);
      assert Accepted(w') == a + [n] && w'.dropped == d;
    }
  }

  lemma AccountedNext(w: Writer, e: Event)
    requires Accounted(w)
    ensures Accounted(Next(w, e))
  {
    if e.Schedule? {
      AccountedSchedule(w, e);
    } else {
      assert Accepted(Next(w, e)) == Accepted(w);
    }
  }

  lemma {:induction false} RunAccounted(maxSize: int, db: Db, es: seq<Event>)
    ensures Accounted(Run(Init(maxSize, db), es))
  {
    if es == [] {
      AccountedInit(maxSize, db);
    } else {
      RunAccounted(maxSize, db, es[..|es| - 1]);
      AccountedNext(Run(Init(maxSize, db), es[..|es| - 1]), es[|es| - 1]);
    }
  }

  /** The bound. In every run a positive bound is never exceeded, and the next write is lost
      if and only if no loop is running or the queue holds as many as the bound. */
  lemma {:induction false} QueueBounded(maxSize: int, db: Db, es: seq<Event>, write: Write, loopRunning: bool)
    ensures var w := Run(Init(maxSize, db), es);
            var w' := Next(w, Schedule(write, loopRunning));
            && w.maxSize == maxSize && (maxSize > 0 ==> |w.queue| <= maxSize)
            && (|w'.dropped| > |w.dropped| <==> !loopRunning || (maxSize > 0 && |w.queue| == maxSize))
            && (|w'.queue| > |w.queue| <==> loopRunning && (maxSize > 0 ==> |w.queue| < maxSize))
  {
    if es != [] {
      QueueBounded(maxSize, db, es[..|es| - 1], write, loopRunning);
    }
  }

  datatype Fate = Queued | Flying | Ok | Raised | Lost

  ghost predicate HasFate(w: Writer, i: nat, f: Fate) {
    match f
    case Queued => i in w.queue
    case Flying => i in InFlight(w)
    case Ok => (i, true) in w.finished
    case Raised => (i, false) in w.finished
    case Lost => i in w.dropped
  }

  /** The fate of the write at position `k` of the accepted order. */
  function Region(w: Writer, k: nat): Fate
    requires k < |Accepted(w)|
  {
    if k < |w.finished| then (if w.finished[k].1 then Ok else Raised)
    else if k < |w.finished| + |InFlight(w)| then Flying
    else Queued
  }

  lemma RegionHolds(w: Writer, k: nat)
    requires k < |Accepted(w)|
    ensures HasFate(w, Accepted(w)[k], Region(w, k))
  {
    if k < |w.finished| {
      assert w.finished[k] == (Accepted(w)[k], w.finished[k].1);
    }
  }

  lemma RegionOf(w: Writer, i: nat, f: Fate) returns (k: nat)
    requires HasFate(w, i, f) && f != Lost
    ensures k < |Accepted(w)| && Accepted(w)[k] == i && Region(w, k) == f
  {
    match f
    case Queued =>
      var q :| 0 <= q < |w.queue| && w.queue[q] == i;
      k := |w.finished| + |InFlight(w)| + q;
    case Flying =>
      k := |w.finished|;
    case Ok =>
      k :| 0 <= k < |w.finished| && w.finished[k] == (i, true);
    case Raised =>
      k :| 0 <= k < |w.finished| && w.finished[k] == (i, false);
  }

  lemma FateUnique(w: Writer, i: nat, f: Fate, g: Fate)
    requires Accounted(w) && HasFate(w, i, f) && HasFate(w, i, g)
    ensures f == g
  {
    if f != Lost && g != Lost {
      var a := RegionOf(w, i, f);
      var b := RegionOf(w, i, g);
    } else if f != Lost {
      var _ := RegionOf(w, i, f);
    } else if g != Lost {
      var _ := RegionOf(w, i, g);
    }
  }

  /** In every run each scheduled write has exactly one fate, and nothing else has any. */
  lemma OneFate(maxSize: int, db: Db, es: seq<Event>, i: nat)
    ensures var w := Run(Init(maxSize, db), es);
            && (i < |w.scheduled| <==> exists f :: HasFate(w, i, f))
            && (forall f, g :: HasFate(w, i, f) && HasFate(w, i, g) ==> f == g)
  {
    RunAccounted(maxSize, db, es);
    var w := Run(Init(maxSize, db), es);
    if i in w.dropped {
      assert HasFate(w, i, Lost);
    } else if i in Accepted(w) {
      var k :| 0 <= k < |Accepted(w)| && Accepted(w)[k] == i;
      RegionHolds(w, k);
    }
    forall f | HasFate(w, i, f) ensures i < |w.scheduled| {
      if f != Lost { var k := RegionOf(w, i, f); }
    }
    forall f, g | HasFate(w, i, f) && HasFate(w, i, g) ensures f == g {
      FateUnique(w, i, f, g);
    }
  }

  // ---- the rows are the successful writes, replayed in schedule order ----------

  function Pick(ws: seq<Write>, idx: seq<nat>): seq<Write>
    requires Below(idx, |ws|)
  {
    seq(|idx|, k requires 0 <= k < |idx| => ws[idx[k]])
  }

  lemma {:induction false} SucceededWithin(finished: seq<(nat, bool)>)
    ensures forall i :: i in Succeeded(finished) ==> i in Indices(finished)
    ensures (forall k :: 0 <= k < |finished| ==> finished[k].1) ==> Succeeded(finished) == Indices(finished)
  {
    if finished != [] {
      var init, last := finished[..|finished| - 1], finished[|finished| - 1];
      SucceededWithin(init);
      assert Indices(finished) == Indices(init) + [last.0];
    }
  }

  lemma {:induction false} SucceededIncreasing(finished: seq<(nat, bool)>)
    requires Increasing(Indices(finished))
    ensures Increasing(Succeeded(finished))
  {
    if finished != [] {
      var init, last := finished[..|finished| - 1], finished[|finished| - 1];
      var all, a, r := Indices(finished), Indices(init), Succeeded(init);
      assert all == a + [last.0];
      assert forall k :: 0 <= k < |a| ==> a[k] == all[k];
      SucceededIncreasing(init);
      SucceededWithin(init);
      forall i | i in r ensures i < last.0 {
        var m :| 0 <= m < |a| && a[m] == i;
        assert all[m] < all[|a|];
      }
      AllBelow(r, last.0);
      IncreasingSnoc(r, last.0);
    }
  }

  lemma ExecutedIncreasing(w: Writer)
    requires Accounted(w)
    ensures Increasing(Executed(w))
  {
    SucceededWithin(w.finished);
    var fin, good := Indices(w.finished), Succeeded(w.finished);
    assert forall k :: 0 <= k < |fin| ==> fin[k] == Accepted(w)[k];
    SucceededIncreasing(w.finished);
    if !w.stage.Idle? {
      assert Accepted(w)[|fin|] == w.stage.i;
      forall k | 0 <= k < |good| ensures good[k] < w.stage.i {
        assert good[k] in good;
        var m :| 0 <= m < |fin| && fin[m] == good[k];
      }
      IncreasingSnoc(good, w.stage.i);
    }
    assert Executed(w) == good || (!w.stage.Idle? && Executed(w) == good + [w.stage.i]);
  }

  ghost predicate RowsAreReplay(db0: Db, w: Writer) {
    && Below(Executed(w), |w.scheduled|)
    && w.db == Replay(db0, Pick(w.scheduled, Executed(w)))
  }

  lemma TaskDoneKeeps(w: Writer)
    requires w.stage.Committed?
    ensures Executed(Next(w, TaskDone)) == Executed(w)
  {
    assert Next(w, TaskDone).finished[..|w.finished|] == w.finished;
  }

  lemma PickSnoc(ws: seq<Write>, idx: seq<nat>, i: nat)
    requires Below(idx, |ws|) && i < |ws|
    ensures Pick(ws, idx + [i]) == Pick(ws, idx) + [ws[i]]
  {
  }

  lemma PickExtended(ws: seq<Write>, idx: seq<nat>, w: Write)
    requires Below(idx, |ws|)
    ensures Pick(ws + [w], idx) == Pick(ws, idx)
  {
  }

  lemma ReplaySnoc(db: Db, ws: seq<Write>, w: Write)
    ensures Replay(db, ws + [w]) == Apply(Replay(db, ws), w)
  {
    assert (ws + [w])[..|ws + [w]| - 1] == ws;
  }

  lemma RowsSchedule(db0: Db, w: Writer, write: Write, loopRunning: bool)
    requires RowsAreReplay(db0, w)
    ensures RowsAreReplay(db0, Next(w, Schedule(write, loopRunning)))
  {
    PickExtended(w.scheduled, Executed(w), write);
    var w' := Next(w, Schedule(write, loopRunning));
    assert w'.scheduled == w.scheduled + [write] && Executed(w') == Executed(w);
  }

  lemma ReplayPickSnoc(db: Db, ws: seq<Write>, idx: seq<nat>, i: nat)
    requires Below(idx, |ws|) && i < |ws|
    ensures Below(idx + [i], |ws|) && Replay(db, Pick(ws, idx + [i])) == Apply(Replay(db, Pick(ws, idx)), ws[i])
  {
    PickSnoc(ws, idx, i);
    ReplaySnoc(db, Pick(ws, idx), ws[i]);
  }

  lemma RowsCommit(db0: Db, w: Writer, up: bool)
    requires RowsAreReplay(db0, w) && w.stage.Running? && w.stage.i < |w.scheduled|
    ensures RowsAreReplay(db0, Next(w, Commit(up)))
  {
    var w', i, idx := Next(w, Commit(up)), w.stage.i, Executed(w);
    assert w'.scheduled == w.scheduled && w'.finished == w.finished && w'.stage.Committed? && w'.stage.i == i;
    if w'.stage.ok {
      ReplayPickSnoc(db0, w.scheduled, idx, i);
      assert Executed(w') == idx + [i];
    } else {
      assert Executed(w') == idx;
    }
  }

  lemma RowsNext(db0: Db, w: Writer, e: Event)
    requires RowsAreReplay(db0, w)
    ensures RowsAreReplay(db0, Next(w, e))
  {
    match e
    case Schedule(write, loopRunning) => RowsSchedule(db0, w, write, loopRunning);
    case Get => assert Executed(Next(w, Get)) == Executed(w);
    case Commit(up) => if w.stage.Running? && w.stage.i < |w.scheduled| { RowsCommit(db0, w, up); }
    case TaskDone => if w.stage.Committed? { TaskDoneKeeps(w); }
  }

  /** Accounting and rows together, the invariant of every step. */
  ghost predicate Sound(db0: Db, w: Writer) {
    Accounted(w) && RowsAreReplay(db0, w)
  }

  lemma SoundInit(maxSize: int, db0: Db)
    ensures Sound(db0, Init(maxSize, db0))
  {
    AccountedInit(maxSize, db0);
    assert Executed(Init(maxSize, db0)) == [];
  }

  lemma SoundNext(db0: Db, w: Writer, e: Event)
    requires Sound(db0, w)
    ensures Sound(db0, Next(w, e))
  {
    AccountedNext(w, e);
    RowsNext(db0, w, e);
  }

  /** In every run the stored rows are exactly the initial rows with the
      successful writes applied in the order they were scheduled. */
  lemma {:induction false} RunRows(maxSize: int, db0: Db, es: seq<Event>)
    ensures var w := Run(Init(maxSize, db0), es);
            RowsAreReplay(db0, w) && Increasing(Executed(w))
  {
    RunAccounted(maxSize, db0, es);
    ExecutedIncreasing(Run(Init(maxSize, db0), es));
    if es != [] {
      var init := es[..|es| - 1];
      RunAccounted(maxSize, db0, init);
      RunRows(maxSize, db0, init);
      RowsNext(db0, Run(Init(maxSize, db0), init), es[|es| - 1]);
    }
  }

  // ---- runs that lose nothing ---------------------------------------------------

  predicate Lossless(w: Writer) {
    && w.dropped == []
    && (forall k :: 0 <= k < |w.finished| ==> w.finished[k].1)
    && (w.stage.Committed? ==> w.stage.ok)
  }

  /** Writes not yet known to have finished: the one in flight, then the queue. */
  function Outstanding(w: Writer): seq<Write>
    requires Below(InFlight(w) + w.queue, |w.scheduled|)
  {
    Pick(w.scheduled, InFlight(w) + w.queue)
  }

  lemma PickConsecutive(ws: seq<Write>, idx: seq<nat>, lo: nat)
    requires Consecutive(idx, lo) && lo + |idx| <= |ws|
    ensures Below(idx, |ws|) && Pick(ws, idx) == ws[lo..lo + |idx|]
  {
  }

  lemma ConsecutiveParts(a: seq<nat>, b: seq<nat>)
    requires Consecutive(a + b, 0)
    ensures Consecutive(a, 0) && Consecutive(b, |a|)
  {
    assert forall k :: 0 <= k < |a| ==> a[k] == (a + b)[k];
    assert forall k :: 0 <= k < |b| ==> b[k] == (a + b)[|a| + k];
  }

  lemma LosslessOrder(w: Writer)
    requires Accounted(w) && Lossless(w)
    ensures |w.finished| + |InFlight(w)| + |w.queue| == |w.scheduled|
    ensures Consecutive(InFlight(w) + w.queue, |w.finished|)
    ensures Consecutive(Executed(w), 0)
    ensures |Executed(w)| == |w.finished| + if w.stage.Committed? then 1 else 0
  {
    var fin, rest := Indices(w.finished), InFlight(w) + w.queue;
    assert Accepted(w) == fin + rest;
    ConsecutiveParts(fin, rest);
    SucceededWithin(w.finished);
    assert Succeeded(w.finished) == fin;
    if w.stage.Committed? { assert w.stage.i == rest[0]; }
  }

  /** Without losses, applying the outstanding writes to the current rows is the
      same as applying everything ever scheduled to the initial rows. This holds
      even while the write in flight has committed but not been acknowledged. */
  lemma OutstandingCompletes(db0: Db, w: Writer)
    requires Sound(db0, w) && Lossless(w)
    ensures Below(InFlight(w) + w.queue, |w.scheduled|)
    ensures Replay(w.db, Outstanding(w)) == Replay(db0, w.scheduled)
  {
    LosslessOrder(w);
    PickConsecutive(w.scheduled, InFlight(w) + w.queue, |w.finished|);
    PickConsecutive(w.scheduled, Executed(w), 0);
    ReplayRest(db0, w.scheduled, |w.finished|, |Executed(w)|);
  }

  lemma ReplayRest(db0: Db, all: seq<Write>, f: nat, ran: nat)
    requires f <= ran <= |all| && ran <= f + 1
    ensures Replay(Replay(db0, all[0..ran]), all[f..|all|]) == Replay(db0, all)
  {
    assert all[0..ran] == all[..ran] && all[f..|all|] == all[f..];
    if ran == f {
      ReplayConcat(db0, all[..f], all[f..]);
      assert all == all[..f] + all[f..];
    } else {
      CommittedTwice(db0, all, f);
    }
  }

  /** Replaying from a write that is already in the rows changes nothing. */
  lemma CommittedTwice(db0: Db, all: seq<Write>, f: nat)
    requires f < |all|
    ensures Replay(Replay(db0, all[..f + 1]), all[f..]) == Replay(db0, all)
  {
    var before, after := Replay(db0, all[..f]), Replay(db0, all[..f + 1]);
    assert all[..f + 1][..f] == all[..f];
    ApplyIdempotent(before, all[f]);
    assert all[f..] == [all[f]] + all[f + 1..];
    ReplayConcat(after, [all[f]], all[f + 1..]);
    ReplayOne(after, all[f]);
    ReplayConcat(db0, all[..f + 1], all[f + 1..]);
    assert all == all[..f + 1] + all[f + 1..];
  }

  lemma ReplayOne(db: Db, w: Write)
    ensures Replay(db, [w]) == Apply(db, w)
  {
    assert [w][..0] == [];
    assert Replay(db, [w]) == Apply(Replay(db, [w][..0]), w);
  }

  // ---- one job, whatever was lost elsewhere -----------------------------------------

  /** Write `i` is about the job. */
  predicate About(w: Writer, i: nat, id: string) {
    i < |w.scheduled| && w.scheduled[i].jobId == id
  }

  /** No write about the job was dropped, and none raised. */
  predicate Unharmed(w: Writer, id: string) {
    && (forall k :: 0 <= k < |w.dropped| ==> !About(w, w.dropped[k], id))
    && (forall k :: 0 <= k < |w.finished| && !w.finished[k].1 ==> !About(w, w.finished[k].0, id))
    && (w.stage.Committed? && !w.stage.ok ==> !About(w, w.stage.i, id))
  }

  /** Every write about the job is in the rows. */
  ghost predicate AllExecuted(w: Writer, id: string) {
    forall i :: About(w, i, id) ==> i in Executed(w)
  }

  /** Writes in the rows or on their way there; one just committed counts once. */
  function Due(w: Writer): seq<nat> {
    Succeeded(w.finished) + InFlight(w) + w.queue
  }

  lemma PickConcat(ws: seq<Write>, a: seq<nat>, b: seq<nat>)
    requires Below(a + b, |ws|)
    ensures Below(a, |ws|) && Below(b, |ws|) && Pick(ws, a + b) == Pick(ws, a) + Pick(ws, b)
  {
    assert forall k :: 0 <= k < |a| ==> a[k] == (a + b)[k];
    assert forall k :: 0 <= k < |b| ==> b[k] == (a + b)[|a| + k];
  }

  lemma IncreasingConcat(a: seq<nat>, b: seq<nat>)
    requires Increasing(a) && Increasing(b) && forall x, y :: x in a && y in b ==> x < y
    ensures Increasing(a + b)
  {
    forall i, j | 0 <= i < j < |a + b| ensures (a + b)[i] < (a + b)[j] {
      if i < |a| <= j { assert a[i] in a && b[j - |a|] in b; }
    }
  }

  lemma IncreasingParts(a: seq<nat>, b: seq<nat>)
    requires Increasing(a + b)
    ensures Increasing(a) && Increasing(b) && forall x, y :: x in a && y in b ==> x < y
  {
    assert forall k :: 0 <= k < |a| ==> a[k] == (a + b)[k];
    assert forall k :: 0 <= k < |b| ==> b[k] == (a + b)[|a| + k];
  }

  lemma DueOrder(w: Writer)
    requires Accounted(w)
    ensures Increasing(Due(w)) && Below(Due(w), |w.scheduled|)
  {
    var fin, rest, good := Indices(w.finished), InFlight(w) + w.queue, Succeeded(w.finished);
    assert Accepted(w) == fin + rest && Due(w) == good + rest;
    IncreasingParts(fin, rest);
    SucceededWithin(w.finished);
    SucceededIncreasing(w.finished);
    IncreasingConcat(good, rest);
    forall i | i in Due(w) ensures i < |w.scheduled| { assert i in Accepted(w); }
    AllBelow(Due(w), |w.scheduled|);
  }

  /** Replaying a write over itself, then more, is replaying it once, then more. */
  lemma ReplayTwice(db: Db, w: Write, more: seq<Write>)
    ensures Replay(Apply(db, w), [w] + more) == Replay(db, [w] + more)
  {
    ApplyIdempotent(db, w);
    ReplayConcat(Apply(db, w), [w], more);
    ReplayOne(Apply(db, w), w);
    ReplayConcat(db, [w], more);
    ReplayOne(db, w);
  }

  lemma ExecutedParts(w: Writer)
    ensures if w.stage.Committed? && w.stage.ok then
              Executed(w) == Succeeded(w.finished) + [w.stage.i] && InFlight(w) + w.queue == [w.stage.i] + w.queue
            else Executed(w) == Succeeded(w.finished)
  {
  }

  lemma ReplayOverlap(db0: Db, ws: seq<Write>, good: seq<nat>, i: nat, queue: seq<nat>)
    requires Below(good + [i] + queue, |ws|)
    ensures Below(good + [i], |ws|) && Below([i] + queue, |ws|) && Below(good + ([i] + queue), |ws|)
    ensures Replay(Replay(db0, Pick(ws, good + [i])), Pick(ws, [i] + queue)) ==
        Replay(db0, Pick(ws, good + ([i] + queue)))
  {
    assert good + [i] + queue == good + ([i] + queue);
    PickConcat(ws, good, [i] + queue);
    PickConcat(ws, [i], queue);
    PickConcat(ws, good + [i], queue);
    assert (good + [i])[|good|] == i;
    PickSnoc(ws, good, i);
    ReplaySnoc(db0, Pick(ws, good), ws[i]);
    assert Pick(ws, [i]) == [ws[i]];
    ReplayTwice(Replay(db0, Pick(ws, good)), ws[i], Pick(ws, queue));
    ReplayConcat(db0, Pick(ws, good), [ws[i]] + Pick(ws, queue));
  }

  /** The rows with the outstanding writes applied, whatever has been lost. */
  lemma OutstandingReplay(db0: Db, w: Writer)
    requires Sound(db0, w)
    ensures Below(Due(w), |w.scheduled|) && Below(InFlight(w) + w.queue, |w.scheduled|)
    ensures Replay(w.db, Outstanding(w)) == Replay(db0, Pick(w.scheduled, Due(w)))
  {
    var ws, good, rest := w.scheduled, Succeeded(w.finished), InFlight(w) + w.queue;
    DueOrder(w);
    assert Due(w) == good + rest;
    PickConcat(ws, good, rest);
    ExecutedParts(w);
    if w.stage.Committed? && w.stage.ok {
      assert Due(w) == good + [w.stage.i] + w.queue;
      ReplayOverlap(db0, ws, good, w.stage.i, w.queue);
    } else {
      ReplayConcat(db0, Pick(ws, good), Pick(ws, rest));
    }
  }

  lemma {:induction false} OwnPick(ws: seq<Write>, idx: seq<nat>, id: string)
    requires Increasing(idx) && Below(idx, |ws|)
    requires forall i: nat :: i < |ws| && ws[i].jobId == id ==> i in idx
    ensures Own(Pick(ws, idx), id) == Own(ws, id)
    decreases |ws|
  {
    if ws != [] {
      var n := |ws| - 1;
      var init := ws[..n];
      if idx != [] && idx[|idx| - 1] == n {
        var less := idx[..|idx| - 1];
        assert idx == less + [n];
        forall i: nat | i < n && init[i].jobId == id ensures i in less { assert ws[i].jobId == id; }
        OwnPick(init, less, id);
        assert Pick(ws, idx)[..|idx| - 1] == Pick(init, less);
      } else {
        LastIsLargest(idx, n);
        forall i: nat | i < n && init[i].jobId == id ensures i in idx { assert ws[i].jobId == id; }
        OwnPick(init, idx, id);
        assert Pick(ws, idx) == Pick(init, idx);
        assert ws[n].jobId != id;
      }
    }
  }

  lemma LastIsLargest(idx: seq<nat>, n: nat)
    requires Increasing(idx) && Below(idx, n + 1) && (idx == [] || idx[|idx| - 1] != n)
    ensures forall k :: 0 <= k < |idx| ==> idx[k] != n
  {
    forall k | 0 <= k < |idx| ensures idx[k] != n {
      assert k < |idx| - 1 ==> idx[k] < idx[|idx| - 1];
    }
  }

  lemma {:induction false} FinishedWell(finished: seq<(nat, bool)>, k: nat)
    requires k < |finished| && finished[k].1
    ensures finished[k].0 in Succeeded(finished)
  {
    if k < |finished| - 1 {
      FinishedWell(finished[..|finished| - 1], k);
    }
  }

  lemma UnharmedIsDue(w: Writer, id: string, i: nat)
    requires Accounted(w) && Unharmed(w, id) && About(w, i, id)
    ensures i in Due(w)
  {
    forall k | 0 <= k < |w.dropped| ensures w.dropped[k] != i {
      assert !About(w, w.dropped[k], id);
    }
    assert i in Accepted(w);
    if i in Indices(w.finished) {
      var k :| 0 <= k < |w.finished| && Indices(w.finished)[k] == i;
      FinishedWell(w.finished, k);
    }
  }

  /** For a job none of whose own writes was lost, applying the outstanding writes to the
      current rows leaves its rows as if every write ever scheduled had run. */
  lemma OwnCompletes(db0: Db, w: Writer, id: string)
    requires Sound(db0, w) && Unharmed(w, id)
    ensures Below(InFlight(w) + w.queue, |w.scheduled|)
    ensures Slice(Replay(w.db, Outstanding(w)), id) == Slice(Replay(db0, w.scheduled), id)
  {
    OutstandingReplay(db0, w);
    DueOrder(w);
    forall i: nat | i < |w.scheduled| && w.scheduled[i].jobId == id ensures i in Due(w) {
      UnharmedIsDue(w, id, i);
    }
    OwnPick(w.scheduled, Due(w), id);
    SliceReplay(db0, Pick(w.scheduled, Due(w)), id);
    SliceReplay(db0, w.scheduled, id);
  }

  /** Once all of a job's own writes are in the rows, its rows are complete. */
  lemma OwnInRows(db0: Db, w: Writer, id: string)
    requires Sound(db0, w) && AllExecuted(w, id)
    ensures Slice(w.db, id) == Slice(Replay(db0, w.scheduled), id)
  {
    ExecutedIncreasing(w);
    forall i: nat | i < |w.scheduled| && w.scheduled[i].jobId == id ensures i in Executed(w) {
      assert About(w, i, id);
    }
    OwnPick(w.scheduled, Executed(w), id);
    SliceReplay(db0, Pick(w.scheduled, Executed(w)), id);
    SliceReplay(db0, w.scheduled, id);
  }

  /** Write `i` inserts the job and has run. */
  ghost predicate Inserted(w: Writer, i: nat, id: string) {
    i < |w.scheduled| && w.scheduled[i].InsertJob? && w.scheduled[i].jobId == id && i in Executed(w)
  }

  lemma PickHas(ws: seq<Write>, idx: seq<nat>, id: string)
    requires Below(idx, |ws|)
    ensures (exists i :: 0 <= i < |Pick(ws, idx)| && Pick(ws, idx)[i].InsertJob? && Pick(ws, idx)[i].jobId == id)
       <==> (exists i :: i in idx && ws[i].InsertJob? && ws[i].jobId == id)
  {
    forall i | i in idx && ws[i].InsertJob? && ws[i].jobId == id
      ensures exists k :: 0 <= k < |Pick(ws, idx)| && Pick(ws, idx)[k].InsertJob? && Pick(ws, idx)[k].jobId == id
    {
      var k :| 0 <= k < |idx| && idx[k] == i;
      assert Pick(ws, idx)[k] == ws[i];
    }
  }

  /** At every step a job has a row if and only if it had one initially or an insertion of
      it has run: no update, eviction or failure makes one or takes it away. */
  lemma JobRowIff(db0: Db, w: Writer, id: string)
    requires Sound(db0, w)
    ensures id in w.db.jobs <==> id in db0.jobs || exists i :: Inserted(w, i, id)
  {
    var ran := Executed(w);
    ReplayJobRow(db0, Pick(w.scheduled, ran), id);
    PickHas(w.scheduled, ran, id);
    if i :| i in ran && w.scheduled[i].InsertJob? && w.scheduled[i].jobId == id {
      assert Inserted(w, i, id);
    }
  }

  // ---- the writer object ---------------------------------------------------------

  class DbWriter {
    const maxSize: int
    const store: Store
    var queue: seq<Write>
    var current: Option<Write>   // the coroutine the worker holds
    var awaited: bool            // its await returned or raised
    var succeeded: bool
    ghost var view: Writer       // the same state with its history

    ghost predicate Valid()
      reads this, store
    {
      && view.maxSize == maxSize && view.db == store.Rows()
      && (!view.stage.Idle? ==> view.stage.i < |view.scheduled|) && Below(view.queue, |view.scheduled|)
      && queue == Pick(view.scheduled, view.queue)
      && current == (if view.stage.Idle? then None else Some(view.scheduled[view.stage.i]))
      && (view.stage.Running? <==> current.Some? && !awaited)
      && (view.stage.Committed? ==> succeeded == view.stage.ok)
    }

    constructor (store: Store, maxSize: int)
      ensures Valid() && this.store == store && this.maxSize == maxSize
      ensures view == Init(maxSize, store.Rows())
    {
      this.store, this.maxSize := store, maxSize;
      queue, current, awaited, succeeded := [], None, false, false;
      view := Init(maxSize, store.Rows());
    }

    /** `schedule`: enqueue, or close the coroutine when there is no loop or no room. */
    method Schedule(w: Write, loopRunning: bool)
      requires Valid()
      modifies this
      ensures Valid() && view == Next(old(view), Event.Schedule(w, loopRunning))
    {
      view := Next(view, Event.Schedule(w, loopRunning));
      if !loopRunning || Full(maxSize, |queue|) {
        return;
      }
      queue := queue + [w];
    }

    /** Top of the worker loop: `coro = await q.get()`. */
    method Get()
      requires Valid()
      modifies this
      ensures Valid() && view == Next(old(view), Event.Get)
    {
      view := Next(view, Event.Get);
      if current.None? && queue != [] {
        current, awaited, queue := Some(queue[0]), false, queue[1..];
      }
    }

    /** `await coro`: runs the statement; an exception is absorbed by the loop. */
    method Await(up: bool)
      requires Valid()
      modifies this, store
      ensures Valid() && view == Next(old(view), Commit(up))
    {
      if current.Some? && !awaited {
        succeeded := false;
        if up {
          succeeded := store.Execute(current.value);
        }
        awaited := true;
      }
      view := Next(view, Commit(up));
    }

    method TaskDone()
      requires Valid()
      modifies this
      ensures Valid() && view == Next(old(view), Event.TaskDone)
    {
      view := Next(view, Event.TaskDone);
      if current.Some? && awaited {
        current, awaited := None, false;
      }
    }
  }
}
