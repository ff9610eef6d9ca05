/** Why writes are lost, and that a healthy run loses none. */
module JobHealth {
  import opened JobStore
  import opened JobTracker
  import opened WriteBehind
  import W = JobDbWriter

  // ---- the outcome of a write, told by the database --------------------------------------

  /** Event `k` lets the statement of write `i` return or raise. */
  predicate CommitsAt(maxSize: int, db: Db, es: seq<W.Event>, k: nat, i: nat)
    requires k < |es|
  {
    var w := W.Run(W.Init(maxSize, db), es[..k]);
    es[k].Commit? && w.stage == W.Running(i) && i < |w.scheduled|
  }

  /** The database answers, and no phases are inserted for a job without a row. */
  predicate Succeeds(maxSize: int, db: Db, es: seq<W.Event>, k: nat, i: nat)
    requires k < |es| && CommitsAt(maxSize, db, es, k, i)
  {
    var w := W.Run(W.Init(maxSize, db), es[..k]);
    var write := w.scheduled[i];
    es[k].up && !(write.InsertPhases? && write.items != [] && write.jobId !in w.db.jobs)
  }

  /** The statement of write `i` has returned (`ok`) or raised. */
  predicate Ended(w: W.Writer, i: nat, ok: bool) {
    (i, ok) in w.finished || w.stage == W.Committed(i, ok)
  }

  ghost predicate EndsAs(maxSize: int, db: Db, es: seq<W.Event>, i: nat, ok: bool) {
    exists k :: 0 <= k < |es| && CommitsAt(maxSize, db, es, k, i) && Succeeds(maxSize, db, es, k, i) == ok
  }

  /** One step ends at most one statement. */
  lemma EndedStep(w: W.Writer, e: W.Event, i: nat, ok: bool)
    requires w.stage.Running? ==> w.stage.i < |w.scheduled|
    ensures Ended(W.Next(w, e), i, ok) <==>
            || Ended(w, i, ok)
            || (e.Commit? && w.stage == W.Running(i) && ok == (e.up && !Refused(w.db, w.scheduled[i])))
  {
    var w' := W.Next(w, e);
    if e.TaskDone? && w.stage.Committed? {
      assert forall x :: x in w'.finished <==> x in w.finished || x == (w.stage.i, w.stage.ok);
    }
  }

  lemma EndsAsSnoc(maxSize: int, db: Db, es: seq<W.Event>, e: W.Event, i: nat, ok: bool)
    ensures var w := W.Run(W.Init(maxSize, db), es);
            EndsAs(maxSize, db, es + [e], i, ok) <==>
              || EndsAs(maxSize, db, es, i, ok)
              || (e.Commit? && w.stage == W.Running(i) && i < |w.scheduled|
                  && ok == (e.up && !Refused(w.db, w.scheduled[i])))
  {
    var all := es + [e];
    assert all[..|es|] == es;
    assert forall k :: 0 <= k < |es| ==> all[..k] == es[..k] && all[k] == es[k];
    if k :| 0 <= k < |es| && CommitsAt(maxSize, db, es, k, i) && Succeeds(maxSize, db, es, k, i) == ok {
      assert CommitsAt(maxSize, db, all, k, i) && Succeeds(maxSize, db, all, k, i) == ok;
    }
    if CommitsAt(maxSize, db, all, |es|, i) && Succeeds(maxSize, db, all, |es|, i) == ok {
      assert EndsAs(maxSize, db, all, i, ok);
    }
    if k :| 0 <= k < |all| && CommitsAt(maxSize, db, all, k, i) && Succeeds(maxSize, db, all, k, i) == ok {
      if k < |es| { assert CommitsAt(maxSize, db, es, k, i) && Succeeds(maxSize, db, es, k, i) == ok; }
    }
  }

  /** Outcome, exactly. In every run a statement has returned if and only if the database
      answered it while it was in flight and it was not refused, and raised if and only if
      the database failed or refused it. */
  lemma {:induction false} EndedIff(maxSize: int, db: Db, es: seq<W.Event>, i: nat, ok: bool)
    ensures Ended(W.Run(W.Init(maxSize, db), es), i, ok) <==> EndsAs(maxSize, db, es, i, ok)
  {
    if es != [] {
      var init, e := es[..|es| - 1], es[|es| - 1];
      var w := W.Run(W.Init(maxSize, db), init);
      assert es == init + [e];
      EndedIff(maxSize, db, init, i, ok);
      InFlightScheduled(maxSize, db, init);
      EndedStep(w, e, i, ok);
      EndsAsSnoc(maxSize, db, init, e, i, ok);
    }
  }

  lemma InFlightScheduled(maxSize: int, db: Db, es: seq<W.Event>)
    ensures var w := W.Run(W.Init(maxSize, db), es); w.stage.Running? ==> w.stage.i < |w.scheduled|
  {
    W.RunAccounted(maxSize, db, es);
    var w := W.Run(W.Init(maxSize, db), es);
    if w.stage.Running? { assert w.stage.i in W.InFlight(w) && w.stage.i in W.Accepted(w); }
  }

  // ---- a healthy run loses nothing -------------------------------------------------------------

  /** The database always answers. */
  ghost predicate AlwaysUp(es: seq<Event>) {
    forall k :: 0 <= k < |es| && es[k].Worker? && es[k].step.Commit? ==> es[k].step.up
  }

  /** Every call finds room for its writes, at most two. */
  ghost predicate HasRoom(maxSize: int, db0: Db, es: seq<Event>) {
    maxSize > 0 ==>
      forall k :: 0 <= k < |es| && es[k].Call? ==> |Run(Start(maxSize, db0), es[..k]).writer.queue| + 2 <= maxSize
  }

  /** Run in schedule order from the start, no statement is refused. */
  ghost predicate NeverRefused(db0: Db, ws: seq<Write>) {
    forall i :: 0 <= i < |ws| ==> !Refused(Replay(db0, ws[..i]), ws[i])
  }

  lemma NeverRefusedSnoc(db0: Db, ws: seq<Write>, w: Write)
    requires NeverRefused(db0, ws) && !Refused(Replay(db0, ws), w)
    ensures NeverRefused(db0, ws + [w])
  {
    var all := ws + [w];
    assert all[..|ws|] == ws;
    assert forall i :: 0 <= i < |ws| ==> all[..i] == ws[..i] && all[i] == ws[i];
  }

  /** Without losses the rows are those after everything before the write in flight. */
  lemma RowsBefore(db0: Db, w: W.Writer)
    requires W.Sound(db0, w) && W.Lossless(w) && w.stage.Running?
    ensures w.stage.i == |w.finished| < |w.scheduled| && w.db == Replay(db0, w.scheduled[..w.stage.i])
  {
    W.LosslessOrder(w);
    W.PickConsecutive(w.scheduled, W.Executed(w), 0);
    assert (W.InFlight(w) + w.queue)[0] == w.stage.i;
    assert w.scheduled[0..|w.finished|] == w.scheduled[..|w.finished|];
  }

  lemma WorkerLossless(db0: Db, w: W.Writer, step: W.Event)
    requires W.Sound(db0, w) && W.Lossless(w) && NeverRefused(db0, w.scheduled)
    requires !step.Schedule? && (step.Commit? ==> step.up)
    ensures W.Lossless(W.Next(w, step)) && W.Next(w, step).scheduled == w.scheduled
  {
    if w.stage.Running? { RowsBefore(db0, w); }
  }

  lemma ScheduleLossless(db0: Db, w: W.Writer, write: Write)
    requires W.Lossless(w) && NeverRefused(db0, w.scheduled) && !Refused(Replay(db0, w.scheduled), write)
    requires w.maxSize > 0 ==> |w.queue| < w.maxSize
    ensures var w' := W.Next(w, W.Schedule(write, true));
            && W.Lossless(w') && NeverRefused(db0, w'.scheduled) && w'.scheduled == w.scheduled + [write]
            && w'.maxSize == w.maxSize && |w'.queue| == |w.queue| + 1
  {
    NeverRefusedSnoc(db0, w.scheduled, write);
  }

  lemma ScheduleTwoLossless(db0: Db, w: W.Writer, ws: seq<Write>)
    requires W.Lossless(w) && NeverRefused(db0, w.scheduled) && |ws| <= 2
    requires |ws| >= 1 ==> !Refused(Replay(db0, w.scheduled), ws[0])
    requires |ws| == 2 ==> !ws[1].InsertPhases?
    requires w.maxSize > 0 ==> |w.queue| + 2 <= w.maxSize
    ensures W.Lossless(ScheduleAll(w, ws, true)) && NeverRefused(db0, ScheduleAll(w, ws, true).scheduled)
  {
    if |ws| == 1 {
      ScheduleLossless(db0, w, ws[0]);
      ScheduleOne(w, ws[0], true);
      assert ws == [ws[0]];
    } else if |ws| == 2 {
      ScheduleLossless(db0, w, ws[0]);
      ScheduleLossless(db0, W.Next(w, W.Schedule(ws[0], true)), ws[1]);
      ScheduleTwo(w, ws[0], ws[1], true);
      assert ws == [ws[0], ws[1]];
    }
  }

  /** A call never has phases inserted for a job without a row. */
  lemma CallNotRefused(jobs: Jobs, db: Db, op: Op, now: real)
    requires Registry(jobs) && Mirrors(jobs, db)
    ensures var ws := Step(jobs, op, now).1;
            && |ws| <= 2 && (|ws| >= 1 ==> !Refused(db, ws[0])) && (|ws| == 2 ==> !ws[1].InsertPhases?)
  {
    WritesOf(jobs, op, now);
  }

  ghost predicate Healthy(db0: Db, w: W.Writer) {
    W.Lossless(w) && NeverRefused(db0, w.scheduled)
  }

  lemma HealthyNext(db0: Db, p: Pipeline, e: Event)
    requires Registry(p.jobs) && Mirrors(p.jobs, Target(db0, p)) && W.Sound(db0, p.writer) && Healthy(db0, p.writer)
    requires ValidEvent(e) && (e.Worker? && e.step.Commit? ==> e.step.up)
    requires e.Call? && p.writer.maxSize > 0 ==> |p.writer.queue| + 2 <= p.writer.maxSize
    ensures Healthy(db0, Next(p, e).writer) && Next(p, e).writer.maxSize == p.writer.maxSize
  {
    match e
    case Call(op, now) =>
      CallNotRefused(p.jobs, Target(db0, p), op, now);
      ScheduleTwoLossless(db0, p.writer, Step(p.jobs, op, now).1);
      ScheduleKeepsBound(p.writer, Step(p.jobs, op, now).1);
    case Worker(step) => WorkerLossless(db0, p.writer, step);
  }

  lemma {:induction false} HealthyInvariant(maxSize: int, db0: Db, es: seq<Event>)
    requires ProperRun(db0, Start(maxSize, db0), es) && AlwaysUp(es) && HasRoom(maxSize, db0, es)
    ensures var w := Run(Start(maxSize, db0), es).writer; Healthy(db0, w) && w.maxSize == maxSize
  {
    if es != [] {
      var init, e := es[..|es| - 1], es[|es| - 1];
      assert forall k :: 0 <= k < |init| ==> init[..k] == es[..k] && init[k] == es[k];
      HealthyInvariant(maxSize, db0, init);
      RunMirrors(maxSize, db0, init);
      HealthyNext(db0, Run(Start(maxSize, db0), init), e);
    }
  }

  lemma {:induction false} ScheduleKeepsBound(w: W.Writer, ws: seq<Write>)
    ensures ScheduleAll(w, ws, true).maxSize == w.maxSize
  {
    if ws != [] { ScheduleKeepsBound(w, ws[..|ws| - 1]); }
  }

  /** Healthy runs. If callers respect what they must, the database always answers, and the
      queue has room at every call, nothing is ever lost: at every moment the outstanding
      writes over the rows mirror every tracked job, and the rows alone do when none are left. */
  lemma HealthyRunsMirror(maxSize: int, db0: Db, es: seq<Event>)
    requires ProperRun(db0, Start(maxSize, db0), es) && AlwaysUp(es) && HasRoom(maxSize, db0, es)
    ensures var s := Run(Start(maxSize, db0), es);
            && W.Lossless(s.writer) && W.Below(W.InFlight(s.writer) + s.writer.queue, |s.writer.scheduled|)
            && Mirrors(s.jobs, Replay(s.writer.db, W.Outstanding(s.writer)))
            && (s.writer.queue == [] && s.writer.stage.Idle? ==> Mirrors(s.jobs, s.writer.db))
  {
    HealthyInvariant(maxSize, db0, es);
    Simulation(maxSize, db0, es);
    Drained(maxSize, db0, es);
  }
}
