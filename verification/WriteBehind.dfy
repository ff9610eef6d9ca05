/** The whole pipeline, tracker calls interleaved with the writer's worker, and the
    proof that the rows plus the outstanding writes always spell out the tracker. */
module WriteBehind {
  import opened Prelude
  import opened JobModels
  import opened JobStore
  import opened JobTracker
  import W = JobDbWriter

  // ---- when a row tells the same story as a tracked job -----------------------

  /** Every column agrees; the two columns written with "empty keeps the old value"
      agree whenever the tracker's value is not empty. */
  predicate JobMatches(j: JobInfo, r: JobRow) {
    && r.project == j.project && r.agent == j.agent && r.prompt == j.prompt
    && r.user == j.user && r.channel == j.channel && r.startedAt == j.startedAt
    && r.status == j.status
    && r.totalPhases == j.totalPhases
    && r.finishedAt == Utc(j.finishedAt)
    && r.duration == (if j.finishedAt == 0.0 then None else Some(j.duration))
    && (j.sessionId != "" ==> r.sessionId == j.sessionId)
    && (j.error != "" ==> r.error == j.error)
  }

  predicate PhaseMatches(p: PhaseInfo, r: PhaseRow) {
    && r.title == p.title && r.status == p.status
    && r.startedAt == Utc(p.startedAt)
    && r.finishedAt == Utc(p.finishedAt)
    && r.duration == (if p.finishedAt == 0.0 then None else Some(p.duration))
    && (p.output != "" ==> r.output == p.output)
    && r.filesChanged == p.filesChanged
  }

  /** No earlier phase has the same step; with distinct steps every phase leads. */
  predicate Leads(phases: seq<PhaseInfo>, i: nat)
    requires i < |phases|
  {
    forall j :: 0 <= j < i ==> phases[j].step != phases[i].step
  }

  predicate PhasesMatch(id: string, phases: seq<PhaseInfo>, db: Db) {
    forall i :: 0 <= i < |phases| && Leads(phases, i) ==>
      (id, phases[i].step) in db.phases && PhaseMatches(phases[i], db.phases[(id, phases[i].step)])
  }

  predicate Shown(j: JobInfo, db: Db) {
    j.jobId in db.jobs && JobMatches(j, db.jobs[j.jobId]) && PhasesMatch(j.jobId, j.phases, db)
  }

  predicate Mirrors(jobs: Jobs, db: Db) {
    forall id :: id in jobs.table ==> Shown(jobs.table[id], db)
  }

  /** What a caller must respect: a created id has no row yet, and a step handed to
      `set_phases` has no row yet (rows counted as if all scheduled writes had run). */
  predicate Proper(jobs: Jobs, db: Db, op: Op) {
    match op
    case CreateJob(id, _, _, _, _, _) => id !in db.jobs
    case SetPhases(id, specs) =>
      id in jobs.table ==> forall i :: 0 <= i < |specs| ==> (id, NewPhase(specs[i], i).step) !in db.phases
    case _ => true
  }

  // ---- each call preserves the mirror -----------------------------------------------

  /** Writes about one job leave the rows of every other job alone. */
  predicate OthersKept(id: string, db: Db, db': Db) {
    && (forall x :: x in db.jobs && x != id ==> x in db'.jobs && db'.jobs[x] == db.jobs[x])
    && (forall k :: k in db.phases && k.0 != id ==> k in db'.phases && db'.phases[k] == db.phases[k])
  }

  lemma ApplyLocal(db: Db, w: Write)
    ensures OthersKept(w.jobId, db, Apply(db, w))
  {
    if w.InsertPhases? {
      forall k | k in db.phases && k.0 != w.jobId
        ensures k in Apply(db, w).phases && Apply(db, w).phases[k] == db.phases[k]
      {
        InsertRowsAt(db.phases, w.jobId, w.items, k);
      }
    }
  }

  /** A job update keeps the phase rows; a matched job stays matched in its other columns. */
  lemma SetPhasesMirrors(j: JobInfo, db: Db, op: Op, now: real)
    requires op.SetPhases? && j.jobId == op.jobId && j.jobId in db.jobs && JobMatches(j, db.jobs[j.jobId])
    requires forall i :: 0 <= i < |op.specs| ==> (op.jobId, NewPhase(op.specs[i], i).step) !in db.phases
    ensures var (j', ws) := Update(j, op, now);
            var db' := Replay(db, ws);
            j'.jobId == j.jobId && Shown(j', db') && OthersKept(j.jobId, db, db')
  {
    var (j', ws) := Update(j, op, now);
    var id, items := j.jobId, PhaseItems(j'.phases);
    assert ws == [ws[0]] + [ws[1]];
    ReplayConcat(db, [ws[0]], [ws[1]]);
    W.ReplayOne(db, ws[0]);
    var mid := Apply(db, ws[0]);
    W.ReplayOne(mid, ws[1]);
    ApplyLocal(db, ws[0]);
    ApplyLocal(mid, ws[1]);
    var db' := Replay(db, ws);
    forall i | 0 <= i < |j'.phases| && Leads(j'.phases, i)
      ensures (id, j'.phases[i].step) in db'.phases && PhaseMatches(j'.phases[i], db'.phases[(id, j'.phases[i].step)])
    {
      InsertRowsAt(db.phases, id, items, (id, j'.phases[i].step));
      assert forall k :: 0 <= k < i ==> items[k].0 != j'.phases[i].step;
      assert items[i] == (j'.phases[i].step, j'.phases[i].title);
    }
  }

  lemma PhaseUpdateMirrors(j: JobInfo, db: Db, i: nat, p: PhaseInfo, w: Write)
    requires Shown(j, db)
    requires i < |j.phases| && Leads(j.phases, i) && p.step == j.phases[i].step
    requires w.UpdatePhase? && w.jobId == j.jobId && w.step == p.step
    requires (j.jobId, p.step) in db.phases ==> PhaseMatches(p, PatchPhase(db.phases[(j.jobId, p.step)], w))
    ensures var db' := Apply(db, w);
            j.jobId in db'.jobs && PhasesMatch(j.jobId, j.phases[i := p], db') && db'.jobs == db.jobs
  {
    var db', phases' := Apply(db, w), j.phases[i := p];
    assert forall k :: 0 <= k < |phases'| ==> phases'[k].step == j.phases[k].step;
    forall k | 0 <= k < |phases'| && Leads(phases', k)
      ensures (j.jobId, phases'[k].step) in db'.phases &&
          PhaseMatches(phases'[k], db'.phases[(j.jobId, phases'[k].step)])
    {
      assert Leads(j.phases, k) by {
        forall m | 0 <= m < k ensures j.phases[m].step != j.phases[k].step {
          assert phases'[m].step != phases'[k].step;
        }
      }
      assert k == i || j.phases[k].step != p.step;
    }
  }

  lemma PhaseCallMirrors(j: JobInfo, db: Db, op: Op, now: real)
    requires (op.StartPhase? || op.CompletePhase?) && j.jobId == op.jobId && now > 0.0
    requires Shown(j, db)
    ensures var (j', ws) := Update(j, op, now);
            var db' := Replay(db, ws);
            j'.jobId == j.jobId && Shown(j', db') && OthersKept(j.jobId, db, db')
  {
    var (j', ws) := Update(j, op, now);
    var i := Find(j.phases, op.step);
    if i < |j.phases| {
      assert Leads(j.phases, i);
      W.ReplayOne(db, ws[0]);
      ApplyLocal(db, ws[0]);
      PhaseUpdateMirrors(j, db, i, j'.phases[i], ws[0]);
    }
  }

  lemma JobCallMirrors(j: JobInfo, db: Db, op: Op, now: real)
    requires (op.SetDecomposing? || op.CompleteJob? || op.CancelJob?) && j.jobId == op.jobId && now > 0.0
    requires Shown(j, db)
    ensures var (j', ws) := Update(j, op, now);
            var db' := Replay(db, ws);
            j'.jobId == j.jobId && Shown(j', db') && OthersKept(j.jobId, db, db')
  {
    var (j', ws) := Update(j, op, now);
    if ws != [] {
      W.ReplayOne(db, ws[0]);
      ApplyLocal(db, ws[0]);
      assert Apply(db, ws[0]).phases == db.phases;
      assert PhasesMatch(j.jobId, j'.phases, Apply(db, ws[0]));
    }
  }

  lemma TrackedCallMirrors(j: JobInfo, db: Db, op: Op, now: real)
    requires !op.CreateJob? && j.jobId == op.jobId && now > 0.0 && Shown(j, db)
    requires op.SetPhases? ==> forall i :: 0 <= i < |op.specs| ==>
        (op.jobId, NewPhase(op.specs[i], i).step) !in db.phases
    ensures var (j', ws) := Update(j, op, now);
            var db' := Replay(db, ws);
            j'.jobId == j.jobId && Shown(j', db') && OthersKept(j.jobId, db, db')
  {
    if op.SetPhases? { SetPhasesMirrors(j, db, op, now); }
    else if op.StartPhase? || op.CompletePhase? { PhaseCallMirrors(j, db, op, now); }
    else { JobCallMirrors(j, db, op, now); }
  }

  lemma OtherStillShown(j: JobInfo, db: Db, db': Db, id: string)
    requires Shown(j, db) && OthersKept(id, db, db') && j.jobId != id
    ensures Shown(j, db')
  {
    forall i | 0 <= i < |j.phases| && Leads(j.phases, i)
      ensures (j.jobId, j.phases[i].step) in db'.phases
      ensures PhaseMatches(j.phases[i], db'.phases[(j.jobId, j.phases[i].step)])
    {
      assert (j.jobId, j.phases[i].step) in db.phases;
    }
  }

  lemma PutRegistry(jobs: Jobs, j: JobInfo)
    requires Registry(jobs)
    ensures Registry(jobs.Put(j.jobId, j))
  {
  }

  /** Replacing one shown job, with everyone else's rows kept, keeps the whole mirror. */
  lemma PutMirrors(jobs: Jobs, db: Db, j: JobInfo, db': Db)
    requires Registry(jobs) && Mirrors(jobs, db) && Shown(j, db') && OthersKept(j.jobId, db, db')
    ensures Registry(jobs.Put(j.jobId, j)) && Mirrors(jobs.Put(j.jobId, j), db')
  {
    PutRegistry(jobs, j);
    forall x | x in jobs.Put(j.jobId, j).table ensures Shown(jobs.Put(j.jobId, j).table[x], db') {
      if x != j.jobId { OtherStillShown(jobs.table[x], db, db', j.jobId); }
    }
  }

  lemma CleanupMirrors(jobs: Jobs, db: Db)
    requires Registry(jobs) && Mirrors(jobs, db)
    ensures Mirrors(Cleanup(jobs), db)
  {
    CleanupKeepsNewest(jobs);
  }

  /** One lifecycle call: if the rows mirrored the tracker before, the rows with the
      call's own writes applied mirror it after. */
  lemma StepMirrors(jobs: Jobs, db: Db, op: Op, now: real)
    requires Registry(jobs) && Mirrors(jobs, db) && Proper(jobs, db, op) && now > 0.0
    ensures Mirrors(Step(jobs, op, now).0, Replay(db, Step(jobs, op, now).1))
  {
    var id := op.jobId;
    if op.CreateJob? {
      var j := NewJob(op, now);
      W.ReplayOne(db, InsertOf(j));
      ApplyLocal(db, InsertOf(j));
      assert Shown(j, Apply(db, InsertOf(j)));
      PutMirrors(jobs, db, j, Apply(db, InsertOf(j)));
    } else if id in jobs.table {
      var (j, ws) := Update(jobs.table[id], op, now);
      TrackedCallMirrors(jobs.table[id], db, op, now);
      PutMirrors(jobs, db, j, Replay(db, ws));
      CleanupMirrors(jobs.Put(id, j), Replay(db, ws));
    }
  }

  // ---- whole runs ----------------------------------------------------------------------

  datatype Pipeline = Pipeline(jobs: Jobs, writer: W.Writer)

  datatype Event =
    | Call(op: Op, now: real)
    | Worker(step: W.Event)

  predicate ValidEvent(e: Event) {
    match e
    case Call(_, now) => now > 0.0
    case Worker(step) => !step.Schedule?
  }

  function Start(maxSize: int, db: Db): Pipeline {
    Pipeline(Dict([], map[]), W.Init(maxSize, db))
  }

  function Next(s: Pipeline, e: Event): Pipeline
    requires Registry(s.jobs)
  {
    match e
    case Call(op, now) =>
      var (jobs', ws) := Step(s.jobs, op, now);
      Pipeline(jobs', ScheduleAll(s.writer, ws, true))
    case Worker(step) => s.(writer := W.Next(s.writer, step))
  }

  lemma RegistryKept(jobs: Jobs, op: Op, now: real)
    requires Registry(jobs)
    ensures Registry(Step(jobs, op, now).0)
  {
  }

  function Run(s: Pipeline, es: seq<Event>): (r: Pipeline)
    requires Registry(s.jobs)
    ensures Registry(r.jobs)
  {
    if es == [] then s
    else
      var p, e := Run(s, es[..|es| - 1]), es[|es| - 1];
      if e.Call? then RegistryKept(p.jobs, e.op, e.now); Next(p, e) else Next(p, e)
  }

  /** The rows once everything scheduled so far has been applied. */
  function Target(db0: Db, s: Pipeline): Db {
    Replay(db0, s.writer.scheduled)
  }

  ghost predicate ProperRun(db0: Db, s: Pipeline, es: seq<Event>)
    requires Registry(s.jobs)
  {
    es == [] ||
    var p, e := Run(s, es[..|es| - 1]), es[|es| - 1];
    && ProperRun(db0, s, es[..|es| - 1])
    && ValidEvent(e)
    && (e.Call? ==> Proper(p.jobs, Target(db0, p), e.op))
  }

  lemma {:induction false} ScheduleAllAppends(w: W.Writer, ws: seq<Write>)
    ensures ScheduleAll(w, ws, true).scheduled == w.scheduled + ws
  {
    if ws != [] {
      ScheduleAllAppends(w, ws[..|ws| - 1]);
      assert ws == ws[..|ws| - 1] + [ws[|ws| - 1]];
    }
  }

  lemma {:induction false} ScheduleAllSound(db0: Db, w: W.Writer, ws: seq<Write>)
    requires W.Sound(db0, w)
    ensures W.Sound(db0, ScheduleAll(w, ws, true))
  {
    if ws != [] {
      ScheduleAllSound(db0, w, ws[..|ws| - 1]);
      W.SoundNext(db0, ScheduleAll(w, ws[..|ws| - 1], true), W.Schedule(ws[|ws| - 1], true));
    }
  }

  lemma NextSound(db0: Db, p: Pipeline, e: Event)
    requires Registry(p.jobs) && W.Sound(db0, p.writer)
    ensures W.Sound(db0, Next(p, e).writer)
  {
    match e
    case Call(op, now) => ScheduleAllSound(db0, p.writer, Step(p.jobs, op, now).1);
    case Worker(step) => W.SoundNext(db0, p.writer, step);
  }

  lemma NextTarget(db0: Db, p: Pipeline, e: Event)
    requires Registry(p.jobs) && ValidEvent(e)
    ensures Target(db0, Next(p, e)) ==
            if e.Call? then Replay(Target(db0, p), Step(p.jobs, e.op, e.now).1) else Target(db0, p)
  {
    if e.Call? {
      var ws := Step(p.jobs, e.op, e.now).1;
      ScheduleAllAppends(p.writer, ws);
      ReplayConcat(db0, p.writer.scheduled, ws);
    }
  }

  lemma {:induction false} RunMirrors(maxSize: int, db0: Db, es: seq<Event>)
    requires ProperRun(db0, Start(maxSize, db0), es)
    ensures var s := Run(Start(maxSize, db0), es);
            W.Sound(db0, s.writer) && Mirrors(s.jobs, Target(db0, s))
  {
    if es == [] {
      W.SoundInit(maxSize, db0);
    } else {
      var init, e := es[..|es| - 1], es[|es| - 1];
      var p := Run(Start(maxSize, db0), init);
      RunMirrors(maxSize, db0, init);
      NextSound(db0, p, e);
      NextTarget(db0, p, e);
      if e.Call? {
        StepMirrors(p.jobs, Target(db0, p), e.op, e.now);
      }
    }
  }

  /** Whether a job is shown depends on its own rows only. */
  lemma ShownBySlice(j: JobInfo, db: Db, db': Db)
    requires Shown(j, db) && Slice(db, j.jobId) == Slice(db', j.jobId)
    ensures Shown(j, db')
  {
    var id := j.jobId;
    assert id in Slice(db, id).jobs && id in Slice(db', id).jobs;
    assert db'.jobs[id] == Slice(db', id).jobs[id] == db.jobs[id];
    forall i | 0 <= i < |j.phases| && Leads(j.phases, i)
      ensures (id, j.phases[i].step) in db'.phases && PhaseMatches(j.phases[i], db'.phases[(id, j.phases[i].step)])
    {
      var k := (id, j.phases[i].step);
      assert k in Slice(db, id).phases && k in Slice(db', id).phases;
      assert db'.phases[k] == Slice(db', id).phases[k] == db.phases[k];
    }
  }

  lemma LosslessUnharmed(w: W.Writer, id: string)
    requires W.Lossless(w)
    ensures W.Unharmed(w, id)
  {
  }

  /** Write-behind simulation. In every state of every run, for every tracked job none of
      whose own writes was lost, applying the write in flight and then the queued ones to
      the current rows gives rows that mirror the job and every leading phase, whatever
      was lost of other jobs. A run that has lost nothing mirrors every job. */
  lemma Simulation(maxSize: int, db0: Db, es: seq<Event>)
    requires ProperRun(db0, Start(maxSize, db0), es)
    ensures var s := Run(Start(maxSize, db0), es);
            && W.Below(W.InFlight(s.writer) + s.writer.queue, |s.writer.scheduled|)
            && (forall id :: id in s.jobs.table && W.Unharmed(s.writer, id) ==>
                  Shown(s.jobs.table[id], Replay(s.writer.db, W.Outstanding(s.writer))))
            && (W.Lossless(s.writer) ==> Mirrors(s.jobs, Replay(s.writer.db, W.Outstanding(s.writer))))
  {
    RunMirrors(maxSize, db0, es);
    var s := Run(Start(maxSize, db0), es);
    W.OutstandingReplay(db0, s.writer);
    forall id | id in s.jobs.table && W.Unharmed(s.writer, id)
      ensures Shown(s.jobs.table[id], Replay(s.writer.db, W.Outstanding(s.writer)))
    {
      W.OwnCompletes(db0, s.writer, id);
      ShownBySlice(s.jobs.table[id], Target(db0, s), Replay(s.writer.db, W.Outstanding(s.writer)));
    }
    if W.Lossless(s.writer) {
      forall id | id in s.jobs.table ensures W.Unharmed(s.writer, id) { LosslessUnharmed(s.writer, id); }
    }
  }

  /** Once a job's own writes are all in the rows, the stored rows themselves mirror it,
      whatever else is queued or lost; with an empty queue, an idle worker and no loss
      they mirror the whole tracker. */
  lemma Drained(maxSize: int, db0: Db, es: seq<Event>)
    requires ProperRun(db0, Start(maxSize, db0), es)
    ensures var s := Run(Start(maxSize, db0), es);
            && (forall id :: id in s.jobs.table && W.AllExecuted(s.writer, id) ==> Shown(s.jobs.table[id], s.writer.db))
            && (W.Lossless(s.writer) && s.writer.queue == [] && s.writer.stage.Idle? ==> Mirrors(s.jobs, s.writer.db))
  {
    RunMirrors(maxSize, db0, es);
    var s := Run(Start(maxSize, db0), es);
    forall id | id in s.jobs.table && W.AllExecuted(s.writer, id) ensures Shown(s.jobs.table[id], s.writer.db) {
      W.OwnInRows(db0, s.writer, id);
      ShownBySlice(s.jobs.table[id], Target(db0, s), s.writer.db);
    }
    if W.Lossless(s.writer) && s.writer.queue == [] && s.writer.stage.Idle? {
      Simulation(maxSize, db0, es);
      assert W.InFlight(s.writer) + s.writer.queue == [];
      assert W.Outstanding(s.writer) == [];
    }
  }

  // ---- a condition on the calls alone ------------------------------------------------

  function CreatedIds(es: seq<Event>): set<string> {
    set e | e in es && e.Call? && e.op.CreateJob? :: e.op.jobId
  }

  function PhasedIds(es: seq<Event>): set<string> {
    set e | e in es && e.Call? && e.op.SetPhases? :: e.op.jobId
  }

  /** Fresh ids, and at most one `set_phases` per job. */
  ghost predicate FreshCalls(db0: Db, es: seq<Event>) {
    es == [] ||
    var init, e := es[..|es| - 1], es[|es| - 1];
    && FreshCalls(db0, init)
    && ValidEvent(e)
    && (e.Call? && e.op.CreateJob? ==> e.op.jobId !in db0.jobs && e.op.jobId !in CreatedIds(init))
    && (e.Call? && e.op.SetPhases? ==> e.op.jobId !in PhasedIds(init))
  }

  ghost predicate Traced(db0: Db, es: seq<Event>, s: Pipeline) {
    && s.jobs.table.Keys <= CreatedIds(es)
    && Target(db0, s).jobs.Keys <= db0.jobs.Keys + CreatedIds(es)
    && (forall k :: k in Target(db0, s).phases ==> k in db0.phases || k.0 in PhasedIds(es))
    && CreatedIds(es) !! db0.jobs.Keys
  }

  lemma ApplyTraced(db: Db, w: Write)
    ensures forall x :: x in Apply(db, w).jobs ==> x in db.jobs || (w.InsertJob? && x == w.jobId)
    ensures forall k :: k in Apply(db, w).phases ==> k in db.phases || (w.InsertPhases? && k.0 == w.jobId)
  {
    if w.InsertPhases? {
      forall k | k in Apply(db, w).phases ensures k in db.phases || k.0 == w.jobId {
        InsertRowsAt(db.phases, w.jobId, w.items, k);
      }
    }
  }

  lemma ReplayTwo(db: Db, a: Write, b: Write)
    ensures Replay(db, [a, b]) == Apply(Apply(db, a), b)
  {
    assert [a, b] == [a] + [b];
    ReplayConcat(db, [a], [b]);
    W.ReplayOne(db, a);
    W.ReplayOne(Apply(db, a), b);
  }

  /** A call schedules at most one write, except that setting phases schedules two. */
  lemma WritesOf(jobs: Jobs, op: Op, now: real)
    requires Registry(jobs)
    ensures var ws := Step(jobs, op, now).1;
            && |ws| <= 2 && (|ws| == 2 ==> op.SetPhases? && ws[0].InsertPhases? && ws[1].UpdateJob?)
            && (forall i :: 0 <= i < |ws| ==>
                  && (ws[i].InsertJob? ==> op.CreateJob? && ws[i].jobId == op.jobId)
                  && (ws[i].InsertPhases? ==> op.SetPhases? && ws[i].jobId == op.jobId))
  {
  }

  lemma WritesTraced(jobs: Jobs, db: Db, op: Op, now: real)
    requires Registry(jobs)
    ensures var db' := Replay(db, Step(jobs, op, now).1);
            && (forall x :: x in db'.jobs ==> x in db.jobs || (op.CreateJob? && x == op.jobId))
            && (forall k :: k in db'.phases ==> k in db.phases || (op.SetPhases? && k.0 == op.jobId))
  {
    var ws := Step(jobs, op, now).1;
    WritesOf(jobs, op, now);
    if |ws| == 1 {
      W.ReplayOne(db, ws[0]);
      ApplyTraced(db, ws[0]);
    } else if |ws| == 2 {
      assert ws == [ws[0], ws[1]];
      ReplayTwo(db, ws[0], ws[1]);
      ApplyTraced(db, ws[0]);
      ApplyTraced(Apply(db, ws[0]), ws[1]);
    }
  }

  /** Calls with fresh ids that set phases at most once per job make a proper run. */
  lemma {:induction false} FreshCallsAreProper(maxSize: int, db0: Db, es: seq<Event>)
    requires ForeignKeyHolds(db0) && FreshCalls(db0, es)
    ensures ProperRun(db0, Start(maxSize, db0), es)
    ensures Traced(db0, es, Run(Start(maxSize, db0), es))
  {
    if es == [] {
      assert Run(Start(maxSize, db0), es) == Start(maxSize, db0);
    } else {
      var init, e := es[..|es| - 1], es[|es| - 1];
      var p := Run(Start(maxSize, db0), init);
      FreshCallsAreProper(maxSize, db0, init);
      TracedNext(db0, init, p, e);
      assert es == init + [e];
    }
  }

  lemma TracedNext(db0: Db, init: seq<Event>, p: Pipeline, e: Event)
    requires ForeignKeyHolds(db0) && Registry(p.jobs) && Traced(db0, init, p) && FreshCalls(db0, init + [e])
    ensures e.Call? ==> Proper(p.jobs, Target(db0, p), e.op)
    ensures Traced(db0, init + [e], Next(p, e))
  {
    var es := init + [e];
    assert es[..|es| - 1] == init && es[|es| - 1] == e;
    assert forall x :: x in es <==> x in init || x == e;
    assert CreatedIds(es) == CreatedIds(init) + if e.Call? && e.op.CreateJob? then {e.op.jobId} else {};
    assert PhasedIds(es) == PhasedIds(init) + if e.Call? && e.op.SetPhases? then {e.op.jobId} else {};
    NextTarget(db0, p, e);
    if e.Call? {
      WritesTraced(p.jobs, Target(db0, p), e.op, e.now);
      TrackedIds(p.jobs, e.op, e.now);
    }
  }

  lemma TrackedIds(jobs: Jobs, op: Op, now: real)
    requires Registry(jobs)
    ensures Step(jobs, op, now).0.table.Keys <= jobs.table.Keys + if op.CreateJob? then {op.jobId} else {}
  {
    if op.CompleteJob? && op.jobId in jobs.table {
      CleanupKeepsNewest(jobs.Put(op.jobId, Update(jobs.table[op.jobId], op, now).0));
    }
  }

  // ---- exactly when a call that is not proper still mirrors ----------------------------

  predicate StatusMirrored(jobs: Jobs, db: Db, id: string) {
    && id in jobs.table && id in db.jobs && db.jobs[id].status == jobs.table[id].status
    && forall i :: 0 <= i < |jobs.table[id].phases| && Leads(jobs.table[id].phases, i) ==>
         var k := (id, jobs.table[id].phases[i].step);
         k in db.phases && db.phases[k].status == jobs.table[id].phases[i].status
  }

  /** Re-creating an id keeps the old row, so the status survives only if that row was pending. */
  lemma CreateMirrorsIff(jobs: Jobs, db: Db, op: Op, now: real)
    requires Registry(jobs) && op.CreateJob?
    ensures var (jobs', ws) := Step(jobs, op, now);
            StatusMirrored(jobs', Replay(db, ws), op.jobId) <==>
              op.jobId !in db.jobs || db.jobs[op.jobId].status == Pending
  {
    var (jobs', ws) := Step(jobs, op, now);
    W.ReplayOne(db, ws[0]);
  }

  /** What setting phases leaves in the rows: existing ones stay, new ones are pending. */
  lemma SetPhasesRows(jobs: Jobs, db: Db, op: Op, now: real)
    requires Registry(jobs) && op.SetPhases? && op.jobId in jobs.table && op.jobId in db.jobs
    ensures var (jobs', ws) := Step(jobs, op, now);
            var db', phases := Replay(db, ws), NewPhases(op.specs);
            && op.jobId in jobs'.table && jobs'.table[op.jobId].phases == phases &&
                jobs'.table[op.jobId].status == Running
            && op.jobId in db'.jobs && db'.jobs[op.jobId].status == Running
            && forall i :: 0 <= i < |phases| ==>
                 var k := (op.jobId, phases[i].step);
                 k in db'.phases && db'.phases[k].status == if k in db.phases then db.phases[k].status else PhasePending
  {
    var (jobs', ws) := Step(jobs, op, now);
    var id, phases := op.jobId, NewPhases(op.specs);
    var items := PhaseItems(phases);
    ReplayTwo(db, InsertPhases(id, items), TotalOf(jobs'.table[id]));
    assert ws == [InsertPhases(id, items), TotalOf(jobs'.table[id])];
    var db' := Replay(db, ws);
    forall i | 0 <= i < |phases|
      ensures var k := (id, phases[i].step);
              k in db'.phases && db'.phases[k].status == if k in db.phases then db.phases[k].status else PhasePending
    {
      var first := Find(phases, phases[i].step);
      assert items[first].0 == phases[i].step;
      InsertRowsAt(db.phases, id, items, (id, phases[i].step));
      assert forall m :: 0 <= m < first ==> items[m].0 != phases[i].step;
    }
  }

  /** With fresh phases, the first of each step decides for all phases of that step. */
  lemma LeadersDecide(phases: seq<PhaseInfo>, id: string, before: map<(string, int), PhaseRow>,
      after: map<(string, int), PhaseRow>)
    requires forall i :: 0 <= i < |phases| ==> phases[i].status == PhasePending
    requires forall i :: 0 <= i < |phases| ==>
               var k := (id, phases[i].step);
               k in after && after[k].status == if k in before then before[k].status else PhasePending
    ensures (forall i :: 0 <= i < |phases| && Leads(phases, i) ==>
               after[(id, phases[i].step)].status == phases[i].status)
       <==> (forall i :: 0 <= i < |phases| && (id, phases[i].step) in before ==>
               before[(id, phases[i].step)].status == PhasePending)
  {
    if forall i :: 0 <= i < |phases| && Leads(phases, i) ==> after[(id, phases[i].step)].status == phases[i].status {
      forall i | 0 <= i < |phases| && (id, phases[i].step) in before
        ensures before[(id, phases[i].step)].status == PhasePending
      {
        var first := Find(phases, phases[i].step);
        assert Leads(phases, first);
      }
    }
  }

  /** A job whose row was lost gets no row back by setting phases. */
  lemma SetPhasesNoRow(jobs: Jobs, db: Db, op: Op, now: real)
    requires Registry(jobs) && op.SetPhases? && op.jobId in jobs.table && op.jobId !in db.jobs
    ensures op.jobId !in Replay(db, Step(jobs, op, now).1).jobs
  {
    var ws := Step(jobs, op, now).1;
    assert ws == [ws[0], ws[1]];
    ReplayTwo(db, ws[0], ws[1]);
  }

  /** Setting phases over existing rows keeps those rows, so the statuses agree exactly
      when the job has its row and every phase row already there was still pending. */
  lemma SetPhasesMirrorsIff(jobs: Jobs, db: Db, op: Op, now: real)
    requires Registry(jobs) && op.SetPhases? && op.jobId in jobs.table
    ensures var (jobs', ws) := Step(jobs, op, now);
            var phases := NewPhases(op.specs);
            StatusMirrored(jobs', Replay(db, ws), op.jobId) <==>
              op.jobId in db.jobs &&
              forall i :: 0 <= i < |phases| && (op.jobId, phases[i].step) in db.phases ==>
                db.phases[(op.jobId, phases[i].step)].status == PhasePending
  {
    if op.jobId in db.jobs {
      SetPhasesRows(jobs, db, op, now);
      LeadersDecide(NewPhases(op.specs), op.jobId, db.phases, Replay(db, Step(jobs, op, now).1).phases);
    } else {
      SetPhasesNoRow(jobs, db, op, now);
    }
  }

  /** Completing a job with an empty session id or error keeps the stored one, so tracker and
      row agree on it exactly when there is a row and the new text is non-empty or the stored
      one was empty. */
  lemma SessionMirrorsIff(jobs: Jobs, db: Db, op: Op, now: real)
    requires Registry(jobs) && op.CompleteJob? && op.jobId in jobs.table
    ensures var j := Update(jobs.table[op.jobId], op, now).0;
            var id, db' := op.jobId, Replay(db, Step(jobs, op, now).1);
            && (id in db'.jobs && db'.jobs[id].sessionId == j.sessionId <==>
                id in db.jobs && (op.sessionId != "" || db.jobs[id].sessionId == ""))
            && (id in db'.jobs && db'.jobs[id].error == j.error <==>
                id in db.jobs && (op.error != "" || db.jobs[id].error == ""))
  {
    W.ReplayOne(db, Step(jobs, op, now).1[0]);
  }

  /** Likewise for the output of a phase completed with an empty text. */
  lemma OutputMirrorsIff(jobs: Jobs, db: Db, op: Op, now: real)
    requires Registry(jobs) && op.CompletePhase? && op.jobId in jobs.table
    requires Find(jobs.table[op.jobId].phases, op.step) < |jobs.table[op.jobId].phases|
    ensures var j := Update(jobs.table[op.jobId], op, now).0;
            var i, k := Find(jobs.table[op.jobId].phases, op.step), (op.jobId, op.step);
            var db' := Replay(db, Step(jobs, op, now).1);
            && |j.phases| == |jobs.table[op.jobId].phases|
            && (k in db'.phases && db'.phases[k].output == j.phases[i].output <==>
                k in db.phases && (op.output != "" || db.phases[k].output == ""))
  {
    W.ReplayOne(db, Step(jobs, op, now).1[0]);
  }

  // ---- runs in which tracker and rows come apart -----------------------------------------

  const EMPTY := Db(map[], map[])
  const CREATE := CreateJob("j", "project", "agent", "prompt", "", "")

  /** The tracked job and its rows, counting every scheduled write as run. */
  ghost predicate Reached(es: seq<Event>, jobs: Jobs, db: Db) {
    var s := Run(Start(10, EMPTY), es);
    s.jobs == jobs && Target(EMPTY, s) == db
  }

  lemma StartReached()
    ensures Reached([], Dict([], map[]), EMPTY)
  {
  }

  lemma CallReached(es: seq<Event>, jobs: Jobs, db: Db, op: Op, now: real)
    requires Registry(jobs) && Reached(es, jobs, db) && now > 0.0
    ensures Reached(es + [Call(op, now)], Step(jobs, op, now).0, Replay(db, Step(jobs, op, now).1))
  {
    assert (es + [Call(op, now)])[..|es|] == es;
    NextTarget(EMPTY, Run(Start(10, EMPTY), es), Call(op, now));
  }

  lemma CallIsProper(es: seq<Event>, jobs: Jobs, db: Db, op: Op, now: real)
    requires ProperRun(EMPTY, Start(10, EMPTY), es) && Reached(es, jobs, db) && Proper(jobs, db, op) && now > 0.0
    ensures ProperRun(EMPTY, Start(10, EMPTY), es + [Call(op, now)])
  {
    assert (es + [Call(op, now)])[..|es|] == es;
  }

  /** A job freshly created, and its row. */
  lemma CreatedReached() returns (es: seq<Event>, jobs: Jobs, db: Db)
    ensures Registry(jobs) && Reached(es, jobs, db) && ProperRun(EMPTY, Start(10, EMPTY), es)
    ensures jobs.keys == ["j"] && jobs.table == map["j" := NewJob(CREATE, 1.0)]
    ensures db.phases == map[] && db.jobs.Keys == {"j"} && JobMatches(jobs.table["j"], db.jobs["j"])
  {
    StartReached();
    CallReached([], Dict([], map[]), EMPTY, CREATE, 1.0);
    es := [] + [Call(CREATE, 1.0)];
    CallIsProper([], Dict([], map[]), EMPTY, CREATE, 1.0);
    jobs, db := Step(Dict([], map[]), CREATE, 1.0).0, Replay(EMPTY, Step(Dict([], map[]), CREATE, 1.0).1);
    W.ReplayOne(EMPTY, InsertOf(NewJob(CREATE, 1.0)));
  }

  /** Re-creating an id whose job has moved on leaves its old status in the row. */
  lemma CreateCanDiverge() returns (es: seq<Event>)
    ensures var s := Run(Start(10, EMPTY), es); !StatusMirrored(s.jobs, Target(EMPTY, s), "j")
  {
    var jobs, db;
    es, jobs, db := CreatedReached();
    var op := SetDecomposing("j");
    CallReached(es, jobs, db, op, 2.0);
    es := es + [Call(op, 2.0)];
    W.ReplayOne(db, Step(jobs, op, 2.0).1[0]);
    jobs, db := Step(jobs, op, 2.0).0, Replay(db, Step(jobs, op, 2.0).1);
    CreateMirrorsIff(jobs, db, CREATE, 3.0);
    CallReached(es, jobs, db, CREATE, 3.0);
    es := es + [Call(CREATE, 3.0)];
  }

  const ONE_PHASE := SetPhases("j", [PhaseSpec(Some(1), Some("only"))])

  /** One phase set, pending in tracker and row. */
  lemma PhaseReached() returns (es: seq<Event>, jobs: Jobs, db: Db)
    ensures Registry(jobs) && Reached(es, jobs, db) && "j" in jobs.table && "j" in db.jobs
    ensures jobs.table["j"].phases == NewPhases(ONE_PHASE.specs) && ("j", 1) in db.phases
  {
    es, jobs, db := CreatedReached();
    CallReached(es, jobs, db, ONE_PHASE, 2.0);
    es := es + [Call(ONE_PHASE, 2.0)];
    SetPhasesRows(jobs, db, ONE_PHASE, 2.0);
    assert NewPhases(ONE_PHASE.specs)[0].step == 1;
    jobs, db := Step(jobs, ONE_PHASE, 2.0).0, Replay(db, Step(jobs, ONE_PHASE, 2.0).1);
  }

  lemma StartedRow(jobs: Jobs, db: Db, op: Op, now: real)
    requires Registry(jobs) && op.StartPhase? && op.jobId in jobs.table && op.jobId in db.jobs
    requires Find(jobs.table[op.jobId].phases, op.step) < |jobs.table[op.jobId].phases| &&
        (op.jobId, op.step) in db.phases
    ensures var (jobs', ws) := Step(jobs, op, now);
            var db' := Replay(db, ws);
            && op.jobId in jobs'.table && op.jobId in db'.jobs
            && (op.jobId, op.step) in db'.phases && db'.phases[(op.jobId, op.step)].status == PhaseRunning
  {
    W.ReplayOne(db, Step(jobs, op, now).1[0]);
  }

  lemma RunningRowKept(jobs: Jobs, db: Db, now: real)
    requires Registry(jobs) && "j" in jobs.table && "j" in db.jobs
    requires ("j", 1) in db.phases && db.phases[("j", 1)].status == PhaseRunning
    ensures var (jobs', ws) := Step(jobs, ONE_PHASE, now); !StatusMirrored(jobs', Replay(db, ws), "j")
  {
    SetPhasesMirrorsIff(jobs, db, ONE_PHASE, now);
    assert NewPhases(ONE_PHASE.specs)[0].step == 1;
  }

  /** Setting the phases again after one has started leaves its old status in the row. */
  lemma SetPhasesCanDiverge() returns (es: seq<Event>)
    ensures var s := Run(Start(10, EMPTY), es); !StatusMirrored(s.jobs, Target(EMPTY, s), "j")
  {
    var jobs, db;
    es, jobs, db := PhaseReached();
    var op := StartPhase("j", 1);
    assert NewPhases(ONE_PHASE.specs)[0].step == 1;
    StartedRow(jobs, db, op, 3.0);
    CallReached(es, jobs, db, op, 3.0);
    es, jobs, db := es + [Call(op, 3.0)], Step(jobs, op, 3.0).0, Replay(db, Step(jobs, op, 3.0).1);
    RunningRowKept(jobs, db, 4.0);
    CallReached(es, jobs, db, ONE_PHASE, 4.0);
    es := es + [Call(ONE_PHASE, 4.0)];
  }

  /** What completing a single-phase job's phase leaves in tracker and row. */
  lemma CompletedRow(jobs: Jobs, db: Db, op: Op, now: real)
    requires Registry(jobs) && op.CompletePhase? && op.jobId in jobs.table && |op.output| <= OUTPUT_LIMIT
    requires |jobs.table[op.jobId].phases| == 1 && jobs.table[op.jobId].phases[0].step == op.step &&
        (op.jobId, op.step) in db.phases
    ensures var (jobs', ws) := Step(jobs, op, now);
            var db', k := Replay(db, ws), (op.jobId, op.step);
            && op.jobId in jobs'.table && |jobs'.table[op.jobId].phases| == 1
            && jobs'.table[op.jobId].phases[0].step == op.step && jobs'.table[op.jobId].phases[0].output == op.output
            && k in db'.phases && db'.phases[k].output == KeepIfEmpty(op.output, db.phases[k].output)
  {
    W.ReplayOne(db, Step(jobs, op, now).1[0]);
  }

  /** Completing a phase twice, the second time without output, leaves the first output in the row. */
  lemma OutputCanDiverge() returns (es: seq<Event>)
    ensures var s := Run(Start(10, EMPTY), es);
            && "j" in s.jobs.table && |s.jobs.table["j"].phases| == 1 && ("j", 1) in Target(EMPTY, s).phases
            && s.jobs.table["j"].phases[0].output == "" && Target(EMPTY, s).phases[("j", 1)].output == "out"
  {
    var jobs, db;
    es, jobs, db := PhaseReached();
    var a, b := CompletePhase("j", 1, true, "out", []), CompletePhase("j", 1, true, "", []);
    assert NewPhases(ONE_PHASE.specs)[0].step == 1;
    CompletedRow(jobs, db, a, 3.0);
    CallReached(es, jobs, db, a, 3.0);
    es, jobs, db := es + [Call(a, 3.0)], Step(jobs, a, 3.0).0, Replay(db, Step(jobs, a, 3.0).1);
    CompletedRow(jobs, db, b, 4.0);
    CallReached(es, jobs, db, b, 4.0);
    es := es + [Call(b, 4.0)];
  }

  /** What completing a job leaves in tracker and row, with too few jobs to evict any. */
  lemma EndedRow(jobs: Jobs, db: Db, op: Op, now: real)
    requires Registry(jobs) && op.CompleteJob? && op.jobId in jobs.table && op.jobId in db.jobs
    requires |jobs.keys| <= MAX_HISTORY
    ensures var (jobs', ws) := Step(jobs, op, now);
            var db' := Replay(db, ws);
            && jobs'.keys == jobs.keys && op.jobId in jobs'.table && jobs'.table[op.jobId].sessionId == op.sessionId
            && op.jobId in db'.jobs &&
                db'.jobs[op.jobId].sessionId == KeepIfEmpty(op.sessionId, db.jobs[op.jobId].sessionId)
  {
    W.ReplayOne(db, Step(jobs, op, now).1[0]);
    var put := jobs.Put(op.jobId, Update(jobs.table[op.jobId], op, now).0);
    assert Victims(put) == [];
    assert Cleanup(put) == put;
  }

  /** Completing a job twice, the second time without a session id, leaves the first id in
      the row, although the run respects everything a caller must and so mirrors the rest. */
  lemma SessionCanDiverge() returns (es: seq<Event>)
    ensures ProperRun(EMPTY, Start(10, EMPTY), es)
    ensures var s := Run(Start(10, EMPTY), es);
            && "j" in s.jobs.table && "j" in Target(EMPTY, s).jobs && Mirrors(s.jobs, Target(EMPTY, s))
            && s.jobs.table["j"].sessionId == "" && Target(EMPTY, s).jobs["j"].sessionId == "s1"
  {
    var jobs, db;
    es, jobs, db := CreatedReached();
    var a, b := CompleteJob("j", true, "s1", ""), CompleteJob("j", true, "", "");
    CallIsProper(es, jobs, db, a, 2.0);
    EndedRow(jobs, db, a, 2.0);
    CallReached(es, jobs, db, a, 2.0);
    es, jobs, db := es + [Call(a, 2.0)], Step(jobs, a, 2.0).0, Replay(db, Step(jobs, a, 2.0).1);
    CallIsProper(es, jobs, db, b, 3.0);
    EndedRow(jobs, db, b, 3.0);
    CallReached(es, jobs, db, b, 3.0);
    es := es + [Call(b, 3.0)];
    RunMirrors(10, EMPTY, es);
  }
}
