/** The SQL layer as functions on row maps, with its NULL (`COALESCE`) and
    empty-string "keep the old value" conventions. */
module JobStore {
  import opened Prelude
  import opened JobModels

  datatype JobRow = JobRow(
    project: string, agent: string, prompt: string, status: JobStatus,
    user: string, channel: string, startedAt: real,
    finishedAt: Option<real>, duration: Option<real>,
    totalPhases: int, sessionId: string, error: string)

  datatype PhaseRow = PhaseRow(
    title: string, status: PhaseStatus,
    startedAt: Option<real>, finishedAt: Option<real>, duration: Option<real>,
    output: string, filesChanged: seq<string>)

  datatype Db = Db(jobs: map<string, JobRow>, phases: map<PhaseKey, PhaseRow>)

  /** One statement with its arguments already evaluated, as a queued coroutine holds it. */
  datatype Write =
    | InsertJob(jobId: string, project: string, agent: string, prompt: string,
                user: string, channel: string, startedAt: real, jobStatus: JobStatus)
    | UpdateJob(jobId: string, jobStatus: JobStatus, finishedAt: Option<real>, duration: Option<real>,
                sessionId: string, error: string, totalPhases: Option<int>)
    | InsertPhases(jobId: string, items: seq<(int, string)>)
    | UpdatePhase(jobId: string, step: int, phaseStatus: PhaseStatus,
                  phaseStartedAt: Option<real>, finishedAt: Option<real>, duration: Option<real>,
                  output: string, filesChanged: Option<seq<string>>)

  function Coalesce<T>(patch: Option<T>, kept: Option<T>): Option<T> {
    if patch.Some? then patch else kept
  }

  function KeepIfEmpty(patch: string, kept: string): string {
    if patch != "" then patch else kept
  }

  function NewPhaseRow(title: string): PhaseRow {
    PhaseRow(title, PhasePending, None, None, None, "", [])
  }

  function PatchJob(r: JobRow, w: Write): JobRow
    requires w.UpdateJob?
  {
    r.(status := w.jobStatus,
       finishedAt := Coalesce(w.finishedAt, r.finishedAt),
       duration := Coalesce(w.duration, r.duration),
       sessionId := KeepIfEmpty(w.sessionId, r.sessionId),
       error := KeepIfEmpty(w.error, r.error),
       totalPhases := if w.totalPhases.Some? then w.totalPhases.value else r.totalPhases)
  }

  function PatchPhase(r: PhaseRow, w: Write): PhaseRow
    requires w.UpdatePhase?
  {
    r.(status := w.phaseStatus,
       startedAt := Coalesce(w.phaseStartedAt, r.startedAt),
       finishedAt := Coalesce(w.finishedAt, r.finishedAt),
       duration := Coalesce(w.duration, r.duration),
       output := KeepIfEmpty(w.output, r.output),
       filesChanged := if w.filesChanged.Some? then w.filesChanged.value else r.filesChanged)
  }

  /** `ON CONFLICT (job_id, step) DO NOTHING`, row after row. */
  function InsertRows(rows: map<PhaseKey, PhaseRow>, jobId: string, items: seq<(int, string)>)
    : map<PhaseKey, PhaseRow>
  {
    if items == [] then rows
    else
      var done := InsertRows(rows, jobId, items[..|items| - 1]);
      var item := items[|items| - 1];
      if (jobId, item.0) in done then done else done[(jobId, item.0) := NewPhaseRow(item.1)]
  }

  /** The foreign key from `coding_phases` to `coding_jobs` refuses orphan phases. */
  predicate Refused(db: Db, w: Write) {
    w.InsertPhases? && w.items != [] && w.jobId !in db.jobs
  }

  function Apply(db: Db, w: Write): Db {
    match w
    case InsertJob(id, project, agent, prompt, user, channel, startedAt, status) =>
      if id in db.jobs then db
      else db.(jobs := db.jobs[id := JobRow(project, agent, prompt, status, user, channel, startedAt,
                                            None, None, 0, "", "")])
    case UpdateJob(id, _, _, _, _, _, _) =>
      if id in db.jobs then db.(jobs := db.jobs[id := PatchJob(db.jobs[id], w)]) else db
    case InsertPhases(id, items) =>
      if Refused(db, w) then db else db.(phases := InsertRows(db.phases, id, items))
    case UpdatePhase(id, step, _, _, _, _, _, _) =>
      var k := (id, step);
      if k in db.phases then db.(phases := db.phases[k := PatchPhase(db.phases[k], w)]) else db
  }

  function Replay(db: Db, ws: seq<Write>): Db {
    if ws == [] then db else Apply(Replay(db, ws[..|ws| - 1]), ws[|ws| - 1])
  }

  /** Every phase row belongs to a job row. */
  ghost predicate ForeignKeyHolds(db: Db) {
    forall k :: k in db.phases ==> k.0 in db.jobs
  }

  // ---- what bulk insertion does, row by row --------------------------------

  /** Existing rows survive untouched; a new step gets a pending row titled by its first occurrence. */
  lemma {:induction false} InsertRowsAt(rows: map<PhaseKey, PhaseRow>, jobId: string, items: seq<(int, string)>,
      k: PhaseKey)
    ensures k in rows ==> k in InsertRows(rows, jobId, items) && InsertRows(rows, jobId, items)[k] == rows[k]
    ensures k !in rows ==>
      (k in InsertRows(rows, jobId, items) <==> k.0 == jobId && exists i :: 0 <= i < |items| && items[i].0 == k.1)
    ensures forall i :: k !in rows && k.0 == jobId && 0 <= i < |items| && items[i].0 == k.1
                        && (forall j :: 0 <= j < i ==> items[j].0 != k.1)
              ==> k in InsertRows(rows, jobId, items) && InsertRows(rows, jobId, items)[k] == NewPhaseRow(items[i].1)
  {
    if items != [] {
      var init := items[..|items| - 1];
      InsertRowsAt(rows, jobId, init, k);
      assert forall i :: 0 <= i < |init| ==> init[i] == items[i];
      if k !in rows && k.0 == jobId && items[|items| - 1].0 == k.1 {
        assert k in InsertRows(rows, jobId, items);
      }
    }
  }

  lemma {:induction false} InsertRowsTwice(rows: map<PhaseKey, PhaseRow>, jobId: string, items: seq<(int, string)>)
    ensures InsertRows(InsertRows(rows, jobId, items), jobId, items) == InsertRows(rows, jobId, items)
  {
    var once := InsertRows(rows, jobId, items);
    var twice := InsertRows(once, jobId, items);
    forall k ensures k in twice <==> k in once
             ensures k in once ==> twice[k] == once[k]
    {
      InsertRowsAt(rows, jobId, items, k);
      InsertRowsAt(once, jobId, items, k);
    }
  }

  /** Re-running a statement that already committed changes nothing. */
  lemma ApplyIdempotent(db: Db, w: Write)
    ensures Apply(Apply(db, w), w) == Apply(db, w)
  {
    if w.InsertPhases? && !Refused(db, w) {
      InsertRowsTwice(db.phases, w.jobId, w.items);
    }
  }

  lemma {:induction false} ReplayConcat(db: Db, a: seq<Write>, b: seq<Write>)
    ensures Replay(db, a + b) == Replay(Replay(db, a), b)
  {
    if b == [] {
      assert a + b == a;
    } else {
      assert (a + b)[..|a + b| - 1] == a + b[..|b| - 1];
      ReplayConcat(db, a, b[..|b| - 1]);
    }
  }

  lemma {:induction false} ForeignKeyKept(db: Db, w: Write)
    requires ForeignKeyHolds(db)
    ensures ForeignKeyHolds(Apply(db, w))
    ensures db.jobs.Keys <= Apply(db, w).jobs.Keys
  {
    if w.InsertPhases? && !Refused(db, w) {
      forall k | k in Apply(db, w).phases ensures k.0 in Apply(db, w).jobs {
        InsertRowsAt(db.phases, w.jobId, w.items, k);
      }
    }
  }

  /** A job row comes from its insertion and from nothing else, and stays. */
  lemma {:induction false} ReplayJobRow(db: Db, ws: seq<Write>, id: string)
    ensures id in Replay(db, ws).jobs <==>
            id in db.jobs || exists i :: 0 <= i < |ws| && ws[i].InsertJob? && ws[i].jobId == id
  {
    if ws != [] {
      var init, last := ws[..|ws| - 1], ws[|ws| - 1];
      ReplayJobRow(db, init, id);
      assert forall i :: 0 <= i < |init| ==> init[i] == ws[i];
      assert id in Apply(Replay(db, init), last).jobs <==>
             id in Replay(db, init).jobs || (last.InsertJob? && last.jobId == id);
    }
  }

  // ---- one job's rows ----------------------------------------------------------

  function PhasesOf(rows: map<PhaseKey, PhaseRow>, id: string): map<PhaseKey, PhaseRow> {
    map k | k in rows && k.0 == id :: rows[k]
  }

  /** The rows of one job. */
  function Slice(db: Db, id: string): Db {
    Db(map k | k in db.jobs && k == id :: db.jobs[k], PhasesOf(db.phases, id))
  }

  /** The writes about one job. */
  function Own(ws: seq<Write>, id: string): seq<Write> {
    if ws == [] then []
    else
      var last := ws[|ws| - 1];
      Own(ws[..|ws| - 1], id) + if last.jobId == id then [last] else []
  }

  lemma {:induction false} InsertRowsSlice(rows: map<PhaseKey, PhaseRow>, jobId: string, items: seq<(int, string)>,
      id: string)
    ensures PhasesOf(InsertRows(rows, jobId, items), id) ==
            if jobId == id then InsertRows(PhasesOf(rows, id), jobId, items) else PhasesOf(rows, id)
  {
    if items != [] {
      InsertRowsSlice(rows, jobId, items[..|items| - 1], id);
    }
  }

  lemma SlicePutJob(db: Db, key: string, row: JobRow, id: string)
    ensures var s := Slice(db, id);
            Slice(db.(jobs := db.jobs[key := row]), id) == if key == id then s.(jobs := s.jobs[key := row]) else s
  {
    var s, s' := Slice(db, id), Slice(db.(jobs := db.jobs[key := row]), id);
    assert s'.jobs == if key == id then s.jobs[key := row] else s.jobs;
  }

  lemma SlicePutPhase(db: Db, key: PhaseKey, row: PhaseRow, id: string)
    ensures var s := Slice(db, id);
            var s' := Slice(db.(phases := db.phases[key := row]), id);
            s' == if key.0 == id then s.(phases := s.phases[key := row]) else s
  {
    var s, s' := Slice(db, id), Slice(db.(phases := db.phases[key := row]), id);
    assert s'.phases == if key.0 == id then s.phases[key := row] else s.phases;
  }

  /** A write works on its own job's rows as if there were no others, and on no others. */
  lemma SliceApply(db: Db, w: Write, id: string)
    ensures Slice(Apply(db, w), id) == if w.jobId == id then Apply(Slice(db, id), w) else Slice(db, id)
  {
    match w
    case InsertJob(key, project, agent, prompt, user, channel, startedAt, status) =>
      SlicePutJob(db, key, JobRow(project, agent, prompt, status, user, channel, startedAt, None, None, 0, "", ""), id);
    case UpdateJob(key, _, _, _, _, _, _) =>
      if key in db.jobs { SlicePutJob(db, key, PatchJob(db.jobs[key], w), id); }
    case InsertPhases(_, _) =>
      InsertRowsSlice(db.phases, w.jobId, w.items, id);
    case UpdatePhase(key, step, _, _, _, _, _, _) =>
      if (key, step) in db.phases { SlicePutPhase(db, (key, step), PatchPhase(db.phases[(key, step)], w), id); }
  }

  /** One job's rows after any writes come from its own rows and its own writes. */
  lemma {:induction false} SliceReplay(db: Db, ws: seq<Write>, id: string)
    ensures Slice(Replay(db, ws), id) == Replay(Slice(db, id), Own(ws, id))
  {
    if ws != [] {
      var init, last := ws[..|ws| - 1], ws[|ws| - 1];
      SliceReplay(db, init, id);
      SliceApply(Replay(db, init), last, id);
      var own := Own(init, id);
      assert (own + [last])[..|own|] == own;
      assert own + [] == own;
    }
  }

  // ---- the store object ------------------------------------------------------

  class Store {
    var jobs: map<string, JobRow>
    var phases: map<PhaseKey, PhaseRow>

    constructor (rows: Db)
      ensures Rows() == rows
    {
      jobs, phases := rows.jobs, rows.phases;
    }

    function Rows(): Db
      reads this
    {
      Db(jobs, phases)
    }

    /** Runs one statement; `ok` is false when the database raises. */
    method Execute(w: Write) returns (ok: bool)
      modifies this
      ensures ok == !Refused(old(Rows()), w)
      ensures Rows() == Apply(old(Rows()), w)
    {
      ok := true;
      match w
      case InsertJob(id, project, agent, prompt, user, channel, startedAt, status) =>
        if id !in jobs {
          jobs := jobs[id := JobRow(project, agent, prompt, status, user, channel, startedAt,
                                    None, None, 0, "", "")];
        }
      case UpdateJob(id, _, _, _, _, _, _) =>
        if id in jobs {
          jobs := jobs[id := PatchJob(jobs[id], w)];
        }
      case InsertPhases(id, items) =>
        if items != [] {
          ok := id in jobs;
          if ok {
            InsertAll(id, items);
          }
        }
      case UpdatePhase(id, step, _, _, _, _, _, _) =>
        if (id, step) in phases {
          phases := phases[(id, step) := PatchPhase(phases[(id, step)], w)];
        }
    }

    /** `executemany`: one insert per item, skipping taken (job, step) pairs. */
    method InsertAll(id: string, items: seq<(int, string)>)
      modifies this`phases
      ensures phases == InsertRows(old(phases), id, items)
    {
      for i := 0 to |items|
        invariant phases == InsertRows(old(phases), id, items[..i])
      {
        assert items[..i + 1][..i] == items[..i];
        if (id, items[i].0) !in phases {
          phases := phases[(id, items[i].0) := NewPhaseRow(items[i].1)];
        }
      }
      assert items[..|items|] == items;
    }
  }
}
