/** The in-memory job registry and the writes each lifecycle call schedules. */
module JobTracker {
  import opened Prelude
  import opened JobModels
  import opened JobStore
  import L = JobLogStream
  import W = JobDbWriter

  type Jobs = Dict<string, JobInfo>

  const MAX_HISTORY: nat := 50
  const OUTPUT_LIMIT: nat := 500

  /** A phase description whose `step` and `title` keys may be missing. */
  datatype PhaseSpec = PhaseSpec(step: Option<int>, title: Option<string>)

  datatype Op =
    | CreateJob(jobId: string, project: string, agent: string, prompt: string, user: string, channel: string)
    | SetDecomposing(jobId: string)
    | SetPhases(jobId: string, specs: seq<PhaseSpec>)
    | StartPhase(jobId: string, step: int)
    | CompletePhase(jobId: string, step: int, success: bool, output: string, files: seq<string>)
    | CompleteJob(jobId: string, success: bool, sessionId: string, error: string)
    | CancelJob(jobId: string)

  ghost predicate Registry(jobs: Jobs) {
    jobs.Valid() && forall id :: id in jobs.table ==> jobs.table[id].jobId == id
  }

  function Utc(t: real): Option<real> {
    if t == 0.0 then None else Some(t)
  }

  function Decimal(n: nat): string {
    if n < 10 then [('0' as int + n) as char] else Decimal(n / 10) + Decimal(n % 10)
  }

  function NewJob(op: Op, now: real): JobInfo
    requires op.CreateJob?
  {
    JobInfo(op.jobId, op.project, op.agent, op.prompt, Pending, [], 0, 0, now, 0.0, 0.0, "", "", op.user, op.channel)
  }

  function NewPhase(spec: PhaseSpec, i: nat): PhaseInfo {
    PhaseInfo(if spec.step.Some? then spec.step.value else i + 1,
              if spec.title.Some? then spec.title.value else "Phase " + Decimal(i + 1),
              PhasePending, 0.0, 0.0, 0.0, "", [])
  }

  function NewPhases(specs: seq<PhaseSpec>): (r: seq<PhaseInfo>)
    ensures |r| == |specs|
  {
    seq(|specs|, i requires 0 <= i < |specs| => NewPhase(specs[i], i))
  }

  function PhaseItems(phases: seq<PhaseInfo>): (r: seq<(int, string)>)
    ensures |r| == |phases|
    ensures forall i :: 0 <= i < |r| ==> r[i] == (phases[i].step, phases[i].title)
  {
    seq(|phases|, i requires 0 <= i < |phases| => (phases[i].step, phases[i].title))
  }

  /** Index of the first phase with this step, or the length when there is none. */
  function Find(phases: seq<PhaseInfo>, step: int): (i: nat)
    ensures i <= |phases|
    ensures i < |phases| ==> phases[i].step == step
    ensures forall j :: 0 <= j < i ==> phases[j].step != step
  {
    if phases == [] then 0
    else if phases[0].step == step then 0
    else 1 + Find(phases[1..], step)
  }

  function Started(p: PhaseInfo, now: real): PhaseInfo {
    p.(status := PhaseRunning, startedAt := now)
  }

  function Finished(p: PhaseInfo, success: bool, output: string, files: seq<string>, now: real): PhaseInfo {
    p.(status := if success then PhaseCompleted else PhaseFailed,
       finishedAt := now,
       duration := if p.startedAt != 0.0 then now - p.startedAt else 0.0,
       output := if |output| > OUTPUT_LIMIT then output[..OUTPUT_LIMIT] else output,
       filesChanged := files)
  }

  function Ended(j: JobInfo, status: JobStatus, now: real): JobInfo {
    j.(status := status, finishedAt := now, duration := now - j.startedAt)
  }

  predicate IsTerminal(s: JobStatus) {
    s == Completed || s == Failed || s == Cancelled
  }

  // ---- the writes -----------------------------------------------------------

  function InsertOf(j: JobInfo): Write {
    InsertJob(j.jobId, j.project, j.agent, j.prompt, j.user, j.channel, j.startedAt, j.status)
  }

  function StatusOf(j: JobInfo): Write {
    UpdateJob(j.jobId, j.status, None, None, "", "", None)
  }

  function TotalOf(j: JobInfo): Write {
    UpdateJob(j.jobId, j.status, None, None, "", "", Some(j.totalPhases))
  }

  function TerminalOf(j: JobInfo, sessionId: string, error: string): Write {
    UpdateJob(j.jobId, j.status, Utc(j.finishedAt), Some(j.duration), sessionId, error, None)
  }

  function StartedOf(jobId: string, p: PhaseInfo): Write {
    UpdatePhase(jobId, p.step, PhaseRunning, Utc(p.startedAt), None, None, "", None)
  }

  function FinishedOf(jobId: string, p: PhaseInfo): Write {
    UpdatePhase(jobId, p.step, p.status, None, Utc(p.finishedAt), Some(p.duration), p.output, Some(p.filesChanged))
  }

  // ---- one lifecycle call ------------------------------------------------------

  /** The job a call leaves behind and the writes it schedules, when the id is tracked. */
  function Update(j: JobInfo, op: Op, now: real): (JobInfo, seq<Write>)
    requires !op.CreateJob?
  {
    match op
    case SetDecomposing(_) =>
      var j' := j.(status := Decomposing);
      (j', [StatusOf(j')])
    case SetPhases(id, specs) =>
      var j' := j.(totalPhases := |specs|, phases := NewPhases(specs), status := Running);
      (j', [InsertPhases(id, PhaseItems(j'.phases)), TotalOf(j')])
    case StartPhase(id, step) =>
      var i := Find(j.phases, step);
      if i < |j.phases| then
        var p := Started(j.phases[i], now);
        (j.(currentPhase := step, phases := j.phases[i := p]), [StartedOf(id, p)])
      else (j.(currentPhase := step), [])
    case CompletePhase(id, step, success, output, files) =>
      var i := Find(j.phases, step);
      if i < |j.phases| then
        var p := Finished(j.phases[i], success, output, files, now);
        (j.(phases := j.phases[i := p]), [FinishedOf(id, p)])
      else (j, [])
    case CompleteJob(_, success, sessionId, error) =>
      var j' := Ended(j, if success then Completed else Failed, now).(sessionId := sessionId, error := error);
      (j', [TerminalOf(j', sessionId, error)])
    case CancelJob(_) =>
      if j.status == Completed || j.status == Failed then (j, [])
      else
        var j' := Ended(j, Cancelled, now);
        (j', [TerminalOf(j', "", "")])
    case CreateJob(_, _, _, _, _, _) => (j, [])
  }

  function Step(jobs: Jobs, op: Op, now: real): (Jobs, seq<Write>)
    requires Registry(jobs)
  {
    if op.CreateJob? then (jobs.Put(op.jobId, NewJob(op, now)), [InsertOf(NewJob(op, now))])
    else if op.jobId !in jobs.table then (jobs, [])
    else
      var (j, writes) := Update(jobs.table[op.jobId], op, now);
      var jobs' := jobs.Put(op.jobId, j);
      (if op.CompleteJob? then Cleanup(jobs') else jobs', writes)
  }

  // ---- history eviction -----------------------------------------------------------

  function TerminalJobs(jobs: Jobs, keys: seq<string>): (r: seq<JobInfo>)
    requires forall k :: k in keys ==> k in jobs.table
    ensures |r| <= |keys|
  {
    if keys == [] then []
    else
      var rest := TerminalJobs(jobs, keys[..|keys| - 1]);
      var j := jobs.table[keys[|keys| - 1]];
      if IsTerminal(j.status) then rest + [j] else rest
  }

  function FinishTime(j: JobInfo): real {
    j.finishedAt
  }

  /** Oldest-finished terminal jobs beyond the history limit. */
  function Victims(jobs: Jobs): seq<JobInfo>
    requires jobs.Valid()
  {
    var done := TerminalJobs(jobs, jobs.keys);
    if |done| > MAX_HISTORY then SortBy(FinishTime, done)[..|done| - MAX_HISTORY] else []
  }

  function RemoveKey(keys: seq<string>, k: string): (r: seq<string>)
    ensures forall x :: x in r <==> x in keys && x != k
  {
    if keys == [] then []
    else
      assert keys == [keys[0]] + keys[1..];
      if keys[0] == k then RemoveKey(keys[1..], k) else [keys[0]] + RemoveKey(keys[1..], k)
  }

  lemma {:induction false} RemoveKeyDistinct(keys: seq<string>, k: string)
    requires Distinct(keys)
    ensures Distinct(RemoveKey(keys, k))
  {
    if keys != [] {
      RemoveKeyDistinct(keys[1..], k);
      assert keys[0] !in keys[1..];
    }
  }

  /** `dict.pop(k, None)`. */
  function Pop(jobs: Jobs, k: string): (r: Jobs)
    requires Registry(jobs)
    ensures Registry(r)
    ensures r.table == jobs.table - {k}
  {
    RemoveKeyDistinct(jobs.keys, k);
    Dict(RemoveKey(jobs.keys, k), jobs.table - {k})
  }

  function PopAll(jobs: Jobs, victims: seq<JobInfo>): (r: Jobs)
    requires Registry(jobs)
    ensures Registry(r)
    ensures r.table == jobs.table - (set j | j in victims :: j.jobId)
  {
    if victims == [] then jobs
    else
      var init, last := victims[..|victims| - 1], victims[|victims| - 1];
      assert forall j :: j in victims <==> j in init || j == last;
      assert (set j | j in victims :: j.jobId) == (set j | j in init :: j.jobId) + {last.jobId};
      Pop(PopAll(jobs, init), last.jobId)
  }

  function Cleanup(jobs: Jobs): (r: Jobs)
    requires Registry(jobs)
    ensures Registry(r)
  {
    PopAll(jobs, Victims(jobs))
  }

  lemma {:induction false} TerminalJobsIn(jobs: Jobs, keys: seq<string>, j: JobInfo)
    requires Registry(jobs) && forall k :: k in keys ==> k in jobs.table
    ensures j in TerminalJobs(jobs, keys) <==> j.jobId in keys && jobs.table[j.jobId] == j && IsTerminal(j.status)
  {
    if keys != [] {
      var init, last := keys[..|keys| - 1], keys[|keys| - 1];
      TerminalJobsIn(jobs, init, j);
      assert keys == init + [last];
    }
  }

  lemma {:induction false} TerminalJobsDistinct(jobs: Jobs, keys: seq<string>)
    requires Registry(jobs) && Distinct(keys) && forall k :: k in keys ==> k in jobs.table
    ensures Distinct(TerminalJobs(jobs, keys))
  {
    if keys != [] {
      var init, last := keys[..|keys| - 1], keys[|keys| - 1];
      TerminalJobsDistinct(jobs, init);
      TerminalJobsIn(jobs, init, jobs.table[last]);
    }
  }

  function TerminalIds(jobs: Jobs): set<string> {
    set id | id in jobs.table && IsTerminal(jobs.table[id].status)
  }

  lemma {:induction false} IdsOfDistinct(js: seq<JobInfo>)
    requires Distinct(js) && forall a, b :: 0 <= a < b < |js| ==> js[a].jobId != js[b].jobId
    ensures |set j | j in js :: j.jobId| == |js|
  {
    if js != [] {
      var init, last := js[..|js| - 1], js[|js| - 1];
      IdsOfDistinct(init);
      var ids := set j | j in init :: j.jobId;
      assert last.jobId !in ids;
      assert js == init + [last];
      assert (set j | j in js :: j.jobId) == ids + {last.jobId};
    }
  }

  lemma TerminalCount(jobs: Jobs)
    requires Registry(jobs)
    ensures var done := TerminalJobs(jobs, jobs.keys);
            && |TerminalIds(jobs)| == |done|
            && (forall j :: j in done <==> j.jobId in TerminalIds(jobs) && jobs.table[j.jobId] == j)
  {
    var done := TerminalJobs(jobs, jobs.keys);
    TerminalJobsDistinct(jobs, jobs.keys);
    forall j ensures j in done <==> j.jobId in TerminalIds(jobs) && jobs.table[j.jobId] == j {
      TerminalJobsIn(jobs, jobs.keys, j);
    }
    assert (set j | j in done :: j.jobId) == TerminalIds(jobs) by {
      forall id | id in TerminalIds(jobs) ensures id in (set j | j in done :: j.jobId) {
        assert jobs.table[id] in done;
      }
    }
    forall a, b | 0 <= a < b < |done| ensures done[a].jobId != done[b].jobId {
      assert done[a] in done && done[b] in done;
    }
    IdsOfDistinct(done);
  }

  /** Jobs tracked under their own ids have one id each. */
  lemma TrackedIdsDiffer(jobs: Jobs, js: seq<JobInfo>)
    requires Distinct(js) && forall j :: j in js ==> j.jobId in jobs.table && jobs.table[j.jobId] == j
    ensures forall a, b :: 0 <= a < b < |js| ==> js[a].jobId != js[b].jobId
  {
    forall a, b | 0 <= a < b < |js| ensures js[a].jobId != js[b].jobId {
      assert js[a] in js && js[b] in js;
    }
  }

  lemma VictimsTerminal(jobs: Jobs)
    requires Registry(jobs)
    ensures Distinct(Victims(jobs)) && forall j :: j in Victims(jobs) ==> j in TerminalJobs(jobs, jobs.keys)
  {
    var done, victims := TerminalJobs(jobs, jobs.keys), Victims(jobs);
    TerminalJobsDistinct(jobs, jobs.keys);
    SortByElements(FinishTime, done);
    var sorted := SortBy(FinishTime, done);
    assert victims == [] || victims == sorted[..|victims|];
    assert forall a :: 0 <= a < |sorted| ==> sorted[a] in sorted;
  }

  lemma VictimsTracked(jobs: Jobs)
    requires Registry(jobs)
    ensures Distinct(Victims(jobs))
    ensures forall j :: j in Victims(jobs) ==> j.jobId in TerminalIds(jobs) && jobs.table[j.jobId] == j
  {
    VictimsTerminal(jobs);
    TerminalCount(jobs);
  }

  lemma VictimIds(jobs: Jobs)
    requires Registry(jobs)
    ensures var ids := set j | j in Victims(jobs) :: j.jobId;
            ids <= TerminalIds(jobs) && |ids| == |Victims(jobs)|
  {
    VictimsTracked(jobs);
    TrackedIdsDiffer(jobs, Victims(jobs));
    IdsOfDistinct(Victims(jobs));
  }

  /** In a sorted list nothing outside a prefix is smaller than something inside. */
  lemma PrefixOldest(sorted: seq<JobInfo>, n: nat, a: nat, kept: JobInfo)
    requires SortedBy(FinishTime, sorted) && a < n <= |sorted| && kept in sorted && kept !in sorted[..n]
    ensures sorted[a].finishedAt <= kept.finishedAt
  {
    var b :| 0 <= b < |sorted| && sorted[b] == kept;
    assert forall k :: 0 <= k < n ==> sorted[..n][k] == sorted[k] && sorted[k] in sorted[..n];
    assert FinishTime(sorted[a]) <= FinishTime(sorted[b]);
  }

  lemma VictimsOldest(jobs: Jobs, a: nat, kept: JobInfo)
    requires Registry(jobs) && a < |Victims(jobs)|
    requires kept in TerminalJobs(jobs, jobs.keys) && kept !in Victims(jobs)
    ensures Victims(jobs)[a].finishedAt <= kept.finishedAt
  {
    var done := TerminalJobs(jobs, jobs.keys);
    SortBySorted(FinishTime, done);
    SortByElements(FinishTime, done);
    PrefixOldest(SortBy(FinishTime, done), |done| - MAX_HISTORY, a, kept);
  }

  /** Eviction keeps every live job, leaves at most the history limit of terminal
      ones, evicts nothing below the limit, and never evicts a job that finished
      after one it keeps. */
  lemma CleanupKeepsNewest(jobs: Jobs)
    requires Registry(jobs)
    ensures var r := Cleanup(jobs);
            && r.table.Keys <= jobs.table.Keys
            && (forall id :: id in r.table ==> r.table[id] == jobs.table[id])
            && (forall id :: id in jobs.table && id !in r.table ==> IsTerminal(jobs.table[id].status))
            && (forall id, kept :: id in jobs.table && id !in r.table && kept in TerminalIds(r)
                  ==> jobs.table[id].finishedAt <= jobs.table[kept].finishedAt)
            && |TerminalIds(r)| == if |TerminalIds(jobs)| > MAX_HISTORY then MAX_HISTORY else |TerminalIds(jobs)|
  {
    CleanupCount(jobs);
    var victims, r := Victims(jobs), Cleanup(jobs);
    forall id, kept | id in jobs.table && id !in r.table && kept in TerminalIds(r)
      ensures jobs.table[id].finishedAt <= jobs.table[kept].finishedAt
    {
      assert id in (set j | j in victims :: j.jobId);
      var a :| 0 <= a < |victims| && victims[a].jobId == id;
      CleanupOrder(jobs, a, kept);
    }
  }

  lemma CleanupCount(jobs: Jobs)
    requires Registry(jobs)
    ensures var gone, r := set j | j in Victims(jobs) :: j.jobId, Cleanup(jobs);
            && gone <= TerminalIds(jobs)
            && r.table == jobs.table - gone
            && |TerminalIds(r)| == if |TerminalIds(jobs)| > MAX_HISTORY then MAX_HISTORY else |TerminalIds(jobs)|
  {
    TerminalCount(jobs);
    VictimIds(jobs);
    var gone := set j | j in Victims(jobs) :: j.jobId;
    assert TerminalIds(Cleanup(jobs)) == TerminalIds(jobs) - gone;
  }

  lemma CleanupOrder(jobs: Jobs, a: nat, kept: string)
    requires Registry(jobs) && a < |Victims(jobs)| && kept in TerminalIds(Cleanup(jobs))
    ensures var v := Victims(jobs)[a];
            v.jobId in jobs.table && kept in jobs.table && jobs.table[v.jobId].finishedAt <= jobs.table[kept].finishedAt
  {
    VictimIsTracked(jobs, a);
    TerminalCount(jobs);
    assert jobs.table[kept] in TerminalJobs(jobs, jobs.keys);
    VictimsOldest(jobs, a, jobs.table[kept]);
  }

  lemma VictimIsTracked(jobs: Jobs, a: nat)
    requires Registry(jobs) && a < |Victims(jobs)|
    ensures var v := Victims(jobs)[a]; v.jobId in jobs.table && jobs.table[v.jobId] == v
  {
    var done := TerminalJobs(jobs, jobs.keys);
    SortByElements(FinishTime, done);
    assert Victims(jobs)[a] == SortBy(FinishTime, done)[a];
    TerminalCount(jobs);
  }

  // ---- the write queue's part -------------------------------------------------------

  function ScheduleAll(w: W.Writer, writes: seq<Write>, loopRunning: bool): W.Writer {
    if writes == [] then w
    else W.Next(ScheduleAll(w, writes[..|writes| - 1], loopRunning), W.Schedule(writes[|writes| - 1], loopRunning))
  }

  lemma ScheduleTwo(w: W.Writer, a: Write, b: Write, loopRunning: bool)
    ensures ScheduleAll(w, [a, b], loopRunning)
         == W.Next(W.Next(w, W.Schedule(a, loopRunning)), W.Schedule(b, loopRunning))
  {
    assert [a, b][..1] == [a];
    assert ScheduleAll(w, [a], loopRunning) == W.Next(w, W.Schedule(a, loopRunning));
  }

  lemma ScheduleOne(w: W.Writer, a: Write, loopRunning: bool)
    ensures ScheduleAll(w, [a], loopRunning) == W.Next(w, W.Schedule(a, loopRunning))
  {
    assert [a][..0] == [];
  }

  // ---- what a call does to the line counters ------------------------------------------

  function EvictedAll(counters: map<PhaseKey, int>, victims: seq<JobInfo>): map<PhaseKey, int> {
    if victims == [] then counters
    else L.Evicted(EvictedAll(counters, victims[..|victims| - 1]), victims[|victims| - 1].jobId)
  }

  /** Starting a phase restarts its numbering, known phase or not; completing a job evicts
      the counters of the jobs it pushes out of the history. */
  function CountersAfter(jobs: Jobs, counters: map<PhaseKey, int>, op: Op, now: real): map<PhaseKey, int>
    requires Registry(jobs)
  {
    if op.CreateJob? || op.jobId !in jobs.table then counters
    else if op.StartPhase? then counters[(op.jobId, op.step) := 0]
    else if op.CompleteJob? then
        EvictedAll(counters, Victims(jobs.Put(op.jobId, Update(jobs.table[op.jobId], op, now).0)))
    else counters
  }

  function FlushesAfter(jobs: Jobs, op: Op, listening: bool): seq<PhaseKey> {
    if op.CompletePhase? && op.jobId in jobs.table && listening then [(op.jobId, op.step)] else []
  }

  lemma {:induction false} EvictedAllIn(counters: map<PhaseKey, int>, victims: seq<JobInfo>, k: PhaseKey)
    ensures k in EvictedAll(counters, victims) <==> k in counters && forall j :: j in victims ==> j.jobId != k.0
    ensures k in EvictedAll(counters, victims) ==> EvictedAll(counters, victims)[k] == counters[k]
  {
    if victims != [] {
      EvictedAllIn(counters, victims[..|victims| - 1], k);
      assert victims == victims[..|victims| - 1] + [victims[|victims| - 1]];
    }
  }

  /** Counters leave with their jobs: completing a job keeps exactly the counters of those
      jobs it does not evict. */
  lemma CountersLeaveWithJobs(jobs: Jobs, counters: map<PhaseKey, int>, op: Op, now: real, k: PhaseKey)
    requires Registry(jobs) && op.CompleteJob? && op.jobId in jobs.table
    ensures k in CountersAfter(jobs, counters, op, now) <==>
              k in counters && (k.0 in jobs.table ==> k.0 in Step(jobs, op, now).0.table)
    ensures k in CountersAfter(jobs, counters, op, now) ==> CountersAfter(jobs, counters, op, now)[k] == counters[k]
  {
    var put := jobs.Put(op.jobId, Update(jobs.table[op.jobId], op, now).0);
    EvictedAllIn(counters, Victims(put), k);
    CleanupCount(put);
    var gone := set j | j in Victims(put) :: j.jobId;
    assert k.0 in gone <==> exists j :: j in Victims(put) && j.jobId == k.0;
  }

  /** What a call does to the log stream's counters, as steps of the stream. */
  function LogSteps(jobs: Jobs, op: Op, now: real): seq<L.Event>
    requires Registry(jobs)
  {
    if op.CreateJob? || op.jobId !in jobs.table then []
    else if op.StartPhase? then [L.ResetPhase((op.jobId, op.step))]
    else if op.CompleteJob? then
      Evictions(Victims(jobs.Put(op.jobId, Update(jobs.table[op.jobId], op, now).0)))
    else []
  }

  function Evictions(victims: seq<JobInfo>): seq<L.Event> {
    seq(|victims|, i requires 0 <= i < |victims| => L.EvictJob(victims[i].jobId))
  }

  lemma {:induction false} EvictionsRun(s: L.Stream, victims: seq<JobInfo>)
    ensures L.Run(s, Evictions(victims)).counters == EvictedAll(s.counters, victims)
  {
    if victims != [] {
      assert Evictions(victims)[..|victims| - 1] == Evictions(victims[..|victims| - 1]);
      EvictionsRun(s, victims[..|victims| - 1]);
    }
  }

  /** Starting a phase restarts its numbering, evicting a job removes its counters, and no
      other call touches a counter: what the tracker does to the numbering is a run of the
      stream's own steps. */
  lemma CountersAreStreamed(s: L.Stream, jobs: Jobs, op: Op, now: real)
    requires Registry(jobs)
    ensures CountersAfter(jobs, s.counters, op, now) == L.Run(s, LogSteps(jobs, op, now)).counters
    ensures op.StartPhase? && op.jobId in jobs.table ==>
              L.NewEntry(s.(counters := CountersAfter(jobs, s.counters, op, now)), (op.jobId, op.step), "").lineNo == 1
  {
    if op.jobId in jobs.table {
      if op.CompleteJob? {
        EvictionsRun(s, Victims(jobs.Put(op.jobId, Update(jobs.table[op.jobId], op, now).0)));
      } else if op.StartPhase? {
        L.RunCons(s, L.ResetPhase((op.jobId, op.step)), []);
        assert [L.ResetPhase((op.jobId, op.step))] + [] == LogSteps(jobs, op, now);
      }
    }
  }

  /** The number a decimal text stands for. */
  function Value(digits: string): int {
    if digits == "" then 0 else 10 * Value(digits[..|digits| - 1]) + (digits[|digits| - 1] as int - '0' as int)
  }

  /** Default titles count in decimal: digits only, no leading zero, and the right number. */
  lemma {:induction false} DecimalIs(n: nat)
    ensures var s := Decimal(n);
            && Value(s) == n && s != "" && (n > 0 ==> s[0] != '0')
            && forall i :: 0 <= i < |s| ==> '0' <= s[i] <= '9'
  {
    if n >= 10 {
      DecimalIs(n / 10);
      DecimalIs(n % 10);
      var last := Decimal(n % 10);
      assert |last| == 1;
      assert Decimal(n)[..|Decimal(n)| - 1] == Decimal(n / 10);
      assert last[..0] == "";
    }
  }

  // ---- the tracker object -----------------------------------------------------------

  lemma StepUpdates(jobs: Jobs, op: Op, now: real)
    requires Registry(jobs) && !op.CreateJob? && !op.CompleteJob? && op.jobId in jobs.table
    ensures var (j, writes) := Update(jobs.table[op.jobId], op, now);
            Step(jobs, op, now) == (jobs.Put(op.jobId, j), writes)
  {
  }

  lemma StepCompletes(jobs: Jobs, op: Op, now: real)
    requires Registry(jobs) && op.CompleteJob? && op.jobId in jobs.table
    ensures var (j, writes) := Update(jobs.table[op.jobId], op, now);
            && j.jobId == op.jobId && writes == [TerminalOf(j, op.sessionId, op.error)]
            && Step(jobs, op, now) == (Cleanup(jobs.Put(op.jobId, j)), writes)
  {
  }

  /** Ending a job, then evicting, is all that a completion does to jobs and counters. */
  lemma CompletionEffects(jobs: Jobs, counters: map<PhaseKey, int>, op: Op, now: real)
    requires Registry(jobs) && op.CompleteJob? && op.jobId in jobs.table
    ensures var put := jobs.Put(op.jobId, Update(jobs.table[op.jobId], op, now).0);
            && Registry(put) && Step(jobs, op, now).0 == Cleanup(put)
            && CountersAfter(jobs, counters, op, now) == EvictedAll(counters, Victims(put))
            && forall listening :: FlushesAfter(jobs, op, listening) == []
  {
    StepCompletes(jobs, op, now);
  }

  lemma PutSame(jobs: Jobs, id: string)
    requires jobs.Valid() && id in jobs.table
    ensures jobs.Put(id, jobs.table[id]) == jobs
  {
    assert jobs.table[id := jobs.table[id]] == jobs.table;
  }

  class Tracker {
    var jobs: Jobs
    const writer: W.DbWriter
    const logs: L.LogStream

    ghost predicate Valid()
      reads this, writer, writer.store
    {
      Registry(jobs) && writer.Valid()
    }

    constructor (writer: W.DbWriter, logs: L.LogStream)
      requires writer.Valid()
      ensures Valid() && this.writer == writer && this.logs == logs && jobs == Dict([], map[])
    {
      jobs := Dict([], map[]);
      this.writer, this.logs := writer, logs;
    }

    /** The call did to the jobs and the write queue what it should. */
    twostate predicate Stepped(op: Op, now: real, loopRunning: bool)
      requires old(Valid())
      reads this, writer
    {
      var (jobs', writes) := Step(old(jobs), op, now);
      jobs == jobs' && writer.view == ScheduleAll(old(writer.view), writes, loopRunning)
    }

    /** And to the log stream. */
    twostate predicate Did(op: Op, now: real, loopRunning: bool)
      requires old(Valid())
      reads this, writer, logs
    {
      && Stepped(op, now, loopRunning)
      && logs.counters == CountersAfter(old(jobs), old(logs.counters), op, now)
      && logs.flushes == old(logs.flushes) + FlushesAfter(old(jobs), op, logs.bound && loopRunning)
      && logs.bound == old(logs.bound)
    }

    method Create(op: Op, now: real, loopRunning: bool)
      requires Valid() && op.CreateJob?
      modifies this, writer
      ensures Valid() && Did(op, now, loopRunning)
    {
      var job := NewJob(op, now);
      jobs := jobs.Put(op.jobId, job);
      writer.Schedule(InsertOf(job), loopRunning);
      ScheduleOne(old(writer.view), InsertOf(job), loopRunning);
    }

    /** Replace a tracked job and schedule one write about it. */
    method Save(job: JobInfo, w: Write, loopRunning: bool)
      requires Valid() && job.jobId in jobs.table
      modifies this, writer
      ensures Valid() && jobs == old(jobs).Put(job.jobId, job)
      ensures writer.view == ScheduleAll(old(writer.view), [w], loopRunning)
    {
      jobs := jobs.Put(job.jobId, job);
      writer.Schedule(w, loopRunning);
      ScheduleOne(old(writer.view), w, loopRunning);
    }

    method SaveTwice(job: JobInfo, a: Write, b: Write, loopRunning: bool)
      requires Valid() && job.jobId in jobs.table
      modifies this, writer
      ensures Valid() && jobs == old(jobs).Put(job.jobId, job)
      ensures writer.view == ScheduleAll(old(writer.view), [a, b], loopRunning)
    {
      jobs := jobs.Put(job.jobId, job);
      writer.Schedule(a, loopRunning);
      writer.Schedule(b, loopRunning);
      ScheduleTwo(old(writer.view), a, b, loopRunning);
    }

    method Decomposing(op: Op, now: real, loopRunning: bool)
      requires Valid() && op.SetDecomposing?
      modifies this, writer
      ensures Valid() && Did(op, now, loopRunning)
    {
      if op.jobId in jobs.table {
        var job := jobs.table[op.jobId].(status := JobStatus.Decomposing);
        StepUpdates(jobs, op, now);
        Save(job, StatusOf(job), loopRunning);
      }
    }

    method Phases(op: Op, now: real, loopRunning: bool)
      requires Valid() && op.SetPhases?
      modifies this, writer
      ensures Valid() && Did(op, now, loopRunning)
    {
      if op.jobId in jobs.table {
        var job := jobs.table[op.jobId].(totalPhases := |op.specs|, phases := NewPhases(op.specs), status := Running);
        StepUpdates(jobs, op, now);
        SaveTwice(job, InsertPhases(op.jobId, PhaseItems(job.phases)), TotalOf(job), loopRunning);
      }
    }

    /** The loop of `start_phase`, and the write if it found the phase. */
    method BeginPhase(op: Op, now: real, loopRunning: bool)
      requires Valid() && op.StartPhase? && op.jobId in jobs.table
      modifies this, writer
      ensures Valid() && Stepped(op, now, loopRunning)
    {
      StepUpdates(jobs, op, now);
      var job := jobs.table[op.jobId].(currentPhase := op.step);
      var i := FindPhase(job.phases, op.step);
      if i < |job.phases| {
        var p := Started(job.phases[i], now);
        Save(job.(phases := job.phases[i := p]), StartedOf(op.jobId, p), loopRunning);
      } else {
        jobs := jobs.Put(op.jobId, job);
      }
    }

    method Start(op: Op, now: real, loopRunning: bool)
      requires Valid() && op.StartPhase?
      modifies this, writer, logs
      ensures Valid() && Did(op, now, loopRunning)
    {
      if op.jobId in jobs.table {
        BeginPhase(op, now, loopRunning);
        logs.ResetPhaseCounter((op.jobId, op.step));
      }
    }

    /** The loop of `complete_phase`, and the write if it found the phase. */
    method EndPhase(op: Op, now: real, loopRunning: bool)
      requires Valid() && op.CompletePhase? && op.jobId in jobs.table
      modifies this, writer
      ensures Valid() && Stepped(op, now, loopRunning)
    {
      StepUpdates(jobs, op, now);
      var job := jobs.table[op.jobId];
      var i := FindPhase(job.phases, op.step);
      if i < |job.phases| {
        var p := Finished(job.phases[i], op.success, op.output, op.files, now);
        Save(job.(phases := job.phases[i := p]), FinishedOf(op.jobId, p), loopRunning);
      } else {
        PutSame(jobs, op.jobId);
      }
    }

    method Complete(op: Op, now: real, loopRunning: bool)
      requires Valid() && op.CompletePhase?
      modifies this, writer, logs
      ensures Valid() && Did(op, now, loopRunning)
    {
      if op.jobId in jobs.table {
        EndPhase(op, now, loopRunning);
        logs.ForceFlushPhase((op.jobId, op.step), loopRunning);
      }
    }

    /** `complete_job` up to the eviction. */
    method EndJob(op: Op, now: real, loopRunning: bool)
      requires Valid() && op.CompleteJob? && op.jobId in jobs.table
      modifies this, writer
      ensures Valid() && jobs == old(jobs).Put(op.jobId, Update(old(jobs).table[op.jobId], op, now).0)
      ensures writer.view == ScheduleAll(old(writer.view), Step(old(jobs), op, now).1, loopRunning)
    {
      StepCompletes(jobs, op, now);
      var job := Ended(jobs.table[op.jobId], if op.success then Completed else Failed, now)
                 .(sessionId := op.sessionId, error := op.error);
      Save(job, TerminalOf(job, op.sessionId, op.error), loopRunning);
    }

    method CompleteJob(op: Op, now: real, loopRunning: bool)
      requires Valid() && op.CompleteJob?
      modifies this, writer, logs
      ensures Valid() && Did(op, now, loopRunning)
    {
      if op.jobId in jobs.table {
        EndJob(op, now, loopRunning);
        CleanupHistory();
        CompletionEffects(old(jobs), old(logs.counters), op, now);
        assert logs.flushes == old(logs.flushes) + [];
      }
    }

    method Cancel(op: Op, now: real, loopRunning: bool) returns (cancelled: bool)
      requires Valid() && op.CancelJob?
      modifies this, writer
      ensures Valid() && Did(op, now, loopRunning)
      ensures cancelled <==> op.jobId in old(jobs.table) && old(jobs.table)[op.jobId].status !in {Completed, Failed}
    {
      if op.jobId !in jobs.table {
        return false;
      }
      StepUpdates(jobs, op, now);
      var job := jobs.table[op.jobId];
      if job.status == Completed || job.status == Failed {
        PutSame(jobs, op.jobId);
        return false;
      }
      job := Ended(job, Cancelled, now);
      Save(job, TerminalOf(job, "", ""), loopRunning);
      return true;
    }

    /** Scan for the first phase with the given step, as both phase calls do. */
    static method FindPhase(phases: seq<PhaseInfo>, step: int) returns (i: nat)
      ensures i == Find(phases, step)
    {
      i := 0;
      while i < |phases|
        invariant i <= |phases|
        invariant Find(phases, step) == i + Find(phases[i..], step)
      {
        if phases[i].step == step {
          return;
        }
        assert phases[i..][1..] == phases[i + 1..];
        i := i + 1;
      }
    }

    method CollectTerminal() returns (done: seq<JobInfo>)
      requires Valid()
      ensures done == TerminalJobs(jobs, jobs.keys)
    {
      done := [];
      for i := 0 to |jobs.keys|
        invariant done == TerminalJobs(jobs, jobs.keys[..i])
      {
        assert jobs.keys[..i + 1][..i] == jobs.keys[..i];
        var j := jobs.table[jobs.keys[i]];
        if IsTerminal(j.status) {
          done := done + [j];
        }
      }
      assert jobs.keys[..|jobs.keys|] == jobs.keys;
    }

    method PopVictims(victims: seq<JobInfo>)
      requires Registry(jobs)
      modifies this, logs`counters
      ensures jobs == PopAll(old(jobs), victims) && logs.counters == EvictedAll(old(logs.counters), victims)
    {
      for i := 0 to |victims|
        invariant Registry(jobs) && jobs == PopAll(old(jobs), victims[..i])
        invariant logs.counters == EvictedAll(old(logs.counters), victims[..i])
      {
        assert victims[..i + 1][..i] == victims[..i];
        jobs := Pop(jobs, victims[i].jobId);
        logs.EvictJobCounters(victims[i].jobId);
      }
      assert victims[..|victims|] == victims;
    }

    method CleanupHistory()
      requires Valid()
      modifies this, logs`counters
      ensures Valid() && jobs == Cleanup(old(jobs))
      ensures logs.counters == EvictedAll(old(logs.counters), Victims(old(jobs)))
    {
      var done := CollectTerminal();
      if |done| > MAX_HISTORY {
        PopVictims(SortBy(FinishTime, done)[..|done| - MAX_HISTORY]);
      }
    }
  }
}
