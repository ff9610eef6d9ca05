/** A tracked job read off the calls alone: what its fields say is told by the last calls
    about it, without the rules by which the tracker updates them. */
module JobHistory {
  import opened Prelude
  import opened JobModels
  import opened JobStore
  import opened JobTracker
  import opened WriteBehind
  import B = LogBuffer
  import D = LogDrain
  import W = JobDbWriter

  /** The last position at which the event is of the wanted kind, or -1. */
  function Last(es: seq<Event>, want: Event -> bool): (k: int)
    ensures -1 <= k < |es|
    ensures k >= 0 ==> want(es[k])
    ensures forall i :: 0 <= i < |es| && k < i ==> !want(es[i])
  {
    if es == [] then -1
    else if want(es[|es| - 1]) then |es| - 1
    else Last(es[..|es| - 1], want)
  }

  lemma LastSnoc(es: seq<Event>, e: Event, want: Event -> bool)
    ensures Last(es + [e], want) == if want(e) then |es| else Last(es, want)
  {
    assert (es + [e])[..|es + [e]| - 1] == es;
  }

  // ---- kinds of calls ------------------------------------------------------------------

  predicate About(e: Event, id: string) {
    e.Call? && e.op.jobId == id
  }

  function Creates(id: string): Event -> bool {
    (e: Event) => About(e, id) && e.op.CreateJob?
  }

  /** Calls that set the status whatever it was. */
  function Decides(id: string): Event -> bool {
    (e: Event) => About(e, id) && (e.op.CreateJob? || e.op.SetDecomposing? || e.op.SetPhases? || e.op.CompleteJob?)
  }

  function Completes(id: string): Event -> bool {
    (e: Event) => About(e, id) && e.op.CompleteJob?
  }

  function Cancels(id: string): Event -> bool {
    (e: Event) => About(e, id) && e.op.CancelJob?
  }

  function SetsPhases(id: string): Event -> bool {
    (e: Event) => About(e, id) && e.op.SetPhases?
  }

  function StartsAny(id: string): Event -> bool {
    (e: Event) => About(e, id) && e.op.StartPhase?
  }

  function Starts(id: string, step: int): Event -> bool {
    (e: Event) => About(e, id) && e.op.StartPhase? && e.op.step == step
  }

  function Finishes(id: string, step: int): Event -> bool {
    (e: Event) => About(e, id) && e.op.CompletePhase? && e.op.step == step
  }

  // ---- what the calls tell about a job ---------------------------------------------------

  /** The status: that of the last deciding call, unless it can be cancelled and was. */
  function StatusTold(es: seq<Event>, id: string): JobStatus
    requires Last(es, Decides(id)) >= 0
  {
    var d := Last(es, Decides(id));
    var op := es[d].op;
    if op.CompleteJob? then (if op.success then Completed else Failed)
    else if Last(es, Cancels(id)) > d then Cancelled
    else if op.SetPhases? then Running
    else if op.SetDecomposing? then Decomposing
    else Pending
  }

  /** The call at `k` ended the job: a completion, or a cancellation that did not find it
      completed or failed. */
  predicate Ends(es: seq<Event>, k: nat, id: string)
    requires k < |es|
  {
    || Completes(id)(es[k])
    || (Cancels(id)(es[k]) && !(var d := Last(es[..k], Decides(id)); d >= 0 && es[d].op.CompleteJob?))
  }

  /** The last position at which the job was ended, or -1. */
  function LastEnd(es: seq<Event>, id: string): (k: int)
    ensures -1 <= k < |es|
    ensures k >= 0 ==> Ends(es, k, id)
    ensures forall i :: 0 <= i < |es| && k < i ==> !Ends(es, i, id)
  {
    if es == [] then -1
    else if Ends(es, |es| - 1, id) then |es| - 1
    else
      var init := es[..|es| - 1];
      assert forall i :: 0 <= i < |init| ==> init[..i] == es[..i] && init[i] == es[i];
      assert forall i :: 0 <= i < |init| ==> Ends(init, i, id) == Ends(es, i, id);
      LastEnd(init, id)
  }

  /** What was given on creation. */
  predicate OriginTold(es: seq<Event>, id: string, j: JobInfo) {
    var c := Last(es, Creates(id));
    && c >= 0 && j.jobId == id && j.project == es[c].op.project && j.agent == es[c].op.agent
    && j.prompt == es[c].op.prompt && j.user == es[c].op.user && j.channel == es[c].op.channel
    && j.startedAt == es[c].now
  }

  predicate OutcomeTold(es: seq<Event>, id: string, j: JobInfo) {
    Last(es, Decides(id)) >= 0 && Last(es, Decides(id)) >= Last(es, Creates(id)) && j.status == StatusTold(es, id)
  }

  /** Finish time and duration: since its creation, the last call that ended the job. */
  predicate EndTold(es: seq<Event>, id: string, j: JobInfo) {
    var c, f := Last(es, Creates(id)), LastEnd(es, id);
    && c >= 0
    && j.finishedAt == (if f > c then es[f].now else 0.0)
    && j.duration == (if f > c then es[f].now - es[c].now else 0.0)
  }

  /** Session id and error: since its creation, the last completion. */
  predicate TextsTold(es: seq<Event>, id: string, j: JobInfo) {
    var c, done := Last(es, Creates(id)), Last(es, Completes(id));
    && j.sessionId == (if done >= 0 && done > c then es[done].op.sessionId else "")
    && j.error == (if done >= 0 && done > c then es[done].op.error else "")
  }

  predicate CountsTold(es: seq<Event>, id: string, j: JobInfo) {
    var c, p, s := Last(es, Creates(id)), Last(es, SetsPhases(id)), Last(es, StartsAny(id));
    && |j.phases| == j.totalPhases == (if p >= 0 && p > c then |es[p].op.specs| else 0)
    && j.currentPhase == (if s >= 0 && s > c then es[s].op.step else 0)
  }

  /** No earlier description names the same step; a missing step counts from one. */
  predicate FirstOfStep(specs: seq<PhaseSpec>, i: nat)
    requires i < |specs|
  {
    forall j :: 0 <= j < i ==> StepOf(specs, j) != StepOf(specs, i)
  }

  function StepOf(specs: seq<PhaseSpec>, i: nat): int
    requires i < |specs|
  {
    match specs[i].step
    case Some(step) => step
    case None => i + 1
  }

  /** What the calls since `set_phases` at `p` tell about its `i`-th phase: the last start
      and the last completion of its step, if it is the first with that step. */
  predicate PhaseTold(es: seq<Event>, id: string, p: nat, i: nat, q: PhaseInfo)
    requires p < |es| && SetsPhases(id)(es[p]) && i < |es[p].op.specs|
  {
    var specs := es[p].op.specs;
    var step := StepOf(specs, i);
    var s, f := Last(es, Starts(id, step)), Last(es, Finishes(id, step));
    var leads := FirstOfStep(specs, i);
    var started, finished := leads && s > p, leads && f > p;
    && q.step == step
    && (specs[i].title.Some? ==> q.title == specs[i].title.value)
    && (specs[i].title.None? ==> q.title == "Phase " + Decimal(i + 1))
    && q.startedAt == (if started then es[s].now else 0.0)
    && q.finishedAt == (if finished then es[f].now else 0.0)
    && q.status == (if finished && f > s then (if es[f].op.success then PhaseCompleted else PhaseFailed)
                    else if started then PhaseRunning else PhasePending)
    && q.filesChanged == (if finished then es[f].op.files else [])
    && (!finished ==> q.output == "" && q.duration == 0.0)
    && (finished ==>
          var before := Last(es[..f], Starts(id, step));
          && q.output <= es[f].op.output
          && |q.output| == (if |es[f].op.output| <= 500 then |es[f].op.output| else 500)
          && q.duration == if before > p && es[before].now != 0.0 then es[f].now - es[before].now else 0.0)
  }

  predicate PhasesTold(es: seq<Event>, id: string, j: JobInfo) {
    var p := Last(es, SetsPhases(id));
    p >= 0 && p > Last(es, Creates(id)) && |j.phases| == |es[p].op.specs| ==>
      forall i :: 0 <= i < |j.phases| ==> PhaseTold(es, id, p, i, j.phases[i])
  }

  predicate Told(es: seq<Event>, id: string, j: JobInfo) {
    && OriginTold(es, id, j) && OutcomeTold(es, id, j) && EndTold(es, id, j) && TextsTold(es, id, j)
    && CountsTold(es, id, j) && PhasesTold(es, id, j)
  }

  // ---- one more event -----------------------------------------------------------------------

  /** The job after one more event, if it stays tracked. */
  function Moved(j: JobInfo, e: Event, id: string): JobInfo {
    if !About(e, id) then j
    else if e.op.CreateJob? then NewJob(e.op, e.now)
    else Update(j, e.op, e.now).0
  }

  lemma LastEndSnoc(es: seq<Event>, e: Event, id: string)
    ensures LastEnd(es + [e], id) == if Ends(es + [e], |es|, id) then |es| else LastEnd(es, id)
  {
    assert (es + [e])[..|es + [e]| - 1] == es;
  }

  lemma OriginSnoc(es: seq<Event>, e: Event, id: string, j: JobInfo)
    requires OriginTold(es, id, j) || Creates(id)(e)
    ensures OriginTold(es + [e], id, Moved(j, e, id))
  {
    LastSnoc(es, e, Creates(id));
  }

  lemma DecidedSnoc(es: seq<Event>, e: Event, id: string)
    ensures Last(es + [e], Decides(id)) == if Decides(id)(e) then |es| else Last(es, Decides(id))
    ensures Last(es + [e], Cancels(id)) == if Cancels(id)(e) then |es| else Last(es, Cancels(id))
    ensures Last(es + [e], Creates(id)) == if Creates(id)(e) then |es| else Last(es, Creates(id))
  {
    LastSnoc(es, e, Creates(id));
    LastSnoc(es, e, Decides(id));
    LastSnoc(es, e, Cancels(id));
  }

  /** A call that decides the status. */
  lemma OutcomeDecided(es: seq<Event>, e: Event, id: string, j: JobInfo)
    requires Decides(id)(e)
    ensures OutcomeTold(es + [e], id, Moved(j, e, id))
  {
    DecidedSnoc(es, e, id);
  }

  /** A call that does not: only a cancellation can matter. */
  lemma OutcomeUndecided(es: seq<Event>, e: Event, id: string, j: JobInfo)
    requires OutcomeTold(es, id, j) && !Decides(id)(e)
    ensures Moved(j, e, id).status == if Cancels(id)(e) && j.status != Completed && j.status != Failed
                                      then Cancelled else j.status
    ensures Last(es + [e], Decides(id)) == Last(es, Decides(id)) && Last(es + [e], Creates(id)) == Last(es, Creates(id))
    ensures StatusTold(es + [e], id) == if Cancels(id)(e) && j.status != Completed && j.status != Failed
                                        then Cancelled else j.status
  {
    DecidedSnoc(es, e, id);
  }

  lemma OutcomeSnoc(es: seq<Event>, e: Event, id: string, j: JobInfo)
    requires OutcomeTold(es, id, j) || Creates(id)(e)
    ensures OutcomeTold(es + [e], id, Moved(j, e, id))
  {
    if Decides(id)(e) { OutcomeDecided(es, e, id, j); } else { OutcomeUndecided(es, e, id, j); }
  }

  /** Found completed or failed is the same as decided by a completion. */
  lemma EndsWhenNotEnded(es: seq<Event>, e: Event, id: string, j: JobInfo)
    requires OutcomeTold(es, id, j) && !Creates(id)(e)
    ensures Ends(es + [e], |es|, id) <==>
            Completes(id)(e) || (Cancels(id)(e) && j.status != Completed && j.status != Failed)
  {
    assert (es + [e])[..|es|] == es;
  }

  lemma EndSnoc(es: seq<Event>, e: Event, id: string, j: JobInfo)
    requires (OriginTold(es, id, j) && OutcomeTold(es, id, j) && EndTold(es, id, j)) || Creates(id)(e)
    ensures EndTold(es + [e], id, Moved(j, e, id))
  {
    LastSnoc(es, e, Creates(id));
    LastEndSnoc(es, e, id);
    if !Creates(id)(e) { EndsWhenNotEnded(es, e, id, j); }
  }

  lemma TextsSnoc(es: seq<Event>, e: Event, id: string, j: JobInfo)
    requires TextsTold(es, id, j) || Creates(id)(e)
    ensures TextsTold(es + [e], id, Moved(j, e, id))
  {
    LastSnoc(es, e, Creates(id));
    LastSnoc(es, e, Completes(id));
  }

  lemma CountsSnoc(es: seq<Event>, e: Event, id: string, j: JobInfo)
    requires CountsTold(es, id, j) || Creates(id)(e)
    ensures CountsTold(es + [e], id, Moved(j, e, id))
  {
    LastSnoc(es, e, Creates(id));
    LastSnoc(es, e, SetsPhases(id));
    LastSnoc(es, e, StartsAny(id));
  }

  // ---- phases --------------------------------------------------------------------------------

  lemma PhaseUntouched(es: seq<Event>, e: Event, id: string, p: nat, i: nat, q: PhaseInfo)
    requires p < |es| && SetsPhases(id)(es[p]) && i < |es[p].op.specs| && PhaseTold(es, id, p, i, q)
    requires FirstOfStep(es[p].op.specs, i) ==> !Starts(id, q.step)(e) && !Finishes(id, q.step)(e)
    ensures PhaseTold(es + [e], id, p, i, q)
  {
    LastSnoc(es, e, Starts(id, q.step));
    LastSnoc(es, e, Finishes(id, q.step));
    var f := Last(es, Finishes(id, q.step));
    assert f >= 0 ==> (es + [e])[..f] == es[..f];
  }

  lemma PhaseStarts(es: seq<Event>, e: Event, id: string, p: nat, i: nat, q: PhaseInfo)
    requires p < |es| && SetsPhases(id)(es[p]) && i < |es[p].op.specs| && PhaseTold(es, id, p, i, q)
    requires FirstOfStep(es[p].op.specs, i) && Starts(id, q.step)(e)
    ensures PhaseTold(es + [e], id, p, i, Started(q, e.now))
  {
    LastSnoc(es, e, Starts(id, q.step));
    LastSnoc(es, e, Finishes(id, q.step));
    var f := Last(es, Finishes(id, q.step));
    assert f >= 0 ==> (es + [e])[..f] == es[..f];
  }

  lemma PhaseFinishes(es: seq<Event>, e: Event, id: string, p: nat, i: nat, q: PhaseInfo)
    requires p < |es| && SetsPhases(id)(es[p]) && i < |es[p].op.specs| && PhaseTold(es, id, p, i, q)
    requires FirstOfStep(es[p].op.specs, i) && Finishes(id, q.step)(e)
    ensures PhaseTold(es + [e], id, p, i, Finished(q, e.op.success, e.op.output, e.op.files, e.now))
  {
    LastSnoc(es, e, Starts(id, q.step));
    LastSnoc(es, e, Finishes(id, q.step));
    assert (es + [e])[..|es|] == es;
  }

  /** The scan finds the first phase of a step, so it touches leading phases only. */
  lemma FindLeads(specs: seq<PhaseSpec>, phases: seq<PhaseInfo>, step: int)
    requires |phases| == |specs| && forall m :: 0 <= m < |specs| ==> phases[m].step == StepOf(specs, m)
    ensures var k := Find(phases, step);
            && (k < |specs| ==> FirstOfStep(specs, k))
            && forall i :: 0 <= i < |specs| && i != k && StepOf(specs, i) == step ==> !FirstOfStep(specs, i)
  {
    var k := Find(phases, step);
    assert k < |specs| ==> StepOf(specs, k) == step;
  }

  /** A start or completion changes the first phase of its step and no other. */
  lemma PhasesMoved(j: JobInfo, op: Op, now: real, i: nat)
    requires (op.StartPhase? || op.CompletePhase?) && i < |j.phases|
    ensures var j' := Update(j, op, now).0;
            && |j'.phases| == |j.phases|
            && j'.phases[i] ==
               (if i != Find(j.phases, op.step) then j.phases[i]
                else if op.StartPhase? then Started(j.phases[i], now)
                else Finished(j.phases[i], op.success, op.output, op.files, now))
  {
  }

  lemma PhaseHit(es: seq<Event>, e: Event, id: string, j: JobInfo, p: nat, i: nat)
    requires p < |es| && SetsPhases(id)(es[p]) && i < |j.phases| == |es[p].op.specs|
    requires forall m :: 0 <= m < |j.phases| ==> PhaseTold(es, id, p, m, j.phases[m])
    requires About(e, id) && (e.op.StartPhase? || e.op.CompletePhase?)
    ensures var j' := Update(j, e.op, e.now).0;
            |j'.phases| == |j.phases| && PhaseTold(es + [e], id, p, i, j'.phases[i])
  {
    var q := j.phases[i];
    PhasesMoved(j, e.op, e.now, i);
    FindLeads(es[p].op.specs, j.phases, e.op.step);
    if i != Find(j.phases, e.op.step) {
      assert PhaseTold(es, id, p, i, q);
      PhaseUntouched(es, e, id, p, i, q);
    } else if e.op.StartPhase? {
      PhaseStarts(es, e, id, p, i, q);
    } else {
      PhaseFinishes(es, e, id, p, i, q);
    }
  }

  lemma PhaseSnoc(es: seq<Event>, e: Event, id: string, j: JobInfo, p: nat, i: nat)
    requires p < |es| && SetsPhases(id)(es[p]) && i < |j.phases| == |es[p].op.specs|
    requires forall m :: 0 <= m < |j.phases| ==> PhaseTold(es, id, p, m, j.phases[m])
    requires !Creates(id)(e) && !SetsPhases(id)(e)
    ensures var j' := Moved(j, e, id); |j'.phases| == |j.phases| && PhaseTold(es + [e], id, p, i, j'.phases[i])
  {
    if About(e, id) && (e.op.StartPhase? || e.op.CompletePhase?) {
      PhaseHit(es, e, id, j, p, i);
    } else {
      PhaseUntouched(es, e, id, p, i, j.phases[i]);
    }
  }

  /** Phases just set: none has been started or finished. */
  lemma PhaseSet(es: seq<Event>, e: Event, id: string, i: nat)
    requires SetsPhases(id)(e) && i < |e.op.specs|
    ensures PhaseTold(es + [e], id, |es|, i, NewPhases(e.op.specs)[i])
  {
    var step := StepOf(e.op.specs, i);
    LastSnoc(es, e, Starts(id, step));
    LastSnoc(es, e, Finishes(id, step));
  }

  lemma PhasesSnoc(es: seq<Event>, e: Event, id: string, j: JobInfo)
    requires (CountsTold(es, id, j) && PhasesTold(es, id, j)) || Creates(id)(e)
    ensures PhasesTold(es + [e], id, Moved(j, e, id))
  {
    LastSnoc(es, e, Creates(id));
    LastSnoc(es, e, SetsPhases(id));
    var j', p := Moved(j, e, id), Last(es, SetsPhases(id));
    if SetsPhases(id)(e) {
      forall i | 0 <= i < |j'.phases| ensures PhaseTold(es + [e], id, |es|, i, j'.phases[i]) {
        PhaseSet(es, e, id, i);
      }
    } else if !Creates(id)(e) && p >= 0 && p > Last(es, Creates(id)) {
      forall i | 0 <= i < |j.phases| ensures |j'.phases| == |j.phases| && PhaseTold(es + [e], id, p, i, j'.phases[i]) {
        PhaseSnoc(es, e, id, j, p, i);
      }
    }
  }

  lemma ToldSnoc(es: seq<Event>, e: Event, id: string, j: JobInfo)
    requires Told(es, id, j) || Creates(id)(e)
    ensures Told(es + [e], id, Moved(j, e, id))
  {
    OriginSnoc(es, e, id, j);
    OutcomeSnoc(es, e, id, j);
    EndSnoc(es, e, id, j);
    TextsSnoc(es, e, id, j);
    CountsSnoc(es, e, id, j);
    PhasesSnoc(es, e, id, j);
  }

  // ---- whole runs ------------------------------------------------------------------------------

  /** Eviction takes jobs away and changes none. */
  lemma CleanupTracked(jobs: Jobs, id: string)
    requires Registry(jobs) && id in Cleanup(jobs).table
    ensures id in jobs.table && Cleanup(jobs).table[id] == jobs.table[id]
  {
    CleanupKeepsNewest(jobs);
  }

  lemma StepTracked(jobs: Jobs, op: Op, now: real, id: string)
    requires Registry(jobs) && id in Step(jobs, op, now).0.table
    ensures id in jobs.table || (op.CreateJob? && op.jobId == id)
    ensures Step(jobs, op, now).0.table[id] ==
            if id != op.jobId then jobs.table[id] else if op.CreateJob? then NewJob(op, now)
            else Update(jobs.table[id], op, now).0
  {
    if op.CreateJob? || op.jobId !in jobs.table {
      assert Step(jobs, op, now).0 == if op.CreateJob? then jobs.Put(op.jobId, NewJob(op, now)) else jobs;
    } else if op.CompleteJob? {
      StepCompletes(jobs, op, now);
      EndedByPut(jobs, op, now);
      CleanupTracked(jobs.Put(op.jobId, Update(jobs.table[op.jobId], op, now).0), id);
    } else {
      StepUpdates(jobs, op, now);
    }
  }

  /** What a step leaves tracked: created, or tracked before and not evicted. */
  lemma TrackedMoved(p: Pipeline, e: Event, id: string)
    requires Registry(p.jobs) && id in Next(p, e).jobs.table
    ensures id in p.jobs.table || Creates(id)(e)
    ensures Next(p, e).jobs.table[id] ==
            if id in p.jobs.table then Moved(p.jobs.table[id], e, id) else NewJob(e.op, e.now)
  {
    if e.Call? { StepTracked(p.jobs, e.op, e.now, id); }
  }

  /** History. In every run, every tracked job and each of its phases is what the calls since
      its creation tell, whatever the worker did in between. */
  lemma {:induction false} TrackedAsTold(maxSize: int, db0: Db, es: seq<Event>, id: string)
    requires id in Run(Start(maxSize, db0), es).jobs.table
    ensures Told(es, id, Run(Start(maxSize, db0), es).jobs.table[id])
  {
    var init, e := es[..|es| - 1], es[|es| - 1];
    var p := Run(Start(maxSize, db0), init);
    TrackedMoved(p, e, id);
    assert es == init + [e];
    if id in p.jobs.table {
      TrackedAsTold(maxSize, db0, init, id);
      ToldSnoc(init, e, id, p.jobs.table[id]);
    } else {
      ToldSnoc(init, e, id, NewJob(e.op, e.now));
    }
  }

  lemma StepKeepsLive(jobs: Jobs, op: Op, now: real, id: string)
    requires Registry(jobs) && id in jobs.table
    requires id != op.jobId ==> !IsTerminal(jobs.table[id].status)
    requires !(id == op.jobId && op.CompleteJob?)
    ensures id in Step(jobs, op, now).0.table
  {
    if op.CompleteJob? && op.jobId in jobs.table {
      CleanupKeepsNewest(jobs.Put(op.jobId, Update(jobs.table[op.jobId], op, now).0));
    }
  }

  lemma NotEndedIsLive(es: seq<Event>, id: string, j: JobInfo)
    requires Told(es, id, j) && LastEnd(es, id) < Last(es, Creates(id))
    ensures !IsTerminal(j.status)
  {
    var d, k := Last(es, Decides(id)), Last(es, Cancels(id));
    if k > d {
      assert !Ends(es, k, id);
      LastPrefix(es, k, Decides(id));
    }
    assert Ends(es, d, id) || !Completes(id)(es[d]);
  }

  lemma {:induction false} LastPrefix(es: seq<Event>, n: nat, want: Event -> bool)
    requires Last(es, want) < n <= |es|
    ensures Last(es[..n], want) == Last(es, want)
  {
    if n < |es| {
      var init := es[..|es| - 1];
      assert init[..n] == es[..n];
      LastPrefix(init, n, want);
    } else {
      assert es[..n] == es;
    }
  }

  /** A job that has not been ended since its creation is tracked: only ended ones are evicted. */
  lemma {:induction false} LiveJobsTracked(maxSize: int, db0: Db, es: seq<Event>, id: string)
    requires Last(es, Creates(id)) >= 0 && LastEnd(es, id) < Last(es, Creates(id))
    ensures id in Run(Start(maxSize, db0), es).jobs.table
  {
    var init, e := es[..|es| - 1], es[|es| - 1];
    var p := Run(Start(maxSize, db0), init);
    assert es == init + [e];
    LastSnoc(init, e, Creates(id));
    LastEndSnoc(init, e, id);
    if !Creates(id)(e) {
      LiveJobsTracked(maxSize, db0, init, id);
      TrackedAsTold(maxSize, db0, init, id);
      NotEndedIsLive(init, id, p.jobs.table[id]);
      if e.Call? { StepKeepsLive(p.jobs, e.op, e.now, id); }
    }
  }

  /** The job's row and the rows of its leading phases say what the calls tell. */
  predicate RowsTold(es: seq<Event>, id: string, db: Db)
    requires Last(es, Decides(id)) >= 0 && Last(es, Creates(id)) >= 0
  {
    && id in db.jobs && JobRowTold(es, id, db.jobs[id])
    && var p := Last(es, SetsPhases(id));
       p >= 0 && p > Last(es, Creates(id)) ==>
         forall i :: 0 <= i < |es[p].op.specs| && FirstOfStep(es[p].op.specs, i) ==>
           PhaseRowTold(es, id, p, StepOf(es[p].op.specs, i), db)
  }

  predicate JobRowTold(es: seq<Event>, id: string, row: JobRow)
    requires Last(es, Decides(id)) >= 0 && Last(es, Creates(id)) >= 0
  {
    var p := Last(es, SetsPhases(id));
    && row.status == StatusTold(es, id)
    && row.totalPhases == (if p >= 0 && p > Last(es, Creates(id)) then |es[p].op.specs| else 0)
    && RowTimesTold(es, id, row) && RowTextsTold(es, id, row)
  }

  predicate RowTimesTold(es: seq<Event>, id: string, row: JobRow)
    requires Last(es, Creates(id)) >= 0
  {
    var c, f := Last(es, Creates(id)), LastEnd(es, id);
    && row.startedAt == es[c].now
    && row.finishedAt == (if f > c then Some(es[f].now) else None)
    && row.duration == (if f > c then Some(es[f].now - es[c].now) else None)
  }

  predicate RowTextsTold(es: seq<Event>, id: string, row: JobRow) {
    var done := Last(es, Completes(id));
    done >= 0 && done > Last(es, Creates(id)) ==>
      && (es[done].op.sessionId != "" ==> row.sessionId == es[done].op.sessionId)
      && (es[done].op.error != "" ==> row.error == es[done].op.error)
  }

  predicate PhaseRowTold(es: seq<Event>, id: string, p: nat, step: int, db: Db) {
    var s, f := Last(es, Starts(id, step)), Last(es, Finishes(id, step));
    && (id, step) in db.phases
    && var row := db.phases[(id, step)];
       && row.startedAt == (if s >= 0 && s > p then Some(es[s].now) else None)
       && row.finishedAt == (if f >= 0 && f > p then Some(es[f].now) else None)
       && row.status == (if f >= 0 && f > p && f > s then
                           (if es[f].op.success then PhaseCompleted else PhaseFailed)
                         else if s > p then PhaseRunning else PhasePending)
       && row.filesChanged == (if f >= 0 && f > p then es[f].op.files else [])
       && (f >= 0 && f > p && es[f].op.output != "" ==>
             && row.output <= es[f].op.output
             && |row.output| == if |es[f].op.output| <= 500 then |es[f].op.output| else 500)
  }

  lemma PhaseRowAsTold(es: seq<Event>, id: string, p: nat, i: nat, q: PhaseInfo, db: Db)
    requires p < |es| && SetsPhases(id)(es[p]) && i < |es[p].op.specs| && FirstOfStep(es[p].op.specs, i)
    requires PhaseTold(es, id, p, i, q)
    requires (id, q.step) in db.phases && PhaseMatches(q, db.phases[(id, q.step)])
    requires forall k :: 0 <= k < |es| && es[k].Call? ==> es[k].now > 0.0
    ensures PhaseRowTold(es, id, p, q.step, db)
  {
  }

  lemma RowTimesAsTold(es: seq<Event>, id: string, j: JobInfo, row: JobRow)
    requires OriginTold(es, id, j) && EndTold(es, id, j) && JobMatches(j, row)
    requires forall k :: 0 <= k < |es| && es[k].Call? ==> es[k].now > 0.0
    ensures RowTimesTold(es, id, row)
  {
    var f := LastEnd(es, id);
    if f > Last(es, Creates(id)) { assert es[f].now > 0.0; }
  }

  lemma RowTextsAsTold(es: seq<Event>, id: string, j: JobInfo, row: JobRow)
    requires TextsTold(es, id, j) && JobMatches(j, row)
    ensures RowTextsTold(es, id, row)
  {
  }

  lemma JobRowAsTold(es: seq<Event>, id: string, j: JobInfo, row: JobRow)
    requires Told(es, id, j) && JobMatches(j, row)
    requires forall k :: 0 <= k < |es| && es[k].Call? ==> es[k].now > 0.0
    ensures JobRowTold(es, id, row)
  {
    RowTimesAsTold(es, id, j, row);
    RowTextsAsTold(es, id, j, row);
    assert row.totalPhases == j.totalPhases && CountsTold(es, id, j);
  }

  lemma LeadsIsFirst(specs: seq<PhaseSpec>, phases: seq<PhaseInfo>, i: nat)
    requires |phases| == |specs| && i < |specs| && FirstOfStep(specs, i)
    requires forall m :: 0 <= m < |specs| ==> phases[m].step == StepOf(specs, m)
    ensures Leads(phases, i)
  {
  }

  lemma ShownAsTold(es: seq<Event>, id: string, j: JobInfo, db: Db)
    requires Told(es, id, j) && Shown(j, db)
    requires forall k :: 0 <= k < |es| && es[k].Call? ==> es[k].now > 0.0
    ensures RowsTold(es, id, db)
  {
    JobRowAsTold(es, id, j, db.jobs[id]);
    var p := Last(es, SetsPhases(id));
    if p >= 0 && p > Last(es, Creates(id)) {
      var specs := es[p].op.specs;
      assert forall m :: 0 <= m < |specs| ==> PhaseTold(es, id, p, m, j.phases[m]);
      forall i | 0 <= i < |specs| && FirstOfStep(specs, i) ensures PhaseRowTold(es, id, p, StepOf(specs, i), db) {
        LeadsIsFirst(specs, j.phases, i);
        PhaseRowAsTold(es, id, p, i, j.phases[i], db);
      }
    }
  }

  lemma {:induction false} ProperTimes(maxSize: int, db0: Db, es: seq<Event>)
    requires ProperRun(db0, Start(maxSize, db0), es)
    ensures forall k :: 0 <= k < |es| && es[k].Call? ==> es[k].now > 0.0
  {
    if es != [] { ProperTimes(maxSize, db0, es[..|es| - 1]); }
  }

  /** The rows, read off the calls: as soon as a tracked job's own writes are all in, its row
      and the rows of its leading phases are what the calls since its creation tell. */
  lemma RowsAsTold(maxSize: int, db0: Db, es: seq<Event>, id: string)
    requires ProperRun(db0, Start(maxSize, db0), es)
    requires var s := Run(Start(maxSize, db0), es); id in s.jobs.table && W.AllExecuted(s.writer, id)
    ensures Last(es, Decides(id)) >= 0 && Last(es, Creates(id)) >= 0
    ensures RowsTold(es, id, Run(Start(maxSize, db0), es).writer.db)
  {
    var s := Run(Start(maxSize, db0), es);
    TrackedAsTold(maxSize, db0, es, id);
    Drained(maxSize, db0, es);
    ProperTimes(maxSize, db0, es);
    ShownAsTold(es, id, s.jobs.table[id], s.writer.db);
  }

  // ---- how much history is kept ------------------------------------------------------------------

  /** Tracked jobs that have ended, well or badly. */
  function EndedIds(jobs: Jobs): set<string> {
    set id | id in jobs.table && jobs.table[id].status in {Completed, Failed, Cancelled}
  }

  /** Completing a job leaves exactly the ended ones tracked that were, this one included, up
      to fifty of them. */
  lemma HistoryBounded(jobs: Jobs, op: Op, now: real)
    requires Registry(jobs) && op.CompleteJob? && op.jobId in jobs.table
    ensures var ended := EndedIds(jobs) + {op.jobId};
            |EndedIds(Step(jobs, op, now).0)| == if |ended| <= 50 then |ended| else 50
    ensures EndedIds(Step(jobs, op, now).0) <= EndedIds(jobs) + {op.jobId}
  {
    var put := jobs.Put(op.jobId, Update(jobs.table[op.jobId], op, now).0);
    EndedByPut(jobs, op, now);
    EndedAfterCleanup(put);
    assert Step(jobs, op, now).0 == Cleanup(put);
  }

  lemma EndedByPut(jobs: Jobs, op: Op, now: real)
    requires Registry(jobs) && op.CompleteJob? && op.jobId in jobs.table
    ensures var put := jobs.Put(op.jobId, Update(jobs.table[op.jobId], op, now).0);
            Registry(put) && EndedIds(put) == EndedIds(jobs) + {op.jobId}
  {
  }

  lemma EndedAfterCleanup(jobs: Jobs)
    requires Registry(jobs)
    ensures |EndedIds(Cleanup(jobs))| == if |EndedIds(jobs)| <= 50 then |EndedIds(jobs)| else 50
    ensures EndedIds(Cleanup(jobs)) <= EndedIds(jobs)
  {
    EndedIsTerminal(jobs);
    EndedIsTerminal(Cleanup(jobs));
    CleanupCount(jobs);
    forall id | id in EndedIds(Cleanup(jobs)) ensures id in EndedIds(jobs) { CleanupTracked(jobs, id); }
  }

  lemma EndedIsTerminal(jobs: Jobs)
    ensures TerminalIds(jobs) == EndedIds(jobs)
  {
  }

  // ---- the end of a phase flushes its log --------------------------------------------------------

  /** Forcing these keys, one after the other. */
  function Forces(keys: seq<PhaseKey>): seq<B.Event> {
    seq(|keys|, i requires 0 <= i < |keys| => B.ForceFlush(keys[i]))
  }

  /** When the forces that a completed phase sends have reached the log buffer, the next
      snapshot hands over everything buffered for that phase. */
  lemma PhaseEndDrains(c: B.Config, es: seq<B.Event>, jobs: Jobs, op: Op, now: real, stopping: bool)
    requires op.CompletePhase? && op.jobId in jobs.table
    requires D.AboutToDrain(B.Run(c, es + Forces(FlushesAfter(jobs, op, true))), stopping)
    ensures var s, k := B.Run(c, es + Forces(FlushesAfter(jobs, op, true))), (op.jobId, op.step);
            var out := B.Next(c, s, B.Snapshot(now)).1.batches;
            B.Buf(s, k) != [] ==> k in out && out[k] == B.Buf(s, k)
  {
    var k, all := (op.jobId, op.step), es + Forces(FlushesAfter(jobs, op, true));
    assert all == es + [B.ForceFlush(k)];
    D.EventsSnoc(c, es, B.ForceFlush(k), k);
    D.LastHandOverSnoc(c, es, B.ForceFlush(k), k);
    D.RunRemembers(c, all, k);
    D.HandedOverIff(c, all, k, now, stopping);
  }
}
