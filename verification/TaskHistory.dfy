/** The status of a task read off the run: which loop took it, and whether that loop
    succeeded or crashed with it. */
module TaskHistory {
  import opened Prelude
  import opened TaskBoard

  /** Event `k` is the crash of the loop that holds the task. */
  predicate CrashesWith(es: seq<Event>, k: nat, id: string)
    requires k < |es|
  {
    es[k].Crash? && es[k].loop in Run(es[..k]).working && Run(es[..k]).working[es[k].loop] == id
  }

  predicate SucceedsWith(es: seq<Event>, k: nat, id: string)
    requires k < |es|
  {
    es[k].Succeed? && es[k].loop in Run(es[..k]).working && Run(es[..k]).working[es[k].loop] == id
  }

  /** The loop takes the task. */
  predicate TakesNow(t: Team, e: Event, l: Loop, id: string)
    requires t.tasks.Valid()
  {
    (e.Wake? || e.Succeed? || e.Crash?) && e.loop == l && id !in t.claims && id in Next(t, e).claims
  }

  ghost predicate Crashed(es: seq<Event>, id: string) {
    exists k :: 0 <= k < |es| && CrashesWith(es, k, id)
  }

  ghost predicate Succeeded(es: seq<Event>, id: string) {
    exists k :: 0 <= k < |es| && SucceedsWith(es, k, id)
  }

  predicate Final(s: Status) {
    s == Completed || s == Failed
  }

  /** What the run tells about a task on the board. */
  ghost predicate TaskTold(es: seq<Event>, id: string, task: Task) {
    && (task.status == Failed <==> Crashed(es, id))
    && (task.status == Completed <==> Succeeded(es, id))
    && (task.status == InProgress <==> id in Run(es).claims && !Crashed(es, id) && !Succeeded(es, id))
    && (task.status == Pending <==> id !in Run(es).claims)
    && (forall k :: 0 <= k < |es| && CrashesWith(es, k, id) ==> task.result == "FAILED: " + es[k].error)
    && (forall k :: 0 <= k < |es| && SucceedsWith(es, k, id) ==> task.result == es[k].result)
  }

  // ---- one step ------------------------------------------------------------------------

  predicate Settles(t: Team, e: Event, id: string) {
    (e.Succeed? || e.Crash?) && e.loop in t.working && t.working[e.loop] == id
  }

  lemma TopStatus(t: Team, l: Loop, id: string)
    requires t.tasks.Valid() && id in t.tasks.table
    ensures var t' := Top(t, l);
            && id in t'.tasks.table && t'.tasks.table[id].result == t.tasks.table[id].result
            && (t'.tasks.table[id].status != t.tasks.table[id].status ==>
                  t.tasks.table[id].status == Pending && t'.tasks.table[id].status == InProgress)
  {
  }

  lemma SettledStatus(t: Team, e: Event, id: string)
    requires Orderly(t) && Settles(t, e, id)
    ensures id in t.tasks.table && t.tasks.table[id].status == InProgress && id in Next(t, e).tasks.table
    ensures var task := Next(t, e).tasks.table[id];
            if e.Succeed? then task.status == Completed && task.result == e.result
            else task.status == Failed && task.result == "FAILED: " + e.error
  {
    HandedBackIs(t, e);
    TopStatus(HandedBack(t, e), e.loop, id);
  }

  lemma OtherHandedBack(t: Team, e: Event, id: string) returns (back: Team)
    requires Orderly(t) && (e.Succeed? || e.Crash?) && e.loop in t.working && t.working[e.loop] != id
    requires id in t.tasks.table
    ensures back.tasks.Valid() && id in back.tasks.table && back.tasks.table[id] == t.tasks.table[id]
    ensures Next(t, e) == Top(back, e.loop)
  {
    HandedBackIs(t, e);
    back := HandedBack(t, e);
    NextIsTop(t, e);
  }

  /** Neither handing back nor coming to the top of a loop: no task changes. */
  lemma QuietStep(t: Team, e: Event, id: string)
    requires Orderly(t) && Allowed(t, e) && id in t.tasks.table
    requires !e.Wake? && !((e.Succeed? || e.Crash?) && e.loop in t.working)
    ensures id in Next(t, e).tasks.table && Next(t, e).tasks.table[id] == t.tasks.table[id]
  {
  }

  lemma UnsettledTop(t: Team, back: Team, l: Loop, id: string)
    requires back.tasks.Valid() && id in t.tasks.table && id in back.tasks.table
    requires back.tasks.table[id] == t.tasks.table[id]
    ensures id in Top(back, l).tasks.table
    ensures var was, now := t.tasks.table[id], Top(back, l).tasks.table[id];
            now.result == was.result && (now.status != was.status ==> !Final(was.status) && !Final(now.status))
  {
    TopStatus(back, l, id);
  }

  lemma UnsettledStatus(t: Team, e: Event, id: string)
    requires Orderly(t) && Allowed(t, e) && !Settles(t, e, id) && id in t.tasks.table
    ensures id in Next(t, e).tasks.table
    ensures var was, now := t.tasks.table[id], Next(t, e).tasks.table[id];
            now.result == was.result && (now.status != was.status ==> !Final(was.status) && !Final(now.status))
  {
    if (e.Succeed? || e.Crash?) && e.loop in t.working {
      var back := OtherHandedBack(t, e, id);
      UnsettledTop(t, back, e.loop, id);
    } else if e.Wake? {
      TopStatus(t, e.loop, id);
    } else {
      QuietStep(t, e, id);
    }
  }

  lemma AddedStatus(t: Team, e: Event, id: string)
    requires Orderly(t) && id !in t.tasks.table && id in Next(t, e).tasks.table
    ensures e.AddTask? && Next(t, e).tasks.table[id].status == Pending
  {
    if !e.AddTask? { NextShape(t, e); }
  }

  // ---- whole runs ------------------------------------------------------------------------

  lemma SettledSnoc(es: seq<Event>, e: Event, id: string, k: nat)
    requires k <= |es|
    ensures CrashesWith(es + [e], k, id) <==>
            if k == |es| then e.Crash? && Settles(Run(es), e, id) else CrashesWith(es, k, id)
    ensures SucceedsWith(es + [e], k, id) <==>
            if k == |es| then e.Succeed? && Settles(Run(es), e, id) else SucceedsWith(es, k, id)
  {
    assert (es + [e])[..k] == es[..k];
    assert es[..|es|] == es;
  }

  lemma SettledEver(es: seq<Event>, e: Event, id: string)
    ensures Crashed(es + [e], id) <==> Crashed(es, id) || (e.Crash? && Settles(Run(es), e, id))
    ensures Succeeded(es + [e], id) <==> Succeeded(es, id) || (e.Succeed? && Settles(Run(es), e, id))
  {
    forall k: nat | k <= |es|
      ensures CrashesWith(es + [e], k, id) <==>
              if k == |es| then e.Crash? && Settles(Run(es), e, id) else CrashesWith(es, k, id)
      ensures SucceedsWith(es + [e], k, id) <==>
              if k == |es| then e.Succeed? && Settles(Run(es), e, id) else SucceedsWith(es, k, id)
    {
      SettledSnoc(es, e, id, k);
    }
    if e.Crash? && Settles(Run(es), e, id) { assert CrashesWith(es + [e], |es|, id); }
    if e.Succeed? && Settles(Run(es), e, id) { assert SucceedsWith(es + [e], |es|, id); }
    if k :| 0 <= k < |es| && CrashesWith(es, k, id) { assert CrashesWith(es + [e], k, id); }
    if k :| 0 <= k < |es| && SucceedsWith(es, k, id) { assert SucceedsWith(es + [e], k, id); }
  }

  /** The part of the story that the board's own invariant does not already tell. */
  ghost predicate EndTold(es: seq<Event>, id: string) {
    var tasks := Run(es).tasks.table;
    && (Crashed(es, id) || Succeeded(es, id) ==> id in tasks)
    && (id in tasks ==>
          && (tasks[id].status == Failed <==> Crashed(es, id))
          && (tasks[id].status == Completed <==> Succeeded(es, id)))
  }

  ghost predicate ResultTold(es: seq<Event>, id: string) {
    forall k :: 0 <= k < |es| && (CrashesWith(es, k, id) || SucceedsWith(es, k, id)) ==>
      && id in Run(es).tasks.table
      && Run(es).tasks.table[id].result == if es[k].Crash? then "FAILED: " + es[k].error else es[k].result
  }

  lemma EndSnoc(es: seq<Event>, e: Event, id: string)
    requires EndTold(es, id) && Orderly(Run(es)) && Allowed(Run(es), e)
    ensures EndTold(es + [e], id)
  {
    var t := Run(es);
    RunSnoc(es, e);
    SettledEver(es, e, id);
    if Settles(t, e, id) {
      SettledStatus(t, e, id);
    } else if id in t.tasks.table {
      UnsettledStatus(t, e, id);
    } else if id in Next(t, e).tasks.table {
      AddedStatus(t, e, id);
    }
  }

  lemma ResultSnoc(es: seq<Event>, e: Event, id: string)
    requires EndTold(es, id) && ResultTold(es, id) && Orderly(Run(es)) && Allowed(Run(es), e)
    ensures ResultTold(es + [e], id)
  {
    var t, all := Run(es), es + [e];
    RunSnoc(es, e);
    forall k | 0 <= k < |all| && (CrashesWith(all, k, id) || SucceedsWith(all, k, id))
      ensures id in Run(all).tasks.table
      ensures Run(all).tasks.table[id].result == if all[k].Crash? then "FAILED: " + all[k].error else all[k].result
    {
      SettledSnoc(es, e, id, k);
      if Settles(t, e, id) { SettledStatus(t, e, id); } else { UnsettledStatus(t, e, id); }
    }
  }

  lemma {:induction false} RunTold(es: seq<Event>, id: string)
    requires AllowedRun(es)
    ensures EndTold(es, id) && ResultTold(es, id)
  {
    if es != [] {
      var init, e := es[..|es| - 1], es[|es| - 1];
      assert es == init + [e];
      RunTold(init, id);
      RunOrderly(init);
      EndSnoc(init, e, id);
      ResultSnoc(init, e, id);
    }
  }

  /** Status, exactly. In every run a task on the board is failed if and only if a loop crashed
      with it in hand, completed if and only if one succeeded with it, in progress if it was
      claimed and neither happened, and pending if it was never claimed; its result is what
      that loop handed back. */
  lemma StatusAsTold(es: seq<Event>, id: string)
    requires AllowedRun(es) && id in Run(es).tasks.table
    ensures TaskTold(es, id, Run(es).tasks.table[id])
  {
    RunTold(es, id);
    RunOrderly(es);
  }

  /** A crash blocks for good whatever waits for the task, however indirectly: in no run after
      it, long or short, is such a task claimed. */
  lemma CrashBlocks(es: seq<Event>, k: nat, p: seq<string>)
    requires AllowedRun(es) && Chain(Run(es).tasks, p) && |p| >= 2
    requires k < |es| && CrashesWith(es, k, p[|p| - 1])
    ensures p[0] !in Run(es).claims && Run(es).tasks.table[p[0]].status == Pending && !AllDone(Run(es).tasks)
  {
    RunTold(es, p[|p| - 1]);
    NoFailedAncestor(es, p);
  }

  // ---- who holds it ------------------------------------------------------------------------

  lemma TopTakes(t: Team, l: Loop, k: Loop)
    requires Orderly(t) && k in Top(t, l).working
    ensures if k in t.working && t.working[k] == Top(t, l).working[k] then true
            else k == l && Top(t, l).working[k] !in t.claims && Top(t, l).working[k] in Top(t, l).claims
  {
  }

  lemma StepTakes(t: Team, e: Event, l: Loop)
    requires Orderly(t) && l in Next(t, e).working
    ensures if l in t.working && t.working[l] == Next(t, e).working[l] then !Settles(t, e, t.working[l])
            else TakesNow(t, e, l, Next(t, e).working[l])
  {
    if (e.Succeed? || e.Crash?) && e.loop in t.working {
      HandedBackIs(t, e);
      OrderlyHandedBack(t, e);
      TopTakes(HandedBack(t, e), e.loop, l);
      assert Holds(t.tasks, e.loop, t.working[e.loop]);
    } else if e.Wake? {
      TopTakes(t, e.loop, l);
    }
  }

  /** At some event of the run the loop took the task. */
  ghost predicate Took(es: seq<Event>, l: Loop, id: string) {
    exists k :: 0 <= k < |es| && TakesNow(Run(es[..k]), es[k], l, id)
  }

  lemma TookSnoc(es: seq<Event>, e: Event, l: Loop, id: string)
    requires Took(es, l, id) || TakesNow(Run(es), e, l, id)
    ensures Took(es + [e], l, id)
  {
    var all := es + [e];
    if k :| 0 <= k < |es| && TakesNow(Run(es[..k]), es[k], l, id) {
      assert all[..k] == es[..k] && all[k] == es[k];
    } else {
      assert all[..|es|] == es && all[|es|] == e;
    }
  }

  /** The loop that holds a task is the one that took it, and has not handed it back. */
  lemma {:induction false} HolderTook(es: seq<Event>, l: Loop)
    requires AllowedRun(es) && l in Run(es).working
    ensures Took(es, l, Run(es).working[l])
  {
    var init, e := es[..|es| - 1], es[|es| - 1];
    assert es == init + [e];
    RunOrderly(init);
    StepTakes(Run(init), e, l);
    if l in Run(init).working && Run(init).working[l] == Run(es).working[l] {
      HolderTook(init, l);
    }
    TookSnoc(init, e, l, Run(es).working[l]);
  }

  // ---- who is cancelled when the team stops -----------------------------------------------------

  /** Event `k` starts a loop for the agent. */
  predicate StartsFor(e: Event, agent: string) {
    e.Start? && agent in e.agents
  }

  /** The last start of a loop for the agent, or -1. */
  function LastStart(es: seq<Event>, agent: string): (k: int)
    ensures -1 <= k < |es|
    ensures k >= 0 ==> StartsFor(es[k], agent)
    ensures forall m :: 0 <= m < |es| && k < m ==> !StartsFor(es[m], agent)
  {
    if es == [] then -1
    else if StartsFor(es[|es| - 1], agent) then |es| - 1
    else LastStart(es[..|es| - 1], agent)
  }

  /** Event `k` started this very loop. */
  predicate StartedAt(es: seq<Event>, k: nat, l: Loop) {
    k < |es| && StartsFor(es[k], l.agent) && l.round == Run(es[..k]).rounds
  }

  /** What one step does to starts and loops. */
  lemma RoundsStep(t: Team, e: Event)
    requires t.tasks.Valid()
    ensures Next(t, e).rounds == t.rounds + if e.Start? then 1 else 0
  {
  }

  lemma NewestStart(t: Team, agents: set<string>, a: string)
    requires t.tasks.Valid()
    ensures var t' := Next(t, Start(agents));
            && (a in t'.newest <==> a in t.newest || a in agents)
            && (a in t'.newest ==> t'.newest[a] == if a in agents then t.rounds else t.newest[a])
  {
  }

  lemma NewestStep(t: Team, e: Event, a: string)
    requires t.tasks.Valid()
    ensures a in Next(t, e).newest <==> a in t.newest || StartsFor(e, a)
    ensures a in Next(t, e).newest ==> Next(t, e).newest[a] == if StartsFor(e, a) then t.rounds else t.newest[a]
  {
    if e.Start? { NewestStart(t, e.agents, a); } else { assert Next(t, e).newest == t.newest; }
  }

  lemma LiveStep(t: Team, e: Event, l: Loop)
    requires t.tasks.Valid() && l in Next(t, e).live
    ensures l in t.live || (StartsFor(e, l.agent) && l.round == t.rounds)
  {
  }

  lemma RunNext(es: seq<Event>, m: nat)
    requires m < |es|
    ensures Run(es[..m + 1]) == Next(Run(es[..m]), es[m])
  {
    assert es[..m + 1][..m] == es[..m];
  }

  lemma {:induction false} RoundsGrow(es: seq<Event>, k: nat, m: nat)
    requires k <= m <= |es|
    ensures Run(es[..k]).rounds <= Run(es[..m]).rounds
    ensures k < m && es[k].Start? ==> Run(es[..k]).rounds < Run(es[..m]).rounds
  {
    if k < m {
      RoundsGrow(es, k, m - 1);
      RunNext(es, m - 1);
      RoundsStep(Run(es[..m - 1]), es[m - 1]);
    }
  }

  lemma {:induction false} NewestTold(es: seq<Event>, agent: string)
    ensures var k := LastStart(es, agent);
            && (agent in Run(es).newest <==> k >= 0)
            && (k >= 0 ==> Run(es).newest[agent] == Run(es[..k]).rounds)
  {
    if es != [] {
      var init := es[..|es| - 1];
      NewestTold(init, agent);
      NewestStep(Run(init), es[|es| - 1], agent);
      var k := LastStart(init, agent);
      assert k >= 0 ==> init[..k] == es[..k];
    }
  }

  lemma {:induction false} LiveStarted(es: seq<Event>, l: Loop) returns (k: nat)
    requires l in Run(es).live
    ensures StartedAt(es, k, l)
  {
    var init, e := es[..|es| - 1], es[|es| - 1];
    LiveStep(Run(init), e, l);
    if l in Run(init).live {
      k := LiveStarted(init, l);
      assert init[..k] == es[..k];
    } else {
      k := |es| - 1;
    }
  }

  lemma CancelStep(t: Team, l: Loop)
    requires t.tasks.Valid()
    ensures l !in Next(t, Cancel(l)).live
  {
  }

  /** A loop that has been cancelled never comes back: another start makes another loop. */
  lemma {:induction false} CancelledStaysEnded(es: seq<Event>, k: nat, l: Loop)
    requires k < |es| && es[k] == Cancel(l) && l.round < Run(es[..k]).rounds
    ensures l !in Run(es).live
  {
    var init, e := es[..|es| - 1], es[|es| - 1];
    if k == |es| - 1 {
      CancelStep(Run(init), l);
    } else {
      assert init[..k] == es[..k];
      CancelledStaysEnded(init, k, l);
      RoundsGrow(init, k, |init|);
      assert init[..|init|] == init;
      if l in Run(es).live { LiveStep(Run(init), e, l); }
    }
  }

  lemma StopStep(t: Team, l: Loop)
    requires t.tasks.Valid()
    ensures !Next(t, Stop).running
    ensures l in Next(t, Stop).live <==> l in t.live && (l in t.working || !OnRecord(t, l))
  {
  }

  /** The loop on record for an agent is the one started last. */
  lemma OnRecordIff(es: seq<Event>, l: Loop, k: nat)
    requires StartedAt(es, k, l)
    ensures OnRecord(Run(es), l) <==> LastStart(es, l.agent) == k
  {
    NewestTold(es, l.agent);
    var last := LastStart(es, l.agent);
    assert last >= k;
    assert es[..|es|] == es;
    RoundsGrow(es, k, last);
  }

  /** Stopping, exactly. When `wait_until_done` ends, every loop without a task ends at once,
      except one whose agent has been started again since: nobody has that one on record. */
  lemma StopEnds(es: seq<Event>, l: Loop, k: nat)
    requires l in Run(es).live && StartedAt(es, k, l)
    ensures !Next(Run(es), Stop).running
    ensures l in Next(Run(es), Stop).live <==> l in Run(es).working || LastStart(es, l.agent) > k
  {
    OnRecordIff(es, l, k);
    StopStep(Run(es), l);
  }
}
