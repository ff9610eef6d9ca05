/** The shared task board, and the loops of its agents: started, claiming, executing,
    handing back, ending by themselves or cancelled. */
module TaskBoard {
  import opened Prelude

  datatype Status = Pending | InProgress | Completed | Failed | Blocked

  datatype Task = Task(status: Status, assignedTo: Option<string>, dependsOn: seq<string>, result: string)

  type Tasks = Dict<string, Task>

  /** Dependencies that are not on the board do not count. */
  predicate DepsDone(tasks: Tasks, deps: seq<string>) {
    forall d :: d in deps && d in tasks.table ==> tasks.table[d].status == Completed
  }

  predicate Claimable(tasks: Tasks, id: string)
    requires id in tasks.table
  {
    tasks.table[id].status == Pending && DepsDone(tasks, tasks.table[id].dependsOn)
  }

  /** The first claimable task in board order. */
  function FirstClaimable(tasks: Tasks, keys: seq<string>): (r: Option<string>)
    requires forall k :: k in keys ==> k in tasks.table
    ensures r.Some? ==> r.value in keys && Claimable(tasks, r.value)
    ensures r.Some? ==> exists i :: 0 <= i < |keys| && keys[i] == r.value &&
                          forall j :: 0 <= j < i ==> !Claimable(tasks, keys[j])
    ensures r.None? ==> forall k :: k in keys ==> !Claimable(tasks, k)
  {
    if keys == [] then None
    else if Claimable(tasks, keys[0]) then Some(keys[0])
    else
      assert forall k :: k in keys ==> k == keys[0] || k in keys[1..];
      var r := FirstClaimable(tasks, keys[1..]);
      assert r.Some? ==> exists i :: 0 <= i < |keys| - 1 && keys[1..][i] == r.value == keys[i + 1] &&
                           forall j :: 0 <= j < i ==> !Claimable(tasks, keys[1..][j]);
      assert forall i :: 0 < i < |keys| ==> keys[i] == keys[1..][i - 1];
      r
  }

  function Claimed(tasks: Tasks, id: string, agent: string): Tasks
    requires tasks.Valid() && id in tasks.table
  {
    tasks.Put(id, tasks.table[id].(status := InProgress, assignedTo := Some(agent)))
  }

  /** Blocked tasks whose dependencies are done become pending again. */
  function Unblocked(tasks: Tasks): Tasks {
    UnblockedIn(tasks, tasks.table.Keys)
  }

  function UnblockedIn(tasks: Tasks, ids: set<string>): Tasks {
    Dict(tasks.keys, map id | id in tasks.table ::
      if id in ids && tasks.table[id].status == Blocked && DepsDone(tasks, tasks.table[id].dependsOn)
      then tasks.table[id].(status := Pending) else tasks.table[id])
  }

  /** Unblocking one more task changes no completed status, hence no other verdict. */
  lemma UnblockOne(tasks: Tasks, ids: set<string>, id: string)
    requires tasks.Valid() && id in tasks.table && id !in ids
    ensures var so := UnblockedIn(tasks, ids);
            && so.Valid() && id in so.table && so.table[id] == tasks.table[id]
            && DepsDone(so, tasks.table[id].dependsOn) == DepsDone(tasks, tasks.table[id].dependsOn)
            && UnblockedIn(tasks, ids + {id}) ==
               if so.table[id].status == Blocked && DepsDone(so, so.table[id].dependsOn)
               then so.Put(id, so.table[id].(status := Pending)) else so
  {
    var so, now := UnblockedIn(tasks, ids), UnblockedIn(tasks, ids + {id});
    var deps := tasks.table[id].dependsOn;
    assert forall d :: d in tasks.table ==> (so.table[d].status == Completed <==> tasks.table[d].status == Completed);
    if tasks.table[id].status == Blocked && DepsDone(tasks, deps) {
      assert now.table == so.table[id := so.table[id].(status := Pending)];
    } else {
      assert now.table == so.table;
    }
  }

  lemma UnblockNone(tasks: Tasks)
    ensures UnblockedIn(tasks, Elems(tasks.keys[..0])) == tasks
  {
    assert UnblockedIn(tasks, Elems(tasks.keys[..0])).table == tasks.table;
  }

  lemma UnblockNext(tasks: Tasks, i: nat)
    requires tasks.Valid() && i < |tasks.keys|
    ensures var id, so := tasks.keys[i], UnblockedIn(tasks, Elems(tasks.keys[..i]));
            && so.Valid() && id in so.table
            && UnblockedIn(tasks, Elems(tasks.keys[..i + 1])) ==
               if so.table[id].status == Blocked && DepsDone(so, so.table[id].dependsOn)
               then so.Put(id, so.table[id].(status := Pending)) else so
  {
    var id := tasks.keys[i];
    assert tasks.keys[..i + 1] == tasks.keys[..i] + [id];
    assert Elems(tasks.keys[..i + 1]) == Elems(tasks.keys[..i]) + {id};
    UnblockOne(tasks, Elems(tasks.keys[..i]), id);
  }

  function CompletedTask(tasks: Tasks, id: string, result: string): Tasks
    requires tasks.Valid()
  {
    if id in tasks.table then Unblocked(tasks.Put(id, tasks.table[id].(status := Completed, result := result)))
        else tasks
  }

  function FailedTask(tasks: Tasks, id: string, error: string): Tasks
    requires tasks.Valid()
  {
    if id in tasks.table then tasks.Put(id, tasks.table[id].(status := Failed, result := "FAILED: " + error)) else tasks
  }

  predicate AllDone(tasks: Tasks) {
    forall id :: id in tasks.table ==> tasks.table[id].status == Completed || tasks.table[id].status == Failed
  }

  /** Completing a task makes exactly the blocked tasks pending whose on-board dependencies are
      then all completed, and changes no other task. */
  lemma CompletionUnblocks(tasks: Tasks, id: string, result: string, x: string)
    requires tasks.Valid() && id in tasks.table && x in tasks.table && x != id
    ensures var was, after := tasks.table[x], CompletedTask(tasks, id, result);
            && x in after.table && id in after.table
            && after.table[id] == tasks.table[id].(status := Completed, result := result)
            && after.table[x] ==
               (if was.status == Blocked
                   && (forall d :: d in was.dependsOn && d in tasks.table && d != id ==>
                         tasks.table[d].status == Completed)
                then was.(status := Pending) else was)
  {
  }

  // ---- a team at work -------------------------------------------------------------------

  /** One agent loop, named by its agent and the call of `start` that created it. */
  datatype Loop = Loop(agent: string, round: nat)

  datatype Team = Team(
    tasks: Tasks,
    running: bool,
    rounds: nat,                 // calls of `start` so far
    newest: map<string, nat>,    // agent -> round of the loop on record for it
    live: set<Loop>,             // loops that have not ended
    working: map<Loop, string>,  // loop -> the task its handler is running
    claims: seq<string>)         // every task ever handed out, in order

  datatype Event =
    | AddTask(id: string, deps: seq<string>)
    | Start(agents: set<string>)           // one new loop for each teammate
    | Wake(loop: Loop)                     // a loop without a task comes to its top
    | Succeed(loop: Loop, result: string)
    | Crash(loop: Loop, error: string)
    | Cancel(loop: Loop)                   // the loop is cancelled, maybe mid-task
    | Stop                                 // `wait_until_done` ends, done or timed out

  /** Generated ids are fresh: on no board entry and in no dependency list. */
  ghost predicate Fresh(tasks: Tasks, id: string, deps: seq<string>) {
    && id !in tasks.table && id !in deps
    && forall x :: x in tasks.table ==> id !in tasks.table[x].dependsOn
  }

  ghost predicate Allowed(t: Team, e: Event) {
    e.AddTask? ==> Fresh(t.tasks, e.id, e.deps)
  }

  function Assigned(t: Team, l: Loop, id: string): Team
    requires t.tasks.Valid() && id in t.tasks.table
  {
    t.(tasks := Claimed(t.tasks, id, l.agent), working := t.working[l := id], claims := t.claims + [id])
  }

  /** The top of the loop: leave for good, or take the next task if there is one. */
  function Top(t: Team, l: Loop): Team
    requires t.tasks.Valid()
  {
    if !t.running || AllDone(t.tasks) then t.(live := t.live - {l})
    else
      var pick := FirstClaimable(t.tasks, t.tasks.keys);
      if pick.None? then t else Assigned(t, l, pick.value)
  }

  /** The loop hands its task back, completed or failed. */
  function HandedBack(t: Team, e: Event): (r: Team)
    requires t.tasks.Valid() && (e.Succeed? || e.Crash?) && e.loop in t.working
    ensures r.tasks.Valid()
  {
    var id := t.working[e.loop];
    var tasks := if e.Succeed? then CompletedTask(t.tasks, id, e.result) else FailedTask(t.tasks, id, e.error);
    t.(tasks := tasks, working := t.working - {e.loop})
  }

  /** Handing back, the top of the loop and the next claim run without suspending: the
      board's lock is never held across a suspension, so nobody ever waits for it. */
  function Next(t: Team, e: Event): Team
    requires t.tasks.Valid()
  {
    match e
    case AddTask(id, deps) => t.(tasks := t.tasks.Put(id, Task(Pending, None, deps, "")))
    case Start(agents) =>
      t.(running := true, rounds := t.rounds + 1, newest := t.newest + map a | a in agents :: t.rounds,
         live := t.live + set a | a in agents :: Loop(a, t.rounds))
    case Wake(l) => if l in t.live && l !in t.working then Top(t, l) else t
    case Succeed(l, _) => if l in t.working then Top(HandedBack(t, e), l) else t
    case Crash(l, _) => if l in t.working then Top(HandedBack(t, e), l) else t
    case Cancel(l) => t.(live := t.live - {l}, working := t.working - {l})
    case Stop =>
      // loops asleep end at once; a handler may still answer the cancellation as it likes
      t.(running := false, live := set l | l in t.live && (l in t.working || !OnRecord(t, l)))
  }

  /** `wait_until_done` cancels only the loop that `start` last stored for an agent. */
  predicate OnRecord(t: Team, l: Loop) {
    l.agent in t.newest && t.newest[l.agent] == l.round
  }

  lemma ValidTop(t: Team, l: Loop)
    requires t.tasks.Valid()
    ensures Top(t, l).tasks.Valid()
  {
  }

  lemma ValidNext(t: Team, e: Event)
    requires t.tasks.Valid()
    ensures Next(t, e).tasks.Valid()
  {
    match e
    case AddTask(_, _) =>
    case Start(_) =>
    case Wake(l) => ValidTop(t, l);
    case Cancel(_) =>
    case Stop =>
    case _ => if e.loop in t.working { ValidTop(HandedBack(t, e), e.loop); }
  }

  const NEW_TEAM := Team(Dict([], map[]), false, 0, map[], {}, map[], [])

  function Run(es: seq<Event>): (t: Team)
    ensures t.tasks.Valid()
  {
    if es == [] then NEW_TEAM
    else
      ValidNext(Run(es[..|es| - 1]), es[|es| - 1]);
      Next(Run(es[..|es| - 1]), es[|es| - 1])
  }

  ghost predicate AllowedRun(es: seq<Event>) {
    es == [] || (AllowedRun(es[..|es| - 1]) && Allowed(Run(es[..|es| - 1]), es[|es| - 1]))
  }

  // ---- the protocol invariant ---------------------------------------------------------------

  /** Tasks are claimed once, and exactly those no longer pending, after their dependencies. */
  ghost predicate OrderlyBoard(tasks: Tasks, claims: seq<string>) {
    && tasks.Valid()
    && Distinct(claims)
    && (forall id :: id in claims ==> id in tasks.table)
    && (forall id :: id in tasks.table ==> tasks.table[id].status != Blocked)
    && (forall id :: id in tasks.table ==> (id in claims <==> tasks.table[id].status != Pending))
    && (forall id :: id in claims ==> DepsDone(tasks, tasks.table[id].dependsOn))
  }

  /** Live loops hold tasks in progress under their agent's name, no two the same. */
  ghost predicate OrderlyHands(t: Team) {
    && t.working.Keys <= t.live
    && (forall l :: l in t.working ==> Holds(t.tasks, l, t.working[l]))
    && (forall k, l :: k in t.working && l in t.working && t.working[k] == t.working[l] ==> k == l)
  }

  ghost predicate Orderly(t: Team) {
    OrderlyBoard(t.tasks, t.claims) && OrderlyHands(t)
  }

  predicate Holds(tasks: Tasks, l: Loop, id: string) {
    id in tasks.table && tasks.table[id].status == InProgress && tasks.table[id].assignedTo == Some(l.agent)
  }

  /** What no step undoes: tasks stay on the board with their dependencies, and
      completed and failed tasks keep their status. */
  ghost predicate Advances(t: Team, t': Team) {
    && t.claims <= t'.claims
    && forall id :: id in t.tasks.table ==>
         && id in t'.tasks.table
         && t'.tasks.table[id].dependsOn == t.tasks.table[id].dependsOn
         && (t.tasks.table[id].status in {Completed, Failed} ==> t'.tasks.table[id].status == t.tasks.table[id].status)
  }

  lemma AdvancesTransitive(a: Team, b: Team, c: Team)
    requires Advances(a, b) && Advances(b, c)
    ensures Advances(a, c)
  {
  }

  lemma BoardAdd(tasks: Tasks, claims: seq<string>, id: string, deps: seq<string>)
    requires OrderlyBoard(tasks, claims) && Fresh(tasks, id, deps)
    ensures OrderlyBoard(tasks.Put(id, Task(Pending, None, deps, "")), claims)
  {
    var now := tasks.Put(id, Task(Pending, None, deps, ""));
    forall x | x in claims ensures DepsDone(now, now.table[x].dependsOn) {
      assert DepsDone(tasks, tasks.table[x].dependsOn);
    }
  }

  lemma OrderlyAdd(t: Team, e: Event)
    requires Orderly(t) && e.AddTask? && Allowed(t, e)
    ensures Orderly(Next(t, e)) && Advances(t, Next(t, e))
  {
    BoardAdd(t.tasks, t.claims, e.id, e.deps);
  }

  lemma BoardClaim(tasks: Tasks, claims: seq<string>, id: string, agent: string)
    requires OrderlyBoard(tasks, claims) && id in tasks.table && Claimable(tasks, id)
    ensures OrderlyBoard(Claimed(tasks, id, agent), claims + [id])
  {
    var now := Claimed(tasks, id, agent);
    assert id !in claims;
    forall x | x in claims + [id] ensures DepsDone(now, now.table[x].dependsOn) {
      assert DepsDone(tasks, tasks.table[x].dependsOn);
    }
  }

  lemma HandsClaim(t: Team, l: Loop, id: string)
    requires t.tasks.Valid() && OrderlyHands(t) && l in t.live && l !in t.working
    requires id in t.tasks.table && t.tasks.table[id].status == Pending
    ensures OrderlyHands(Assigned(t, l, id))
  {
    var t' := Assigned(t, l, id);
    forall k | k in t.working ensures Holds(t'.tasks, k, t.working[k]) && t.working[k] != id {
      assert Holds(t.tasks, k, t.working[k]);
    }
  }

  /** Handing out a claimable task keeps the board in order. */
  lemma ClaimOne(t: Team, l: Loop, id: string)
    requires Orderly(t) && l in t.live && l !in t.working && id in t.tasks.table && Claimable(t.tasks, id)
    ensures Orderly(Assigned(t, l, id)) && Advances(t, Assigned(t, l, id))
  {
    BoardClaim(t.tasks, t.claims, id, l.agent);
    HandsClaim(t, l, id);
  }

  lemma OrderlyTop(t: Team, l: Loop)
    requires Orderly(t) && l in t.live && l !in t.working
    ensures Orderly(Top(t, l)) && Advances(t, Top(t, l))
  {
    var pick := FirstClaimable(t.tasks, t.tasks.keys);
    if t.running && !AllDone(t.tasks) && pick.Some? {
      ClaimOne(t, l, pick.value);
    }
  }

  lemma NothingToUnblock(tasks: Tasks)
    requires forall id :: id in tasks.table ==> tasks.table[id].status != Blocked
    ensures Unblocked(tasks) == tasks
  {
    assert Unblocked(tasks).table == tasks.table;
  }

  /** The held task after a handler has returned or raised. */
  function Outcome(t: Team, e: Event): Task
    requires (e.Succeed? || e.Crash?) && e.loop in t.working && t.working[e.loop] in t.tasks.table
  {
    var task := t.tasks.table[t.working[e.loop]];
    if e.Succeed? then task.(status := Completed, result := e.result)
    else task.(status := Failed, result := "FAILED: " + e.error)
  }

  /** Handing back changes the held task and no other: on these boards nothing is blocked. */
  lemma HandedBackIs(t: Team, e: Event)
    requires Orderly(t) && (e.Succeed? || e.Crash?) && e.loop in t.working
    ensures var id := t.working[e.loop];
            && id in t.tasks.table && t.tasks.table[id].status == InProgress
            && HandedBack(t, e) == t.(tasks := t.tasks.Put(id, Outcome(t, e)), working := t.working - {e.loop})
  {
    var id := t.working[e.loop];
    assert Holds(t.tasks, e.loop, id);
    NothingToUnblock(t.tasks.Put(id, Outcome(t, e)));
  }

  lemma BoardSettle(tasks: Tasks, claims: seq<string>, id: string, task: Task)
    requires OrderlyBoard(tasks, claims) && id in tasks.table && tasks.table[id].status == InProgress
    requires task.dependsOn == tasks.table[id].dependsOn && (task.status == Completed || task.status == Failed)
    ensures OrderlyBoard(tasks.Put(id, task), claims)
  {
    var now := tasks.Put(id, task);
    forall x | x in claims ensures DepsDone(now, now.table[x].dependsOn) {
      assert DepsDone(tasks, tasks.table[x].dependsOn);
    }
  }

  lemma HandsSettle(t: Team, l: Loop, task: Task)
    requires t.tasks.Valid() && OrderlyHands(t) && l in t.working
    ensures OrderlyHands(t.(tasks := t.tasks.Put(t.working[l], task), working := t.working - {l}))
  {
    forall k | k in t.working && k != l ensures t.working[k] != t.working[l] && Holds(t.tasks, k, t.working[k]) {
    }
  }

  /** Settling the task a loop holds disturbs no one else. */
  lemma OrderlyHandedBack(t: Team, e: Event)
    requires Orderly(t) && (e.Succeed? || e.Crash?) && e.loop in t.working
    ensures Orderly(HandedBack(t, e)) && Advances(t, HandedBack(t, e))
  {
    HandedBackIs(t, e);
    BoardSettle(t.tasks, t.claims, t.working[e.loop], Outcome(t, e));
    HandsSettle(t, e.loop, Outcome(t, e));
  }

  lemma OrderlyNext(t: Team, e: Event)
    requires Orderly(t) && Allowed(t, e)
    ensures Orderly(Next(t, e)) && Advances(t, Next(t, e))
  {
    match e
    case AddTask(_, _) => OrderlyAdd(t, e);
    case Wake(l) => if l in t.live && l !in t.working { OrderlyTop(t, l); }
    case Start(_) =>
    case Cancel(_) =>
    case Stop =>
    case _ =>
      if e.loop in t.working {
        OrderlyHandedBack(t, e);
        OrderlyTop(HandedBack(t, e), e.loop);
        AdvancesTransitive(t, HandedBack(t, e), Next(t, e));
      }
  }

  /** Task board runs. In every run each task is claimed at most once, and every
      dependency of a claimed task that is on the board is completed, now and later. */
  lemma {:induction false} RunOrderly(es: seq<Event>)
    requires AllowedRun(es)
    ensures Orderly(Run(es))
  {
    if es != [] {
      RunOrderly(es[..|es| - 1]);
      OrderlyNext(Run(es[..|es| - 1]), es[|es| - 1]);
    }
  }

  // ---- ancestors ------------------------------------------------------------------------------

  /** A chain of on-board tasks, each depending on the next. */
  ghost predicate Chain(tasks: Tasks, p: seq<string>) {
    && |p| >= 1 && (forall i :: 0 <= i < |p| ==> p[i] in tasks.table)
    && forall i :: 0 <= i < |p| - 1 ==> p[i + 1] in tasks.table[p[i]].dependsOn
  }

  lemma {:induction false} AncestorsCompleted(t: Team, p: seq<string>, k: nat)
    requires Orderly(t) && Chain(t.tasks, p) && p[0] in t.claims && 0 < k < |p|
    ensures t.tasks.table[p[k]].status == Completed
  {
    if k > 1 {
      AncestorsCompleted(t, p, k - 1);
    }
    assert p[k - 1] in t.claims;
    assert p[k] in t.tasks.table[p[k - 1]].dependsOn;
  }

  /** No task with a failed ancestor on the board is ever claimed. */
  lemma NoFailedAncestor(es: seq<Event>, p: seq<string>)
    requires AllowedRun(es) && Chain(Run(es).tasks, p) && |p| >= 2
    requires Run(es).tasks.table[p[|p| - 1]].status == Failed
    ensures p[0] !in Run(es).claims && Run(es).tasks.table[p[0]].status == Pending
  {
    RunOrderly(es);
    var t := Run(es);
    if p[0] in t.claims {
      AncestorsCompleted(t, p, |p| - 1);
    }
  }

  lemma {:induction false} RunAdvances(es: seq<Event>, n: nat)
    requires AllowedRun(es) && n <= |es|
    ensures AllowedRun(es[..n]) && Advances(Run(es[..n]), Run(es))
  {
    if n == |es| {
      assert es[..n] == es;
    } else {
      var init := es[..|es| - 1];
      RunAdvances(init, n);
      assert init[..n] == es[..n];
      RunOrderly(init);
      OrderlyNext(Run(init), es[|es| - 1]);
      AdvancesTransitive(Run(es[..n]), Run(init), Run(es));
    }
  }

  /** A failure blocks its descendants for good: once a chain ends in a failed task, its
      head stays pending in every later state, so the board is never all done. */
  lemma FailureBlocksForever(es: seq<Event>, n: nat, p: seq<string>)
    requires AllowedRun(es) && n <= |es|
    requires Chain(Run(es[..n]).tasks, p) && |p| >= 2 && Run(es[..n]).tasks.table[p[|p| - 1]].status == Failed
    ensures p[0] in Run(es).tasks.table && Run(es).tasks.table[p[0]].status == Pending
    ensures !AllDone(Run(es).tasks)
  {
    RunAdvances(es, n);
    var t := Run(es);
    assert Chain(t.tasks, p);
    NoFailedAncestor(es, p);
  }

  // ---- dependencies stand in board order ------------------------------------------------------

  /** Every on-board dependency of a task stands before it in board order. */
  ghost predicate Ranked(tasks: Tasks) {
    forall i, d ::
      (0 <= i < |tasks.keys| && tasks.keys[i] in tasks.table
       && d in tasks.table[tasks.keys[i]].dependsOn && d in tasks.table) ==> d in tasks.keys[..i]
  }

  /** Same tasks with the same dependencies, in the same order. */
  ghost predicate SameShape(a: Tasks, b: Tasks) {
    && a.keys == b.keys && a.table.Keys == b.table.Keys
    && forall id :: id in a.table ==> a.table[id].dependsOn == b.table[id].dependsOn
  }

  lemma RankedShape(a: Tasks, b: Tasks)
    requires Ranked(a) && SameShape(a, b)
    ensures Ranked(b)
  {
  }

  lemma RankedAdd(t: Team, e: Event)
    requires t.tasks.Valid() && Ranked(t.tasks) && e.AddTask? && Allowed(t, e)
    ensures Ranked(Next(t, e).tasks)
  {
    var was, now := t.tasks, Next(t, e).tasks;
    assert now.keys == was.keys + [e.id];
    forall i, d | 0 <= i < |now.keys| && now.keys[i] in now.table
               && d in now.table[now.keys[i]].dependsOn && d in now.table
      ensures d in now.keys[..i]
    {
      if i < |was.keys| {
        assert now.keys[i] == was.keys[i] && was.keys[i] in was.table;
        assert d != e.id;
        assert now.keys[..i] == was.keys[..i];
      } else {
        assert now.keys[..i] == was.keys;
      }
    }
  }

  lemma TopShape(t: Team, l: Loop)
    requires t.tasks.Valid()
    ensures SameShape(t.tasks, Top(t, l).tasks)
  {
  }

  lemma HandedBackShape(t: Team, e: Event)
    requires Orderly(t) && (e.Succeed? || e.Crash?) && e.loop in t.working
    ensures SameShape(t.tasks, HandedBack(t, e).tasks)
  {
    HandedBackIs(t, e);
  }

  lemma NextShape(t: Team, e: Event)
    requires Orderly(t) && !e.AddTask?
    ensures SameShape(t.tasks, Next(t, e).tasks)
  {
    if e.Wake? {
      TopShape(t, e.loop);
    } else if (e.Succeed? || e.Crash?) && e.loop in t.working {
      HandedBackShape(t, e);
      TopShape(HandedBack(t, e), e.loop);
    }
  }

  // ---- tasks nobody holds any more --------------------------------------------------------------

  /** The task a step abandons: its loop is cancelled while the handler runs. */
  function LeftBehind(t: Team, e: Event): set<string> {
    if e.Cancel? && e.loop in t.working then {t.working[e.loop]} else {}
  }

  function Abandoned(es: seq<Event>): set<string> {
    if es == [] then {} else Abandoned(es[..|es| - 1]) + LeftBehind(Run(es[..|es| - 1]), es[|es| - 1])
  }

  /** The abandoned tasks are exactly those in progress in nobody's hands. */
  ghost predicate Orphans(t: Team, lost: set<string>) {
    forall id :: id in lost <==>
      id in t.tasks.table && t.tasks.table[id].status == InProgress && id !in t.working.Values
  }

  lemma LeavesHand(t: Team, l: Loop, id: string)
    requires Orderly(t) && l in t.working
    ensures id in (t.working - {l}).Values <==> id in t.working.Values && id != t.working[l]
  {
    var rest := t.working - {l};
    if id in rest.Values {
      var k :| k in rest && rest[k] == id;
      assert k in t.working && t.working[k] == id;
    }
    if id in t.working.Values && id != t.working[l] {
      var k :| k in t.working && t.working[k] == id;
      assert k in rest && rest[k] == id;
    }
  }

  lemma TakesHand(t: Team, l: Loop, task: string, id: string)
    requires l !in t.working
    ensures id in t.working[l := task].Values <==> id in t.working.Values || id == task
  {
    var more := t.working[l := task];
    if id in t.working.Values {
      var k :| k in t.working && t.working[k] == id;
      assert k in more && more[k] == id;
    }
    assert l in more && more[l] == task;
  }

  lemma OrphansTop(t: Team, l: Loop, lost: set<string>)
    requires Orderly(t) && l !in t.working && Orphans(t, lost)
    ensures Orphans(Top(t, l), lost)
  {
    var pick, t' := FirstClaimable(t.tasks, t.tasks.keys), Top(t, l);
    if t.running && !AllDone(t.tasks) && pick.Some? {
      forall id ensures id in t'.working.Values <==> id in t.working.Values || id == pick.value {
        TakesHand(t, l, pick.value, id);
      }
    }
  }

  lemma OrphansHandedBack(t: Team, e: Event, lost: set<string>)
    requires Orderly(t) && Orphans(t, lost) && (e.Succeed? || e.Crash?) && e.loop in t.working
    ensures Orphans(HandedBack(t, e), lost)
  {
    HandedBackIs(t, e);
    assert t.working[e.loop] in t.working.Values;
    forall id ensures id in HandedBack(t, e).working.Values <==> id in t.working.Values && id != t.working[e.loop] {
      LeavesHand(t, e.loop, id);
    }
  }

  lemma OrphansCancel(t: Team, l: Loop, lost: set<string>)
    requires Orderly(t) && Orphans(t, lost)
    ensures Orphans(Next(t, Cancel(l)), lost + LeftBehind(t, Cancel(l)))
  {
    var t' := Next(t, Cancel(l));
    if l in t.working {
      assert Holds(t.tasks, l, t.working[l]);
      forall id ensures id in t'.working.Values <==> id in t.working.Values && id != t.working[l] {
        LeavesHand(t, l, id);
      }
      assert t.working[l] in t.working.Values;
    } else {
      assert t'.working == t.working;
    }
  }

  lemma OrphansAdd(t: Team, e: Event, lost: set<string>)
    requires Orderly(t) && e.AddTask? && Allowed(t, e) && Orphans(t, lost)
    ensures Orphans(Next(t, e), lost)
  {
    assert forall l :: l in t.working ==> Holds(t.tasks, l, t.working[l]);
  }

  lemma NextIsTop(t: Team, e: Event)
    requires t.tasks.Valid() && (e.Succeed? || e.Crash?) && e.loop in t.working
    ensures Next(t, e) == Top(HandedBack(t, e), e.loop) && e.loop !in HandedBack(t, e).working
  {
  }

  lemma OrphansSettle(t: Team, e: Event, lost: set<string>)
    requires Orderly(t) && Orphans(t, lost) && (e.Succeed? || e.Crash?) && e.loop in t.working
    ensures Orphans(Next(t, e), lost)
  {
    NextIsTop(t, e);
    OrderlyHandedBack(t, e);
    OrphansHandedBack(t, e, lost);
    OrphansTop(HandedBack(t, e), e.loop, lost);
  }

  lemma OrphansNext(t: Team, e: Event, lost: set<string>)
    requires Orderly(t) && Allowed(t, e) && Orphans(t, lost)
    ensures Orphans(Next(t, e), lost + LeftBehind(t, e))
  {
    match e
    case AddTask(_, _) => OrphansAdd(t, e, lost);
    case Wake(l) => if l in t.live && l !in t.working { OrphansTop(t, l, lost); }
    case Cancel(l) => OrphansCancel(t, l, lost);
    case Start(_) =>
    case Stop =>
    case _ => if e.loop in t.working { OrphansSettle(t, e, lost); }
  }

  lemma {:induction false} RunOrphans(es: seq<Event>)
    requires AllowedRun(es)
    ensures Orphans(Run(es), Abandoned(es)) && Ranked(Run(es).tasks)
  {
    if es != [] {
      var init, e := es[..|es| - 1], es[|es| - 1];
      RunOrphans(init);
      RunOrderly(init);
      OrphansNext(Run(init), e, Abandoned(init));
      if e.AddTask? {
        RankedAdd(Run(init), e);
      } else {
        NextShape(Run(init), e);
        RankedShape(Run(init).tasks, Next(Run(init), e).tasks);
      }
    }
  }

  predicate NeedsFailed(tasks: Tasks, id: string)
    requires id in tasks.table
  {
    exists d :: d in tasks.table[id].dependsOn && d in tasks.table && tasks.table[d].status == Failed
  }

  /** Some task on the board depends on a failed one. */
  predicate Blighted(tasks: Tasks) {
    exists id :: id in tasks.table && NeedsFailed(tasks, id)
  }

  /** A failed ancestor at any distance is the same as one that is a direct dependency. */
  lemma BlightedIffAncestor(tasks: Tasks)
    ensures Blighted(tasks) <==> exists p :: Chain(tasks, p) && |p| >= 2 && tasks.table[p[|p| - 1]].status == Failed
  {
    if Blighted(tasks) {
      var id :| id in tasks.table && NeedsFailed(tasks, id);
      var d :| d in tasks.table[id].dependsOn && d in tasks.table && tasks.table[d].status == Failed;
      assert Chain(tasks, [id, d]);
    }
    if p :| Chain(tasks, p) && |p| >= 2 && tasks.table[p[|p| - 1]].status == Failed {
      assert p[|p| - 1] in tasks.table[p[|p| - 2]].dependsOn;
      assert NeedsFailed(tasks, p[|p| - 2]);
    }
  }

  // ---- exactly when a board can still be finished ---------------------------------------------

  lemma RunSnoc(es: seq<Event>, e: Event)
    ensures Run(es + [e]) == Next(Run(es), e)
    ensures AllowedRun(es + [e]) <==> AllowedRun(es) && Allowed(Run(es), e)
    ensures Abandoned(es + [e]) == Abandoned(es) + LeftBehind(Run(es), e)
  {
    assert (es + [e])[..|es + [e]| - 1] == es;
  }

  function Open(tasks: Tasks): set<string> {
    set id | id in tasks.table && tasks.table[id].status == Pending
  }

  function Unfinished(tasks: Tasks): set<string> {
    set id | id in tasks.table && tasks.table[id].status != Completed
  }

  /** Somebody is there to claim. */
  predicate Staffed(t: Team) {
    t.running && t.live != {}
  }

  /** A longer run that adds no further task and starts no further loop. */
  ghost predicate Unaided(es: seq<Event>, all: seq<Event>) {
    es <= all && forall i :: |es| <= i < |all| ==> !all[i].AddTask? && !all[i].Start?
  }

  /** A run that has left no task behind and no task waiting for a failed one. */
  ghost predicate Hopeful(es: seq<Event>) {
    AllowedRun(es) && Abandoned(es) == {} && !Blighted(Run(es).tasks)
  }

  /** Nothing is left to claim, or somebody is there to claim it. */
  predicate Manned(t: Team) {
    Open(t.tasks) == {} || Staffed(t)
  }

  /** A task may start or complete without blighting anything. */
  lemma PutHopeful(tasks: Tasks, id: string, task: Task)
    requires tasks.Valid() && id in tasks.table && !Blighted(tasks)
    requires task.dependsOn == tasks.table[id].dependsOn && (task.status == InProgress || task.status == Completed)
    ensures !Blighted(tasks.Put(id, task)) && Open(tasks.Put(id, task)) == Open(tasks) - {id}
    ensures Unfinished(tasks.Put(id, task)) ==
            if task.status == Completed then Unfinished(tasks) - {id} else Unfinished(tasks) + {id}
  {
  }

  lemma AssignedHopeful(t: Team, l: Loop, id: string)
    requires Orderly(t) && !Blighted(t.tasks) && Staffed(t) && id in t.tasks.table
    ensures var t' := Assigned(t, l, id);
            && !Blighted(t'.tasks) && Staffed(t')
            && Unfinished(t'.tasks) == Unfinished(t.tasks) + {id}
  {
    PutHopeful(t.tasks, id, t.tasks.table[id].(status := InProgress, assignedTo := Some(l.agent)));
  }

  /** The top of a loop blights nothing, finishes nothing, and leaves somebody to claim
      whatever is still to be claimed. */
  lemma TopHopeful(t: Team, l: Loop)
    requires Orderly(t) && l in t.live && !Blighted(t.tasks) && Manned(t)
    ensures var t' := Top(t, l);
            !Blighted(t'.tasks) && Unfinished(t'.tasks) == Unfinished(t.tasks) && Manned(t')
  {
    var pick := FirstClaimable(t.tasks, t.tasks.keys);
    if !t.running || AllDone(t.tasks) {
      assert Open(t.tasks) == {};
    } else if pick.Some? {
      AssignedHopeful(t, l, pick.value);
      assert pick.value in Unfinished(t.tasks);
      assert Top(t, l) == Assigned(t, l, pick.value);
    }
  }

  lemma SucceedIsTop(t: Team, l: Loop) returns (back: Team)
    requires Orderly(t) && l in t.working
    ensures var id := t.working[l];
            && id in t.tasks.table && t.tasks.table[id].status == InProgress && t.live == back.live
            && back.tasks == t.tasks.Put(id, t.tasks.table[id].(status := Completed, result := ""))
    ensures Orderly(back) && back.running == t.running && l !in back.working
    ensures Next(t, Succeed(l, "")) == Top(back, l)
  {
    HandedBackIs(t, Succeed(l, ""));
    OrderlyHandedBack(t, Succeed(l, ""));
    back := HandedBack(t, Succeed(l, ""));
  }

  /** A success of a working handler, before the top of its loop: one task less to finish. */
  lemma SucceedStep(t: Team, l: Loop) returns (back: Team)
    requires Orderly(t) && !Blighted(t.tasks) && Manned(t) && l in t.working
    ensures Orderly(back) && l in back.live && !Blighted(back.tasks) && Manned(back)
    ensures Unfinished(back.tasks) < Unfinished(t.tasks) && Next(t, Succeed(l, "")) == Top(back, l)
  {
    back := SucceedIsTop(t, l);
    var id := t.working[l];
    PutHopeful(t.tasks, id, t.tasks.table[id].(status := Completed, result := ""));
    assert id in Unfinished(t.tasks);
  }

  lemma SucceedNext(t: Team, l: Loop)
    requires Orderly(t) && !Blighted(t.tasks) && Manned(t) && l in t.working
    ensures var t' := Next(t, Succeed(l, ""));
            !Blighted(t'.tasks) && Manned(t') && Unfinished(t'.tasks) < Unfinished(t.tasks)
  {
    var back := SucceedStep(t, l);
    TopHopeful(back, l);
  }

  /** A handler at work may succeed, and the board is one task closer to done. */
  lemma SucceedHopeful(es: seq<Event>, l: Loop) returns (es': seq<Event>)
    requires Hopeful(es) && Manned(Run(es)) && l in Run(es).working
    ensures Unaided(es, es') && Hopeful(es') && Manned(Run(es'))
    ensures Unfinished(Run(es').tasks) < Unfinished(Run(es).tasks)
  {
    RunOrderly(es);
    SucceedNext(Run(es), l);
    es' := es + [Succeed(l, "")];
    RunSnoc(es, Succeed(l, ""));
  }

  lemma FirstOpen(tasks: Tasks, n: nat) returns (i: nat)
    requires tasks.Valid() && n < |tasks.keys| && tasks.keys[n] in Open(tasks)
    ensures i <= n && tasks.keys[i] in Open(tasks)
    ensures forall m :: 0 <= m < i ==> tasks.keys[m] !in Open(tasks)
  {
    i := 0;
    while tasks.keys[i] !in Open(tasks)
      invariant i <= n && forall m :: 0 <= m < i ==> tasks.keys[m] !in Open(tasks)
      decreases n - i
    {
      i := i + 1;
    }
  }

  /** With nobody working and no failed dependency, the first pending task can be claimed. */
  lemma SomethingClaimable(t: Team, id: string)
    requires Orderly(t) && Ranked(t.tasks) && Orphans(t, {}) && t.working == map[] && !Blighted(t.tasks)
    requires id in Open(t.tasks)
    ensures FirstClaimable(t.tasks, t.tasks.keys).Some?
  {
    var keys := t.tasks.keys;
    var n :| 0 <= n < |keys| && keys[n] == id;
    var i := FirstOpen(t.tasks, n);
    var x := keys[i];
    forall d | d in t.tasks.table[x].dependsOn && d in t.tasks.table ensures t.tasks.table[d].status == Completed {
      assert d in keys[..i];
      var m :| 0 <= m < i && keys[m] == d;
      assert t.tasks.table[d].status != Pending;
      assert d !in t.working.Values;
    }
    assert Claimable(t.tasks, x) && x in keys;
  }

  /** With nobody working and nothing abandoned, an unfinished board has an open task. */
  lemma SomethingOpen(t: Team)
    requires Orderly(t) && Orphans(t, {}) && t.working == map[] && !AllDone(t.tasks)
    ensures Open(t.tasks) != {}
  {
    var id :| id in t.tasks.table && t.tasks.table[id].status != Completed && t.tasks.table[id].status != Failed;
    assert id !in t.working.Values;
    assert id in Open(t.tasks);
  }

  lemma ClaimsOnWaking(t: Team, l: Loop)
    requires Orderly(t) && Ranked(t.tasks) && Orphans(t, {}) && t.working == map[] && !Blighted(t.tasks)
    requires t.running && !AllDone(t.tasks)
    ensures l in Top(t, l).working
  {
    SomethingOpen(t);
    var id :| id in Open(t.tasks);
    SomethingClaimable(t, id);
  }

  /** An idle loop that wakes finds a task. */
  lemma WakeNext(t: Team) returns (l: Loop)
    requires Orderly(t) && Ranked(t.tasks) && Orphans(t, {}) && t.working == map[] && !Blighted(t.tasks)
    requires Manned(t) && !AllDone(t.tasks)
    ensures var t' := Next(t, Wake(l));
            !Blighted(t'.tasks) && Manned(t') && Unfinished(t'.tasks) == Unfinished(t.tasks) && l in t'.working
  {
    SomethingOpen(t);
    l :| l in t.live;
    TopHopeful(t, l);
    ClaimsOnWaking(t, l);
    assert Next(t, Wake(l)) == Top(t, l);
  }

  lemma WakeHopeful(es: seq<Event>) returns (es': seq<Event>)
    requires Hopeful(es) && Manned(Run(es)) && Run(es).working == map[] && !AllDone(Run(es).tasks)
    ensures Unaided(es, es') && Hopeful(es') && Manned(Run(es')) && Run(es').working != map[]
    ensures Unfinished(Run(es').tasks) == Unfinished(Run(es).tasks)
  {
    RunOrderly(es);
    RunOrphans(es);
    var l := WakeNext(Run(es));
    es' := es + [Wake(l)];
    RunSnoc(es, Wake(l));
  }

  lemma {:induction false} FinishAll(es: seq<Event>) returns (all: seq<Event>)
    requires Hopeful(es) && Manned(Run(es))
    ensures Unaided(es, all) && Finishes(es, all)
    decreases Unfinished(Run(es).tasks), Run(es).working == map[]
  {
    var t := Run(es);
    if AllDone(t.tasks) {
      all := es;
    } else if t.working == map[] {
      var next := WakeHopeful(es);
      all := FinishAll(next);
    } else {
      var l :| l in t.working;
      var next := SucceedHopeful(es, l);
      all := FinishAll(next);
    }
  }

  lemma {:induction false} AbandonedForever(es: seq<Event>, n: nat)
    requires n <= |es|
    ensures Abandoned(es[..n]) <= Abandoned(es)
  {
    if n == |es| {
      assert es[..n] == es;
    } else {
      assert es[..|es| - 1][..n] == es[..n];
      AbandonedForever(es[..|es| - 1], n);
    }
  }

  /** A longer run at whose end every task is completed or failed. */
  ghost predicate Finishes(es: seq<Event>, all: seq<Event>) {
    es <= all && AllowedRun(all) && AllDone(Run(all).tasks)
  }

  lemma NeverDone(es: seq<Event>, all: seq<Event>)
    requires es <= all && AllowedRun(all) && (Blighted(Run(es).tasks) || Abandoned(es) != {})
    ensures !Finishes(es, all)
  {
    assert all[..|es|] == es;
    if Blighted(Run(es).tasks) {
      BlightedIffAncestor(Run(es).tasks);
      var p :| Chain(Run(es).tasks, p) && |p| >= 2 && Run(es).tasks.table[p[|p| - 1]].status == Failed;
      FailureBlocksForever(all, |es|, p);
    } else {
      var id :| id in Abandoned(es);
      AbandonedForever(all, |es|);
      RunOrphans(all);
      assert id in Abandoned(all);
    }
  }

  /** A pending task that nobody is there to claim. */
  ghost predicate Stranded(t: Team, id: string) {
    id in Open(t.tasks) && !Staffed(t)
  }

  lemma StrandedNext(t: Team, e: Event, id: string)
    requires Orderly(t) && Allowed(t, e) && Stranded(t, id) && !e.Start?
    ensures Stranded(Next(t, e), id)
  {
    if (e.Succeed? || e.Crash?) && e.loop in t.working {
      HandedBackIs(t, e);
      assert !t.running;
    }
  }

  lemma {:induction false} StrandedForever(es: seq<Event>, all: seq<Event>, id: string)
    requires es <= all && AllowedRun(all) && Stranded(Run(es), id)
    requires forall i :: |es| <= i < |all| ==> !all[i].Start?
    ensures Stranded(Run(all), id)
  {
    if es == all {
    } else {
      var init := all[..|all| - 1];
      StrandedForever(es, init, id);
      RunOrderly(init);
      StrandedNext(Run(init), all[|all| - 1], id);
    }
  }

  lemma HopelessForever(es: seq<Event>, all: seq<Event>)
    requires AllowedRun(es) && !Hopeful(es)
    ensures !Finishes(es, all)
  {
    if es <= all && AllowedRun(all) { NeverDone(es, all); }
  }

  /** Calling `start` mans the team. */
  lemma StartHopeful(es: seq<Event>, agent: string)
    requires Hopeful(es)
    ensures Hopeful(es + [Start({agent})]) && Manned(Run(es + [Start({agent})]))
  {
    RunSnoc(es, Start({agent}));
    assert Loop(agent, Run(es).rounds) in Run(es + [Start({agent})]).live;
  }

  lemma FinishStarted(es: seq<Event>, agent: string) returns (all: seq<Event>)
    requires Hopeful(es)
    ensures Finishes(es, all) && Unaided(es + [Start({agent})], all)
  {
    StartHopeful(es, agent);
    all := FinishAll(es + [Start({agent})]);
    assert es <= es + [Start({agent})];
  }

  /** When a board can still be finished, exactly. After any run, some longer run ends with
      every task completed or failed if and only if no task on the board depends on a
      failed one and no loop was cancelled with a task in hand. One more `start`, of any
      one teammate, is then enough. */
  lemma FinishableIff(es: seq<Event>, agent: string)
    requires AllowedRun(es)
    ensures (exists all :: Finishes(es, all)) <==> !Blighted(Run(es).tasks) && Abandoned(es) == {}
    ensures (exists all :: Finishes(es, all)) ==>
            exists all :: Finishes(es, all) && Unaided(es + [Start({agent})], all)
  {
    if Hopeful(es) {
      var all := FinishStarted(es, agent);
    } else {
      forall all ensures !Finishes(es, all) { HopelessForever(es, all); }
    }
  }

  /** A longer run in which `start` is not called again. */
  ghost predicate NotRestarted(es: seq<Event>, all: seq<Event>) {
    es <= all && forall i :: |es| <= i < |all| ==> !all[i].Start?
  }

  /** When it can be finished by the loops there are, exactly: in addition no task may be
      pending, or the team must be running with a loop that has not ended. Adding tasks
      does not help. */
  lemma FinishableAsStaffedIff(es: seq<Event>)
    requires AllowedRun(es)
    ensures (exists all :: Finishes(es, all) && NotRestarted(es, all)) <==>
            !Blighted(Run(es).tasks) && Abandoned(es) == {} && (Open(Run(es).tasks) == {} || Staffed(Run(es)))
    ensures (exists all :: Finishes(es, all) && NotRestarted(es, all)) ==>
            exists all :: Finishes(es, all) && Unaided(es, all)
  {
    if !Hopeful(es) {
      forall all ensures !Finishes(es, all) { HopelessForever(es, all); }
    } else if Manned(Run(es)) {
      var all := FinishAll(es);
      assert Finishes(es, all) && NotRestarted(es, all) && Unaided(es, all);
    } else {
      var id :| id in Open(Run(es).tasks);
      forall all | Finishes(es, all) && NotRestarted(es, all) ensures false {
        StrandedForever(es, all, id);
      }
    }
  }

  /** A team started on an empty board has no loop left when the first task comes. */
  lemma EmptyBoardEndsLoop(agent: string)
    ensures var t := Next(Next(NEW_TEAM, Start({agent})), Wake(Loop(agent, 0)));
            && t.live == {} && t.working == map[] && t.tasks == NEW_TEAM.tasks
            && Allowed(t, AddTask("late", []))
            && Next(t, AddTask("late", [])).live == {}
            && Next(t, AddTask("late", [])).tasks == Dict(["late"], map["late" := Task(Pending, None, [], "")])
  {
    var t := Next(NEW_TEAM, Start({agent}));
    assert t.live == {Loop(agent, 0)};
    assert [] + ["late"] == ["late"];
  }

  lemma RunTwo(a: Event, b: Event)
    requires Allowed(NEW_TEAM, a) && Allowed(Next(NEW_TEAM, a), b) && !a.Cancel? && !b.Cancel?
    ensures Run([a, b]) == Next(Next(NEW_TEAM, a), b) && AllowedRun([a, b]) && Abandoned([a, b]) == {}
  {
    RunSnoc([], a);
    RunSnoc([a], b);
    assert [] + [a] == [a] && [a] + [b] == [a, b];
  }

  lemma LateTask(agent: string) returns (es: seq<Event>)
    ensures es == [Start({agent}), Wake(Loop(agent, 0)), AddTask("late", [])]
    ensures AllowedRun(es) && Abandoned(es) == {}
    ensures Run(es).live == {} && Run(es).tasks == Dict(["late"], map["late" := Task(Pending, None, [], "")])
  {
    var start, wake, add := Start({agent}), Wake(Loop(agent, 0)), AddTask("late", []);
    EmptyBoardEndsLoop(agent);
    RunTwo(start, wake);
    RunSnoc([start, wake], add);
    es := [start, wake] + [add];
  }

  /** Loops end for good once they find the board all done, and an empty board is: a task
      added after that is claimed by nobody until the next `start`. */
  lemma LateTaskStranded(agent: string) returns (es: seq<Event>)
    ensures es == [Start({agent}), Wake(Loop(agent, 0)), AddTask("late", [])]
    ensures AllowedRun(es) && Stranded(Run(es), "late")
    ensures forall all :: AllowedRun(all) && NotRestarted(es, all) ==> !Finishes(es, all)
    ensures exists all :: Finishes(es, all)
  {
    es := LateTask(agent);
    assert Stranded(Run(es), "late");
    FinishableIff(es, agent);
    forall all | AllowedRun(all) && NotRestarted(es, all) ensures !Finishes(es, all) {
      StrandedForever(es, all, "late");
    }
  }

  // ---- the board object -----------------------------------------------------------------------

  class Board {
    var tasks: Tasks

    constructor ()
      ensures tasks == Dict([], map[])
    {
      tasks := Dict([], map[]);
    }

    method Add(id: string, deps: seq<string>)
      requires tasks.Valid()
      modifies this
      ensures tasks.Valid() && tasks == old(tasks).Put(id, Task(Pending, None, deps, ""))
    {
      tasks := tasks.Put(id, Task(Pending, None, deps, ""));
    }

    /** Claim the next available task, if any. */
    method ClaimTask(agent: string) returns (r: Option<string>)
      requires tasks.Valid()
      modifies this
      ensures tasks.Valid() && r == FirstClaimable(old(tasks), old(tasks).keys)
      ensures tasks == if r.Some? then Claimed(old(tasks), r.value, agent) else old(tasks)
    {
      r := FindClaimable();
      if r.Some? {
        var id := r.value;
        tasks := tasks.Put(id, tasks.table[id].(status := InProgress, assignedTo := Some(agent)));
      }
    }

    method FindClaimable() returns (r: Option<string>)
      requires tasks.Valid()
      ensures r == FirstClaimable(tasks, tasks.keys)
    {
      var keys := tasks.keys;
      for i := 0 to |keys|
        invariant FirstClaimable(tasks, keys) == FirstClaimable(tasks, keys[i..])
      {
        var id, rest := keys[i], keys[i..];
        assert rest[0] == id && rest[1..] == keys[i + 1..];
        var ok := IsClaimable(id);
        if ok {
          return Some(id);
        }
      }
      return None;
    }

    method IsClaimable(id: string) returns (ok: bool)
      requires id in tasks.table
      ensures ok == Claimable(tasks, id)
    {
      if tasks.table[id].status != Pending {
        return false;
      }
      ok := CheckDeps(tasks.table[id].dependsOn);
    }

    method CheckDeps(deps: seq<string>) returns (ok: bool)
      ensures ok == DepsDone(tasks, deps)
    {
      for i := 0 to |deps|
        invariant forall j :: 0 <= j < i && deps[j] in tasks.table ==> tasks.table[deps[j]].status == Completed
      {
        if deps[i] in tasks.table && tasks.table[deps[i]].status != Completed {
          return false;
        }
      }
      return true;
    }

    method CompleteTask(id: string, result: string)
      requires tasks.Valid()
      modifies this
      ensures tasks.Valid() && tasks == CompletedTask(old(tasks), id, result)
    {
      if id in tasks.table {
        tasks := tasks.Put(id, tasks.table[id].(status := Completed, result := result));
        CheckUnblock();
      }
    }

    method FailTask(id: string, error: string)
      requires tasks.Valid()
      modifies this
      ensures tasks.Valid() && tasks == FailedTask(old(tasks), id, error)
    {
      if id in tasks.table {
        tasks := tasks.Put(id, tasks.table[id].(status := Failed, result := "FAILED: " + error));
      }
    }

    method CheckUnblock()
      requires tasks.Valid()
      modifies this
      ensures tasks.Valid() && tasks == Unblocked(old(tasks))
    {
      ghost var was := tasks;
      var keys := tasks.keys;
      UnblockNone(was);
      for i := 0 to |keys|
        invariant tasks == UnblockedIn(was, Elems(keys[..i]))
      {
        UnblockNext(was, i);
        UnblockAt(keys[i]);
      }
      assert keys[..|keys|] == keys;
      assert Elems(keys) == was.table.Keys;
    }

    method UnblockAt(id: string)
      requires tasks.Valid() && id in tasks.table
      modifies this
      ensures tasks == if old(tasks).table[id].status == Blocked && DepsDone(old(tasks), old(tasks).table[id].dependsOn)
                       then old(tasks).Put(id, old(tasks).table[id].(status := Pending)) else old(tasks)
    {
      if tasks.table[id].status == Blocked {
        var ok := CheckDeps(tasks.table[id].dependsOn);
        if ok {
          tasks := tasks.Put(id, tasks.table[id].(status := Pending));
        }
      }
    }
  }
}
