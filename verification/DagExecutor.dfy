/** Batched execution of a task graph whose nodes may depend on unknown ids or on
    each other in cycles. */
module DagExecutor {
  datatype Node = Node(dependsOn: seq<string>, difficulty: string, expected: string)

  /** What awaiting one subagent can do. */
  datatype Outcome =
    | Returned(success: bool, output: string)
    | TimedOut
    | Raised(message: string)

  datatype Result = Result(success: bool, output: string)

  const FAILED_PREFIX := "[success=False]"
  const SKIPPED := Result(false, "[success=False] Skipped: dependency failed")

  // ---- result evaluation --------------------------------------------------------------

  /** Python's `str.isspace` characters. */
  predicate IsSpace(c: char) {
    var n := c as int;
    || 9 <= n <= 13 || 28 <= n <= 32 || n == 0x85 || n == 0xa0 || n == 0x1680
    || 0x2000 <= n <= 0x200a || n == 0x2028 || n == 0x2029 || n == 0x202f || n == 0x205f || n == 0x3000
  }

  predicate Blank(s: string) {
    forall i :: 0 <= i < |s| ==> IsSpace(s[i])
  }

  predicate StartsWith(s: string, prefix: string) {
    prefix <= s
  }

  /** The evaluator's verdict "normal". */
  predicate Normal(output: string) {
    !Blank(output) && !StartsWith(output, FAILED_PREFIX)
  }

  /** `str.strip`: drop spaces at both ends. */
  function Strip(s: string): (r: string)
    decreases |s|
  {
    if s != "" && IsSpace(s[0]) then Strip(s[1..])
    else if s != "" && IsSpace(s[|s| - 1]) then Strip(s[..|s| - 1])
    else s
  }

  /** `s[a..b]` is what stripping leaves: spaces around it, none at its ends. */
  predicate Stripped(s: string, a: nat, b: nat) {
    && a <= b <= |s| && Strip(s) == s[a..b]
    && (forall i :: 0 <= i < a ==> IsSpace(s[i])) && (forall i :: b <= i < |s| ==> IsSpace(s[i]))
    && (a < b ==> !IsSpace(s[a]) && !IsSpace(s[b - 1]))
  }

  /** Stripping removes spaces only, and as many as it can. */
  lemma {:induction false} StripIs(s: string) returns (a: nat, b: nat)
    ensures Stripped(s, a, b)
    decreases |s|
  {
    if s != "" && IsSpace(s[0]) {
      a, b := StripIs(s[1..]);
      assert s[1..][a..b] == s[a + 1..b + 1];
      a, b := a + 1, b + 1;
    } else if s != "" && IsSpace(s[|s| - 1]) {
      a, b := StripIs(s[..|s| - 1]);
      assert s[..|s| - 1][a..b] == s[a..b];
    } else {
      a, b := 0, |s|;
      assert s[0..|s|] == s;
    }
  }

  lemma BlankIff(s: string)
    ensures Blank(s) <==> Strip(s) == ""
  {
    var a, b := StripIs(s);
    assert a < b ==> !IsSpace(s[a]);
  }

  lemma StartsWithIff(s: string, prefix: string)
    ensures StartsWith(s, prefix) <==> |s| >= |prefix| && s[..|prefix|] == prefix
  {
  }

  /** The verdict, exactly: normal means something is left after stripping, and the text
      does not begin with "[success=False]". */
  lemma VerdictIff(output: string)
    ensures Normal(output) <==>
            Strip(output) != "" && !(|output| >= 15 && output[..15] == "[success=False]")
  {
    BlankIff(output);
    StartsWithIff(output, FAILED_PREFIX);
    assert |FAILED_PREFIX| == 15;
  }

  function TimeoutText(difficulty: string): string {
    if difficulty == "low" then "60"
    else if difficulty == "medium" then "180"
    else if difficulty == "high" then "600"
    else "180"
  }

  /** The result recorded for a spawned node. */
  function Recorded(node: Node, o: Outcome): Result {
    match o
    case Returned(success, output) => Result(success, output)
    case TimedOut =>
      Result(false, "[success=False] Tool execution timed out after " + TimeoutText(node.difficulty) + "s.")
    case Raised(message) => Result(false, "[success=False] Exception: " + message)
  }

  /** Timeouts, exceptions and skips are never evaluated as normal. */
  lemma FailuresAreAbnormal(node: Node, o: Outcome)
    requires !o.Returned?
    ensures !Normal(Recorded(node, o).output) && !Normal(SKIPPED.output)
    ensures !Recorded(node, o).success && FAILED_PREFIX <= Recorded(node, o).output && !SKIPPED.success
  {
    assert FAILED_PREFIX <= "[success=False] Tool execution timed out after ";
    assert FAILED_PREFIX <= "[success=False] Exception: ";
    assert FAILED_PREFIX <= SKIPPED.output;
  }

  /** A timeout names the seconds the node's difficulty allows, and 180 for an unknown one. */
  lemma TimeoutTexts(node: Node)
    ensures var text := Recorded(node, TimedOut).output;
            && (node.difficulty == "low" ==> text == "[success=False] Tool execution timed out after 60s.")
            && (node.difficulty == "high" ==> text == "[success=False] Tool execution timed out after 600s.")
            && (node.difficulty !in {"low", "high"} ==>
                  text == "[success=False] Tool execution timed out after 180s.")
  {
    var head := "[success=False] Tool execution timed out after ";
    assert head + "60" + "s." == "[success=False] Tool execution timed out after 60s.";
    assert head + "600" + "s." == "[success=False] Tool execution timed out after 600s.";
    assert head + "180" + "s." == "[success=False] Tool execution timed out after 180s.";
  }

  // ---- the record of an execution --------------------------------------------------------

  /** One round: the nodes spawned together and the context each of them was given. */
  datatype Batch = Batch(ids: set<string>, context: map<string, string>)

  type Nodes = map<string, Node>
  type Context = map<string, string>
  type Spawn = (string, Context) -> Outcome

  function Spawned(batches: seq<Batch>): set<string> {
    set b, n | b in batches && n in b.ids :: n
  }

  /** Nodes of these batches that completed normally. */
  function Done(batches: seq<Batch>, results: map<string, Result>): set<string> {
    set n | n in Spawned(batches) && n in results && Normal(results[n].output)
  }

  /** `base` with the outputs of `ids` written over it. */
  function Publish(base: Context, ids: set<string>, results: map<string, Result>): Context
    requires ids <= results.Keys
  {
    map n | n in base.Keys + ids :: if n in ids then results[n].output else base[n]
  }

  /** The shared context after these batches: completed outputs over the initial one. */
  function ContextAfter(initial: Context, batches: seq<Batch>, results: map<string, Result>): Context {
    Publish(initial, Done(batches, results), results)
  }

  function NormalIds(ids: set<string>, results: map<string, Result>): set<string>
    requires ids <= results.Keys
  {
    set n | n in ids && Normal(results[n].output)
  }

  /** The results of running these nodes side by side, all from one context. */
  function Gather(nodes: Nodes, ids: set<string>, spawn: Spawn, context: Context): map<string, Result>
    requires ids <= nodes.Keys
  {
    map n | n in ids :: Recorded(nodes[n], spawn(n, context))
  }

  predicate Ready(node: Node, done: set<string>) {
    forall d :: d in node.dependsOn ==> d in done
  }

  /** Batch `k` spawned exactly the unspawned nodes whose dependencies had all
      completed in earlier batches, all with the context those batches built. */
  ghost predicate BatchSound(nodes: Nodes, initial: Context, spawn: Spawn, batches: seq<Batch>,
      results: map<string, Result>, k: nat)
    requires k < |batches|
  {
    var before := batches[..k];
    && batches[k].ids == (set n | n in nodes && n !in Spawned(before) && Ready(nodes[n], Done(before, results)))
    && batches[k].ids != {}
    && batches[k].context == ContextAfter(initial, before, results)
    && (forall n :: n in batches[k].ids ==>
        n in results && results[n] == Recorded(nodes[n], spawn(n, batches[k].context)))
  }

  ghost predicate TraceSound(nodes: Nodes, initial: Context, spawn: Spawn, batches: seq<Batch>,
      results: map<string, Result>)
  {
    forall k :: 0 <= k < |batches| ==> BatchSound(nodes, initial, spawn, batches, results, k)
  }

  // ---- consequences of a sound trace ----------------------------------------------------------

  lemma SpawnedPrefix(batches: seq<Batch>, k: nat)
    requires k <= |batches|
    ensures Spawned(batches[..k]) <= Spawned(batches)
  {
  }

  lemma SpawnedStep(batches: seq<Batch>, k: nat)
    requires k < |batches|
    ensures Spawned(batches[..k + 1]) == Spawned(batches[..k]) + batches[k].ids
  {
    assert batches[..k + 1] == batches[..k] + [batches[k]];
  }

  /** A node is spawned in at most one batch. */
  lemma SpawnedOnce(nodes: Nodes, initial: Context, spawn: Spawn, batches: seq<Batch>, results: map<string, Result>,
      j: nat, k: nat)
    requires TraceSound(nodes, initial, spawn, batches, results) && j < k < |batches|
    ensures batches[j].ids !! batches[k].ids
  {
    assert BatchSound(nodes, initial, spawn, batches, results, k);
    assert batches[j] in batches[..k] by { assert batches[..k][j] == batches[j]; }
  }

  /** Closed sets: they contain every node whose dependencies they contain and whose
      result is normal. */
  ghost predicate Closed(nodes: Nodes, results: map<string, Result>, c: set<string>) {
    forall n :: n in nodes && n in results && Ready(nodes[n], c) && Normal(results[n].output) ==> n in c
  }

  lemma {:induction false} DoneWithinClosed(nodes: Nodes, initial: Context, spawn: Spawn, batches: seq<Batch>,
      results: map<string, Result>, c: set<string>, k: nat)
    requires TraceSound(nodes, initial, spawn, batches, results) && Closed(nodes, results, c) && k <= |batches|
    ensures Done(batches[..k], results) <= c
  {
    if k > 0 {
      DoneWithinClosed(nodes, initial, spawn, batches, results, c, k - 1);
      SpawnedStep(batches, k - 1);
      assert BatchSound(nodes, initial, spawn, batches, results, k - 1);
      var normal := set n | n in batches[k - 1].ids && Normal(results[n].output);
      assert Done(batches[..k], results) <= Done(batches[..k - 1], results) + normal;
    }
  }

  /** When execution stops: nothing unspawned is ready. */
  ghost predicate Stuck(nodes: Nodes, batches: seq<Batch>, results: map<string, Result>) {
    forall n :: n in nodes && n !in Spawned(batches) ==> !Ready(nodes[n], Done(batches, results))
  }

  /** Fixpoint. At the end of a sound trace the completed set is the least closed set,
      and the spawned nodes are exactly those whose dependencies all completed. */
  lemma Fixpoint(nodes: Nodes, initial: Context, spawn: Spawn, batches: seq<Batch>, results: map<string, Result>)
    requires TraceSound(nodes, initial, spawn, batches, results) && Stuck(nodes, batches, results)
    requires forall n :: n in nodes && n !in Spawned(batches) && n in results ==> !Normal(results[n].output)
    ensures var done := Done(batches, results);
            && Closed(nodes, results, done)
            && (forall c :: Closed(nodes, results, c) ==> done <= c)
            && (forall n :: n in nodes ==> (n in Spawned(batches) <==> Ready(nodes[n], done)))
  {
    var done := Done(batches, results);
    assert batches[..|batches|] == batches;
    forall c | Closed(nodes, results, c) ensures done <= c {
      DoneWithinClosed(nodes, initial, spawn, batches, results, c, |batches|);
    }
    forall n | n in nodes && n in Spawned(batches) ensures Ready(nodes[n], done) {
      var b :| b in batches && n in b.ids;
      var k :| 0 <= k < |batches| && batches[k] == b;
      assert BatchSound(nodes, initial, spawn, batches, results, k);
      SpawnedPrefix(batches, k);
    }
  }

  // ---- what an execution without failures completes --------------------------------------------

  /** A chain of nodes, each depending on the next; its last element may be unknown. */
  ghost predicate DependencyChain(nodes: Nodes, p: seq<string>) {
    && |p| >= 1
    && forall i :: 0 <= i < |p| - 1 ==> p[i] in nodes && p[i + 1] in nodes[p[i]].dependsOn
  }

  /** The chain ends in an unknown id, or where it has been before. */
  ghost predicate EndsBadly(nodes: Nodes, p: seq<string>) {
    |p| >= 1 && (p[|p| - 1] !in nodes || p[|p| - 1] in p[..|p| - 1])
  }

  /** No dependency chain from the node reaches an unknown id or a cycle. */
  ghost predicate Resolvable(nodes: Nodes, n: string) {
    forall p :: DependencyChain(nodes, p) && p[0] == n ==> !EndsBadly(nodes, p)
  }

  /** The subagent answers, with more than spaces, and not with the failure prefix. */
  predicate AnswersWell(o: Outcome) {
    && o.Returned?
    && (exists i :: 0 <= i < |o.output| && !IsSpace(o.output[i]))
    && !(FAILED_PREFIX <= o.output)
  }

  /** The dependencies of a completed node completed in earlier batches. */
  lemma EarlierBatch(nodes: Nodes, initial: Context, spawn: Spawn, batches: seq<Batch>, results: map<string, Result>,
      n: string, k: nat, d: string) returns (j: nat)
    requires TraceSound(nodes, initial, spawn, batches, results) && k < |batches|
    requires n in batches[k].ids && n in nodes && d in nodes[n].dependsOn
    ensures j < k && d in batches[j].ids && d in nodes
  {
    assert BatchSound(nodes, initial, spawn, batches, results, k);
    assert d in Done(batches[..k], results);
    var b :| b in batches[..k] && d in b.ids;
    j :| 0 <= j < k && batches[..k][j] == b;
    assert BatchSound(nodes, initial, spawn, batches, results, j);
  }

  /** Along a chain from a spawned node the batches strictly go back, so it ends well. */
  lemma {:induction false} ChainGoesBack(nodes: Nodes, initial: Context, spawn: Spawn, batches: seq<Batch>,
      results: map<string, Result>, p: seq<string>, k: nat) returns (at: seq<nat>)
    requires TraceSound(nodes, initial, spawn, batches, results) && DependencyChain(nodes, p)
    requires k < |batches| && p[0] in batches[k].ids
    ensures |at| == |p| && forall i :: 0 <= i < |p| ==> at[i] < |batches| && p[i] in batches[at[i]].ids
    ensures forall i, j :: 0 <= i < j < |p| ==> at[j] < at[i]
    decreases |p|
  {
    if |p| == 1 {
      at := [k];
    } else {
      var init := p[..|p| - 1];
      at := ChainGoesBack(nodes, initial, spawn, batches, results, init, k);
      var last := |init| - 1;
      assert p[last] == init[last] && p[last + 1] in nodes[p[last]].dependsOn;
      var j := EarlierBatch(nodes, initial, spawn, batches, results, p[last], at[last], p[|p| - 1]);
      at := at + [j];
    }
  }

  lemma SpawnedIsResolvable(nodes: Nodes, initial: Context, spawn: Spawn, batches: seq<Batch>,
      results: map<string, Result>, n: string)
    requires TraceSound(nodes, initial, spawn, batches, results) && n in Spawned(batches)
    ensures Resolvable(nodes, n)
  {
    var b :| b in batches && n in b.ids;
    var k :| 0 <= k < |batches| && batches[k] == b;
    forall p | DependencyChain(nodes, p) && p[0] == n ensures !EndsBadly(nodes, p) {
      var at := ChainGoesBack(nodes, initial, spawn, batches, results, p, k);
      var last := |p| - 1;
      assert BatchSound(nodes, initial, spawn, batches, results, at[last]);
      forall i | 0 <= i < last ensures p[i] != p[last] {
        if p[i] == p[last] { OneBatchEach(nodes, initial, spawn, batches, results, p[i], at[last], at[i]); }
      }
    }
  }

  lemma OneBatchEach(nodes: Nodes, initial: Context, spawn: Spawn, batches: seq<Batch>, results: map<string, Result>,
      n: string, j: nat, k: nat)
    requires TraceSound(nodes, initial, spawn, batches, results)
    requires j < |batches| && k < |batches| && n in batches[j].ids && n in batches[k].ids
    ensures j == k
  {
    if j < k { SpawnedOnce(nodes, initial, spawn, batches, results, j, k); }
    if k < j { SpawnedOnce(nodes, initial, spawn, batches, results, k, j); }
  }

  /** From a node left out one can always go on to another, or to an unknown id: `steps`
      more steps along dependencies not in the set, unless the chain has ended badly. */
  lemma {:induction false} ChainOut(nodes: Nodes, done: set<string>, p: seq<string>, unseen: set<string>)
    returns (q: seq<string>)
    requires DependencyChain(nodes, p) && p[|p| - 1] !in done
    requires forall n :: n in nodes && n !in done ==> !Ready(nodes[n], done)
    requires unseen == nodes.Keys - Elements(p[..|p| - 1])
    ensures DependencyChain(nodes, q) && q[0] == p[0] && EndsBadly(nodes, q)
    decreases unseen
  {
    var n := p[|p| - 1];
    if EndsBadly(nodes, p) {
      q := p;
    } else {
      var d :| d in nodes[n].dependsOn && d !in done;
      var more := p + [d];
      assert more[..|more| - 1] == p && p == p[..|p| - 1] + [n];
      assert Elements(p) == Elements(p[..|p| - 1]) + {n};
      assert n in unseen;
      q := ChainOut(nodes, done, more, unseen - {n});
    }
  }

  function Elements(p: seq<string>): set<string> {
    set x | x in p
  }

  /** When every subagent answers well, exactly the resolvable nodes complete, each with the
      answer its subagent gave from the context of its batch. */
  lemma AllAnswered(nodes: Nodes, initial: Context, spawn: Spawn, batches: seq<Batch>, results: map<string, Result>)
    requires TraceSound(nodes, initial, spawn, batches, results) && Stuck(nodes, batches, results)
    requires forall n, context :: AnswersWell(spawn(n, context))
    ensures forall n :: n in nodes ==> (n in Done(batches, results) <==> Resolvable(nodes, n))
    ensures Spawned(batches) == Done(batches, results)
    ensures forall k, n :: 0 <= k < |batches| && n in batches[k].ids ==>
              var o := spawn(n, batches[k].context);
              n in results && o.Returned? && results[n] == Result(o.success, o.output)
  {
    var done := Done(batches, results);
    forall k, n | 0 <= k < |batches| && n in batches[k].ids
      ensures n in nodes && n in results && Normal(results[n].output)
      ensures results[n] == Result(spawn(n, batches[k].context).success, spawn(n, batches[k].context).output)
    {
      assert BatchSound(nodes, initial, spawn, batches, results, k);
      assert AnswersWell(spawn(n, batches[k].context));
    }
    forall n | n in Spawned(batches) ensures n in done {
      var b :| b in batches && n in b.ids;
      var k :| 0 <= k < |batches| && batches[k] == b;
    }
    forall n | n in nodes ensures n in done <==> Resolvable(nodes, n) {
      if n in done {
        SpawnedIsResolvable(nodes, initial, spawn, batches, results, n);
      } else {
        assert [n][..0] == [];
        var q := ChainOut(nodes, done, [n], nodes.Keys);
      }
    }
  }

  /** Every dependency's output is in the context its dependents are given, and everything
      else there is as it was at the start. */
  lemma ContextGiven(nodes: Nodes, initial: Context, spawn: Spawn, batches: seq<Batch>, results: map<string, Result>,
      k: nat, n: string, d: string)
    requires TraceSound(nodes, initial, spawn, batches, results) && k < |batches| && n in batches[k].ids
    ensures n in nodes
    ensures d in nodes[n].dependsOn ==>
              d in results && d in batches[k].context && batches[k].context[d] == results[d].output
    ensures d !in Spawned(batches[..k]) ==>
              (d in batches[k].context <==> d in initial) && (d in initial ==> batches[k].context[d] == initial[d])
  {
    assert BatchSound(nodes, initial, spawn, batches, results, k);
  }

  // ---- extending a trace ---------------------------------------------------------------------

  /** Later results never touch the record of earlier batches. */
  lemma DoneFrame(initial: Context, batches: seq<Batch>, results: map<string, Result>, more: map<string, Result>)
    requires Spawned(batches) <= results.Keys && results.Keys !! more.Keys
    ensures Done(batches, results + more) == Done(batches, results)
    ensures ContextAfter(initial, batches, results + more) == ContextAfter(initial, batches, results)
  {
  }

  lemma TraceFrame(nodes: Nodes, initial: Context, spawn: Spawn, batches: seq<Batch>, results: map<string, Result>,
      more: map<string, Result>)
    requires TraceSound(nodes, initial, spawn, batches, results)
    requires Spawned(batches) <= results.Keys && results.Keys !! more.Keys
    ensures TraceSound(nodes, initial, spawn, batches, results + more)
  {
    forall k | 0 <= k < |batches| ensures BatchSound(nodes, initial, spawn, batches, results + more, k) {
      assert BatchSound(nodes, initial, spawn, batches, results, k);
      SpawnedPrefix(batches, k);
      DoneFrame(initial, batches[..k], results, more);
      assert batches[k] in batches;
    }
  }

  lemma SpawnedSnoc(batches: seq<Batch>, batch: Batch)
    ensures Spawned(batches + [batch]) == Spawned(batches) + batch.ids
  {
    var all := batches + [batch];
    SpawnedStep(all, |batches|);
    assert all[..|batches|] == batches && all[..|batches| + 1] == all;
  }

  /** What a new round must be: the ready nodes, with the context built so far. */
  ghost predicate NextBatch(nodes: Nodes, initial: Context, batches: seq<Batch>, results: map<string, Result>,
      batch: Batch)
  {
    && batch.ids == (set n | n in nodes && n !in Spawned(batches) && Ready(nodes[n], Done(batches, results)))
    && batch.ids != {} && batch.context == ContextAfter(initial, batches, results)
  }

  /** Whether a batch is sound depends on it and its predecessors only. */
  lemma OldBatchSound(nodes: Nodes, initial: Context, spawn: Spawn, batches: seq<Batch>, batch: Batch,
                      results: map<string, Result>, k: nat)
    requires k < |batches| && BatchSound(nodes, initial, spawn, batches, results, k)
    ensures BatchSound(nodes, initial, spawn, batches + [batch], results, k)
  {
    assert (batches + [batch])[..k] == batches[..k];
  }

  lemma NewBatchSound(nodes: Nodes, initial: Context, spawn: Spawn, batches: seq<Batch>, results: map<string, Result>,
                      batch: Batch, r: map<string, Result>)
    requires Spawned(batches) == results.Keys && NextBatch(nodes, initial, batches, results, batch)
    requires r == Gather(nodes, batch.ids, spawn, batch.context)
    ensures BatchSound(nodes, initial, spawn, batches + [batch], results + r, |batches|)
  {
    var all := batches + [batch];
    assert all[..|batches|] == batches && all[|batches|] == batch;
    DoneFrame(initial, batches, results, r);
  }

  lemma ExtendTrace(nodes: Nodes, initial: Context, spawn: Spawn, batches: seq<Batch>, results: map<string, Result>,
                    batch: Batch, r: map<string, Result>)
    requires TraceSound(nodes, initial, spawn, batches, results) && Spawned(batches) == results.Keys
    requires NextBatch(nodes, initial, batches, results, batch)
    requires r == Gather(nodes, batch.ids, spawn, batch.context)
    ensures TraceSound(nodes, initial, spawn, batches + [batch], results + r)
  {
    var all := batches + [batch];
    TraceFrame(nodes, initial, spawn, batches, results, r);
    NewBatchSound(nodes, initial, spawn, batches, results, batch, r);
    forall k | 0 <= k < |batches| ensures BatchSound(nodes, initial, spawn, all, results + r, k) {
      OldBatchSound(nodes, initial, spawn, batches, batch, results + r, k);
    }
  }

  lemma PublishTwice(base: Context, a: set<string>, first: map<string, Result>, b: set<string>,
      second: map<string, Result>)
    requires a <= first.Keys && b <= second.Keys && first.Keys !! second.Keys
    ensures Publish(Publish(base, a, first), b, second) == Publish(base, a + b, first + second)
  {
  }

  lemma ExtendDone(initial: Context, batches: seq<Batch>, results: map<string, Result>, batch: Batch,
      r: map<string, Result>)
    requires Spawned(batches) == results.Keys && r.Keys == batch.ids && results.Keys !! r.Keys
    requires batch.context == ContextAfter(initial, batches, results)
    ensures Done(batches + [batch], results + r) == Done(batches, results) + NormalIds(batch.ids, r)
    ensures ContextAfter(initial, batches + [batch], results + r) == Publish(batch.context, NormalIds(batch.ids, r), r)
  {
    SpawnedSnoc(batches, batch);
    assert Done(batches + [batch], results + r) == Done(batches, results) + NormalIds(batch.ids, r);
    PublishTwice(initial, Done(batches, results), results, NormalIds(batch.ids, r), r);
  }

  lemma SettleOne(context: Context, settled: set<string>, id: string, results: map<string, Result>)
    requires settled <= results.Keys && id in results && id !in settled
    ensures var was, now := NormalIds(settled, results), NormalIds(settled + {id}, results);
            if Normal(results[id].output)
            then
              && now == was + {id}
              && Publish(context, now, results) == Publish(context, was, results)[id := results[id].output]
            else now == was
  {
    var was, now := NormalIds(settled, results), NormalIds(settled + {id}, results);
    if Normal(results[id].output) {
      assert now == was + {id};
    } else {
      assert now == was;
    }
  }

  /** The skipped nodes were not ready, and their results are not normal. */
  lemma SkipRest(nodes: Nodes, initial: Context, spawn: Spawn, batches: seq<Batch>, results: map<string, Result>,
      skipped: set<string>)
    requires TraceSound(nodes, initial, spawn, batches, results) && Spawned(batches) == results.Keys
    requires skipped == nodes.Keys - results.Keys && Stuck(nodes, batches, results)
    ensures var all := results + map n | n in skipped :: SKIPPED;
            && TraceSound(nodes, initial, spawn, batches, all) && Stuck(nodes, batches, all)
            && Done(batches, all) == Done(batches, results)
            && ContextAfter(initial, batches, all) == ContextAfter(initial, batches, results)
            && forall n :: n in nodes && n !in Spawned(batches) ==> n in all && !Normal(all[n].output)
  {
    var more := map n | n in skipped :: SKIPPED;
    TraceFrame(nodes, initial, spawn, batches, results, more);
    DoneFrame(initial, batches, results, more);
    FailuresAreAbnormal(Node([], "", ""), TimedOut);
  }

  // ---- execution -----------------------------------------------------------------------------------

  class Executor {
    const spawn: Spawn

    constructor (spawn: Spawn)
      ensures this.spawn == spawn
    {
      this.spawn := spawn;
    }

    /** Settle one gathered batch: record each result, and publish normal outputs to the
        context only after the whole batch has run. */
    method RunBatch(nodes: Nodes, ready: set<string>, context: Context)
      returns (results: map<string, Result>, context': Context, completed: set<string>, failed: set<string>)
      requires ready <= nodes.Keys
      ensures results == Gather(nodes, ready, spawn, context)
      ensures completed == NormalIds(ready, results)
      ensures failed == ready - completed
      ensures context' == Publish(context, completed, results)
    {
      results := map n | n in ready :: Recorded(nodes[n], spawn(n, context));
      context', completed, failed := context, {}, {};
      var rest := ready;
      ghost var settled: set<string> := {};
      while rest != {}
        invariant rest <= ready && settled == ready - rest
        invariant completed == NormalIds(settled, results) && failed == settled - completed
        invariant context' == Publish(context, completed, results)
      {
        var id :| id in rest;
        SettleOne(context, settled, id, results);
        rest, settled := rest - {id}, settled + {id};
        var o := spawn(id, context);
        if o.Raised? {
          FailuresAreAbnormal(nodes[id], o);
          failed := failed + {id};
        } else if Normal(results[id].output) {
          context' := context'[id := results[id].output];
          completed := completed + {id};
        } else {
          failed := failed + {id};
        }
      }
    }

    /** The record of the rounds so far, and what the loop's variables have to do with it. */
    ghost predicate OnRecord(nodes: Nodes, initial: Context, batches: seq<Batch>, results: map<string, Result>,
                             context: Context, completed: set<string>)
    {
      && TraceSound(nodes, initial, spawn, batches, results)
      && Spawned(batches) == results.Keys && results.Keys <= nodes.Keys
      && completed == Done(batches, results) && context == ContextAfter(initial, batches, results)
    }

    lemma StartsOnRecord(nodes: Nodes, initial: Context)
      ensures OnRecord(nodes, initial, [], map[], initial, {})
    {
    }

    /** One round: run every ready node and extend the record. */
    method Round(nodes: Nodes, initial: Context, results: map<string, Result>, context: Context, completed: set<string>,
                 ready: set<string>, ghost batches: seq<Batch>)
      returns (results': map<string, Result>, context': Context, ok: set<string>, bad: set<string>)
      requires OnRecord(nodes, initial, batches, results, context, completed)
      requires NextBatch(nodes, initial, batches, results, Batch(ready, context))
      ensures OnRecord(nodes, initial, batches + [Batch(ready, context)], results', context', completed + ok)
      ensures results'.Keys == results.Keys + ready && ok + bad == ready && ok !! bad
    {
      var r;
      r, context', ok, bad := RunBatch(nodes, ready, context);
      ghost var batch := Batch(ready, context);
      ExtendTrace(nodes, initial, spawn, batches, results, batch, r);
      ExtendDone(initial, batches, results, batch, r);
      SpawnedSnoc(batches, batch);
      results' := results + r;
    }

    /** The main loop, up to the round with nothing ready. */
    method Rounds(nodes: Nodes, initial: Context)
      returns (results: map<string, Result>, context: Context, completed: set<string>, ghost batches: seq<Batch>)
      ensures TraceSound(nodes, initial, spawn, batches, results) && Stuck(nodes, batches, results)
      ensures Spawned(batches) == results.Keys <= nodes.Keys
      ensures completed == Done(batches, results) && context == ContextAfter(initial, batches, results)
    {
      results, context, completed, batches := map[], initial, {}, [];
      StartsOnRecord(nodes, initial);
      var failed: set<string> := {};
      while completed + failed != nodes.Keys
        invariant OnRecord(nodes, initial, batches, results, context, completed)
        invariant completed + failed == results.Keys && completed !! failed
        decreases nodes.Keys - results.Keys
      {
        var ready := set n | n in nodes && n !in completed && n !in failed && Ready(nodes[n], completed);
        assert ready == set n | n in nodes && n !in Spawned(batches) && Ready(nodes[n], completed);
        if ready == {} {
          forall n | n in nodes && n !in Spawned(batches) ensures !Ready(nodes[n], completed) {
            assert n !in ready;
          }
          return;
        }
        ghost var batch := Batch(ready, context);
        var ok, bad;
        results, context, ok, bad := Round(nodes, initial, results, context, completed, ready, batches);
        completed, failed := completed + ok, failed + bad;
        batches := batches + [batch];
      }
    }

    /** Terminates on every graph; gives every node exactly one result; spawns a node at
        most once and exactly when all its dependencies completed normally; and the
        completed set is the least closed set. */
    method Execute(nodes: Nodes, initial: Context)
      returns (results: map<string, Result>, context: Context, completed: set<string>, ghost batches: seq<Batch>)
      ensures results.Keys == nodes.Keys
      ensures TraceSound(nodes, initial, spawn, batches, results)
      ensures completed == Done(batches, results) && context == ContextAfter(initial, batches, results)
      ensures forall n :: n in nodes && n !in Spawned(batches) ==> results[n] == SKIPPED
      ensures Closed(nodes, results, completed) && forall c :: Closed(nodes, results, c) ==> completed <= c
      ensures forall n :: n in nodes ==> (n in Spawned(batches) <==> Ready(nodes[n], completed))
      ensures (forall n, c :: AnswersWell(spawn(n, c))) ==>
                forall n :: n in nodes ==>
                  && (n in completed <==> Resolvable(nodes, n))
                  && (n in completed ==>
                        exists c, success :: spawn(n, c) == Returned(success, results[n].output))
    {
      results, context, completed, batches := Rounds(nodes, initial);
      var skipped := nodes.Keys - results.Keys;
      SkipRest(nodes, initial, spawn, batches, results, skipped);
      results := results + map n | n in skipped :: SKIPPED;
      Fixpoint(nodes, initial, spawn, batches, results);
      if forall n, c :: AnswersWell(spawn(n, c)) {
        AllAnswered(nodes, initial, spawn, batches, results);
      }
    }
  }
}
