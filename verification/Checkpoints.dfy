/** Checkpoint history: a list that `create` truncates after a rewind and `fork`
    only ever extends, and the restoring of snapshotted files. */
module Checkpoints {
  import opened Prelude

  datatype Snapshot = Snapshot(path: string, content: string, timestamp: real)

  datatype Checkpoint = Checkpoint(id: string, caption: string, timestamp: real, snapshots: seq<Snapshot>,
      messageIndex: int, parent: Option<string>)

  datatype History = History(list: seq<Checkpoint>, current: int)

  type Files = map<string, string>

  const EMPTY := History([], -1)

  /** Position of the first checkpoint with this id. */
  function Find(list: seq<Checkpoint>, id: string): (r: Option<nat>)
    ensures r.Some? ==> r.value < |list| && list[r.value].id == id
    ensures r.None? ==> forall i :: 0 <= i < |list| ==> list[i].id != id
  {
    if list == [] then None
    else if list[0].id == id then Some(0)
    else
      var r := Find(list[1..], id);
      if r.Some? then Some(r.value + 1)
      else
        assert forall i :: 0 < i < |list| ==> list[i] == list[1..][i - 1];
        None
  }

  // ---- operations -----------------------------------------------------------------------

  function Caption(given: string, prefix: string, id: string): string {
    if given != "" then given else prefix + id
  }

  /** The checkpoint `create` makes: a child of the current one. */
  function NewCheckpoint(h: History, id: string, caption: string, now: real, snapshots: seq<Snapshot>,
      messageIndex: int): Checkpoint
  {
    Checkpoint(id, Caption(caption, "checkpoint-", id), now, snapshots, messageIndex,
               if 0 <= h.current < |h.list| then Some(h.list[h.current].id) else None)
  }

  /** Drop everything after the current checkpoint, then append. */
  function Created(h: History, cp: Checkpoint): History
    requires -1 <= h.current
  {
    var kept := if h.current < |h.list| - 1 then h.list[..h.current + 1] else h.list;
    History(kept + [cp], |kept|)
  }

  function ForkOf(source: Checkpoint, id: string, caption: string, now: real): Checkpoint {
    Checkpoint(id, Caption(caption, "fork-", id), now, source.snapshots, source.messageIndex, Some(source.id))
  }

  datatype Op =
    | Create(id: string, caption: string, now: real, snapshots: seq<Snapshot>, messageIndex: int)
    | AddSnapshot(id: string, snapshot: Snapshot)
    | Rewind(id: string)        // also what `restore` does to the history
    | Fork(source: string, id: string, caption: string, now: real)

  /** Operations on an unknown id raise and change nothing. */
  function Next(h: History, op: Op): History
    requires -1 <= h.current
  {
    match op
    case Create(id, caption, now, snapshots, messageIndex) =>
      Created(h, NewCheckpoint(h, id, caption, now, snapshots, messageIndex))
    case AddSnapshot(id, s) =>
      var i := Find(h.list, id);
      if i.None? then h
      else h.(list := h.list[i.value := h.list[i.value].(snapshots := h.list[i.value].snapshots + [s])])
    case Rewind(id) =>
      var i := Find(h.list, id);
      if i.None? then h else h.(current := i.value)
    case Fork(source, id, caption, now) =>
      var i := Find(h.list, source);
      if i.None? then h else History(h.list + [ForkOf(h.list[i.value], id, caption, now)], |h.list|)
  }

  // ---- the history invariant -------------------------------------------------------------------

  /** Every parent is a strictly earlier checkpoint of the list, so parents form a forest. */
  ghost predicate Forest(list: seq<Checkpoint>) {
    forall i :: 0 <= i < |list| && list[i].parent.Some? ==> exists j :: 0 <= j < i && list[j].id == list[i].parent.value
  }

  ghost predicate UniqueIds(list: seq<Checkpoint>) {
    forall i, j :: 0 <= i < j < |list| ==> list[i].id != list[j].id
  }

  ghost predicate Consistent(h: History) {
    && -1 <= h.current < |h.list|
    && (h.list != [] ==> h.current >= 0)
    && UniqueIds(h.list) && Forest(h.list)
  }

  /** Generated ids are not in the list. */
  ghost predicate FreshId(h: History, op: Op) {
    (op.Create? || op.Fork?) ==> forall i :: 0 <= i < |h.list| ==> h.list[i].id != op.id
  }

  lemma ForestSnoc(list: seq<Checkpoint>, cp: Checkpoint)
    requires Forest(list)
    requires cp.parent.Some? ==> exists j :: 0 <= j < |list| && list[j].id == cp.parent.value
    ensures Forest(list + [cp])
  {
    var longer := list + [cp];
    forall i | 0 <= i < |longer| && longer[i].parent.Some?
      ensures exists j :: 0 <= j < i && longer[j].id == longer[i].parent.value
    {
      var j :| 0 <= j < |list| && j < i && list[j].id == longer[i].parent.value;
      assert longer[j] == list[j];
    }
  }

  lemma ForestPrefix(list: seq<Checkpoint>, n: nat)
    requires Forest(list) && n <= |list|
    ensures Forest(list[..n])
  {
    var p := list[..n];
    forall i | 0 <= i < n && p[i].parent.Some? ensures exists j :: 0 <= j < i && p[j].id == p[i].parent.value {
      assert list[i] == p[i];
      var j :| 0 <= j < i && list[j].id == list[i].parent.value;
      assert p[j] == list[j];
    }
  }

  lemma ForestSame(a: seq<Checkpoint>, b: seq<Checkpoint>)
    requires |a| == |b| && forall i :: 0 <= i < |a| ==> a[i].id == b[i].id && a[i].parent == b[i].parent
    requires Forest(a) && UniqueIds(a)
    ensures Forest(b) && UniqueIds(b)
  {
    forall i | 0 <= i < |b| && b[i].parent.Some? ensures exists j :: 0 <= j < i && b[j].id == b[i].parent.value {
      var j :| 0 <= j < i && a[j].id == a[i].parent.value;
      assert b[j].id == b[i].parent.value;
    }
  }

  lemma KeptPrefix(h: History)
    requires Consistent(h)
    ensures (if h.current < |h.list| - 1 then h.list[..h.current + 1] else h.list) == h.list[..h.current + 1]
    ensures UniqueIds(h.list[..h.current + 1]) && Forest(h.list[..h.current + 1])
  {
    ForestPrefix(h.list, h.current + 1);
  }

  lemma ConsistentCreate(h: History, op: Op)
    requires Consistent(h) && FreshId(h, op) && op.Create?
    ensures Consistent(Next(h, op))
  {
    var cp := NewCheckpoint(h, op.id, op.caption, op.now, op.snapshots, op.messageIndex);
    var kept := h.list[..h.current + 1];
    KeptPrefix(h);
    assert cp.parent.Some? ==> kept[h.current].id == cp.parent.value;
    ForestSnoc(kept, cp);
    assert Next(h, op) == History(kept + [cp], |kept|);
  }

  lemma ConsistentFork(h: History, op: Op)
    requires Consistent(h) && FreshId(h, op) && op.Fork?
    ensures Consistent(Next(h, op))
  {
    var i := Find(h.list, op.source);
    if i.Some? {
      ForestSnoc(h.list, ForkOf(h.list[i.value], op.id, op.caption, op.now));
    }
  }

  lemma ConsistentNext(h: History, op: Op)
    requires Consistent(h) && FreshId(h, op)
    ensures Consistent(Next(h, op))
  {
    match op
    case Create(_, _, _, _, _) => ConsistentCreate(h, op);
    case AddSnapshot(_, _) => ForestSame(h.list, Next(h, op).list);
    case Rewind(_) =>
    case Fork(_, _, _, _) => ConsistentFork(h, op);
  }

  function Run(ops: seq<Op>): (h: History)
    ensures -1 <= h.current
  {
    if ops == [] then EMPTY else Next(Run(ops[..|ops| - 1]), ops[|ops| - 1])
  }

  ghost predicate FreshRun(ops: seq<Op>) {
    ops == [] || (FreshRun(ops[..|ops| - 1]) && FreshId(Run(ops[..|ops| - 1]), ops[|ops| - 1]))
  }

  /** Over every run with fresh ids the current index stays in range, ids stay unique
      and parents point strictly backwards. */
  lemma {:induction false} RunConsistent(ops: seq<Op>)
    requires FreshRun(ops)
    ensures Consistent(Run(ops))
  {
    if ops != [] {
      RunConsistent(ops[..|ops| - 1]);
      ConsistentNext(Run(ops[..|ops| - 1]), ops[|ops| - 1]);
    }
  }

  // ---- what a checkpoint holds --------------------------------------------------------------

  /** The snapshots a run gives to an id: those of its creation or of the checkpoint it was
      forked from, and whatever was added since. */
  function Given(ops: seq<Op>, id: string): seq<Snapshot> {
    if ops == [] then []
    else
      var init, op := ops[..|ops| - 1], ops[|ops| - 1];
      match op
      case Create(x, _, _, snapshots, _) => if x == id then snapshots else Given(init, id)
      case AddSnapshot(x, s) => if x == id then Given(init, id) + [s] else Given(init, id)
      case Rewind(_) => Given(init, id)
      case Fork(source, x, _, _) => if x == id then Given(init, source) else Given(init, id)
  }

  lemma FindUnique(list: seq<Checkpoint>, i: nat)
    requires UniqueIds(list) && i < |list|
    ensures Find(list, list[i].id) == Some(i)
  {
  }

  /** In every run, every checkpoint still in the list holds exactly the snapshots given to it. */
  lemma {:induction false} SnapshotsAsGiven(ops: seq<Op>, i: nat)
    requires FreshRun(ops) && i < |Run(ops).list|
    ensures Run(ops).list[i].snapshots == Given(ops, Run(ops).list[i].id)
  {
    var init, op := ops[..|ops| - 1], ops[|ops| - 1];
    var h, h' := Run(init), Run(ops);
    RunConsistent(init);
    RunConsistent(ops);
    if op.Fork? && i == |h.list| {
      SnapshotsAsGiven(init, Find(h.list, op.source).value);
    } else if i < |h.list| && h'.list[i].id == h.list[i].id {
      SnapshotsAsGiven(init, i);
      if op.AddSnapshot? && op.id == h.list[i].id { FindUnique(h.list, i); }
    }
  }

  /** Forking keeps the whole history and adds, as the current one, a copy of the source with
      the source as parent. */
  lemma ForkAppends(ops: seq<Op>, at: nat, op: Op)
    requires FreshRun(ops) && at < |Run(ops).list| && op.Fork? && op.source == Run(ops).list[at].id
    ensures var h, h' := Run(ops), Next(Run(ops), op);
            && |h'.list| == |h.list| + 1 && h'.list[..|h.list|] == h.list && h'.current == |h.list|
            && var cp := h'.list[|h.list|];
               cp.id == op.id && cp.parent == Some(op.source) && cp.snapshots == h.list[at].snapshots
               && cp.messageIndex == h.list[at].messageIndex && cp.timestamp == op.now
               && cp.caption == if op.caption != "" then op.caption else "fork-" + op.id
  {
    RunConsistent(ops);
    FindUnique(Run(ops).list, at);
  }

  /** A created checkpoint comes last, is current, and carries what it was given. */
  lemma CreateCarries(ops: seq<Op>, op: Op)
    requires FreshRun(ops) && op.Create?
    ensures var h' := Next(Run(ops), op);
            && h'.list != [] && h'.current == |h'.list| - 1
            && var cp := h'.list[|h'.list| - 1];
               cp.id == op.id && cp.timestamp == op.now && cp.snapshots == op.snapshots
               && cp.messageIndex == op.messageIndex
               && cp.caption == if op.caption != "" then op.caption else "checkpoint-" + op.id
  {
  }

  /** Creating after a rewind keeps exactly the prefix up to the rewound checkpoint and
      makes it the parent; everything after it is gone. */
  lemma RewindThenCreate(ops: seq<Op>, at: nat, op: Op)
    requires FreshRun(ops) && at < |Run(ops).list| && op.Create?
    ensures var h := Run(ops);
            var h' := Next(Next(h, Rewind(h.list[at].id)), op);
            && h'.list[..|h'.list| - 1] == h.list[..at + 1]
            && h'.list[|h'.list| - 1].id == op.id && h'.list[|h'.list| - 1].parent == Some(h.list[at].id)
            && h'.current == |h'.list| - 1 == at + 1
  {
    RunConsistent(ops);
    var h := Run(ops);
    var r := Next(h, Rewind(h.list[at].id));
    assert Find(h.list, h.list[at].id) == Some(at);
    var h' := Next(r, op);
    assert h'.list == h.list[..at + 1] + [h'.list[at + 1]];
  }

  // ---- restoring files -----------------------------------------------------------------------------

  function Written(files: Files, snapshots: seq<Snapshot>): Files {
    if snapshots == [] then files
    else
      var last := snapshots[|snapshots| - 1];
      Written(files, snapshots[..|snapshots| - 1])[last.path := last.content]
  }

  function Paths(snapshots: seq<Snapshot>): seq<string> {
    seq(|snapshots|, i requires 0 <= i < |snapshots| => snapshots[i].path)
  }

  /** Position of the last snapshot of a path. */
  function LastOf(snapshots: seq<Snapshot>, path: string): (r: Option<nat>)
    ensures r.Some? ==> r.value < |snapshots| && snapshots[r.value].path == path
    ensures r.Some? ==> forall j :: r.value < j < |snapshots| ==> snapshots[j].path != path
    ensures r.None? ==> forall j :: 0 <= j < |snapshots| ==> snapshots[j].path != path
  {
    if snapshots == [] then None
    else if snapshots[|snapshots| - 1].path == path then Some(|snapshots| - 1)
    else LastOf(snapshots[..|snapshots| - 1], path)
  }

  /** After a restore every snapshotted path holds its last snapshot; no other path changes. */
  lemma {:induction false} RestoredContent(files: Files, snapshots: seq<Snapshot>, path: string)
    ensures var k, after := LastOf(snapshots, path), Written(files, snapshots);
            && (k.Some? ==> path in after && after[path] == snapshots[k.value].content)
            && (k.None? ==> (path in after <==> path in files) && (path in files ==> after[path] == files[path]))
  {
    if snapshots != [] {
      RestoredContent(files, snapshots[..|snapshots| - 1], path);
    }
  }

  // ---- the manager object -----------------------------------------------------------------------------

  class Manager {
    var list: seq<Checkpoint>
    var current: int

    ghost predicate Valid()
      reads this
    {
      Consistent(View())
    }

    function View(): History
      reads this
    {
      History(list, current)
    }

    constructor ()
      ensures Valid() && View() == EMPTY
    {
      list, current := [], -1;
    }

    method FindIndex(id: string) returns (r: Option<nat>)
      ensures r == Find(list, id)
    {
      for i := 0 to |list|
        invariant Find(list, id) == var t := Find(list[i..], id); if t.Some? then Some(t.value + i) else None
      {
        assert list[i..][1..] == list[i + 1..];
        if list[i].id == id {
          return Some(i);
        }
      }
      return None;
    }

    method CreateCheckpoint(id: string, caption: string, now: real, snapshots: seq<Snapshot>, messageIndex: int)
        returns (cp: Checkpoint)
      requires Valid() && FreshId(View(), Create(id, caption, now, snapshots, messageIndex))
      modifies this
      ensures Valid() && View() == Next(old(View()), Create(id, caption, now, snapshots, messageIndex))
      ensures cp == list[current]
    {
      ConsistentNext(View(), Create(id, caption, now, snapshots, messageIndex));
      var parent := None;
      if 0 <= current < |list| {
        parent := Some(list[current].id);
      }
      cp := Checkpoint(id, if caption != "" then caption else "checkpoint-" + id, now, snapshots, messageIndex, parent);
      if current < |list| - 1 {
        list := list[..current + 1];
      }
      list := list + [cp];
      current := |list| - 1;
    }

    /** Move to a checkpoint; None when the id is unknown. */
    method RewindTo(id: string) returns (r: Option<seq<Snapshot>>)
      requires Valid()
      modifies this
      ensures Valid() && View() == Next(old(View()), Rewind(id))
      ensures r == (var i := Find(list, id); if i.Some? then Some(list[i.value].snapshots) else None)
    {
      ConsistentNext(View(), Rewind(id));
      var i := FindIndex(id);
      if i.None? {
        return None;
      }
      current := i.value;
      return Some(list[i.value].snapshots);
    }

    /** Write every snapshot of the checkpoint back, in order. */
    method Restore(id: string, disk: Files) returns (disk': Files, restored: Option<seq<string>>)
      requires Valid()
      modifies this
      ensures Valid() && View() == Next(old(View()), Rewind(id))
      ensures var i := Find(list, id);
              disk' == (if i.Some? then Written(disk, list[i.value].snapshots) else disk)
              && restored == (if i.Some? then Some(Paths(list[i.value].snapshots)) else None)
    {
      var snapshots := RewindTo(id);
      disk' := disk;
      if snapshots.None? {
        return disk, None;
      }
      var paths := [];
      var todo := snapshots.value;
      for i := 0 to |todo|
        invariant disk' == Written(disk, todo[..i]) && paths == Paths(todo[..i])
      {
        assert todo[..i + 1][..i] == todo[..i];
        disk' := disk'[todo[i].path := todo[i].content];
        paths := paths + [todo[i].path];
      }
      assert todo[..|todo|] == todo;
      restored := Some(paths);
    }

    method ForkFrom(source: string, id: string, caption: string, now: real) returns (ok: bool)
      requires Valid() && FreshId(View(), Fork(source, id, caption, now))
      modifies this
      ensures Valid() && View() == Next(old(View()), Fork(source, id, caption, now))
      ensures ok == Find(old(list), source).Some?
    {
      ConsistentNext(View(), Fork(source, id, caption, now));
      var i := FindIndex(source);
      if i.None? {
        return false;
      }
      var from := list[i.value];
      var named := if caption != "" then caption else "fork-" + id;
      list := list + [Checkpoint(id, named, now, from.snapshots, from.messageIndex, Some(source))];
      current := |list| - 1;
      return true;
    }
  }
}
