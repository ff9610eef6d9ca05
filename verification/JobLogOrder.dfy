/** In which order the log lines of one phase reach the buffer: exactly when it is the
    order of the `append` calls, and exactly when the next call can spoil it. */
module JobLogOrder {
  import opened Prelude
  import opened JobModels
  import opened JobStore
  import opened JobLogStream
  import W = JobDbWriter

  function Of(entries: seq<Entry>, k: PhaseKey): seq<Entry> {
    if entries == [] then []
    else
      var last := entries[|entries| - 1];
      Of(entries[..|entries| - 1], k) + if last.key == k then [last] else []
  }

  /** The calls made for a key, in call order. */
  function Calls(s: Stream, es: seq<Event>, k: PhaseKey): seq<Entry> {
    if es == [] then []
    else
      var init, e := es[..|es| - 1], es[|es| - 1];
      Calls(s, init, k) + if Appends(e, k) then [NewEntry(Run(s, init), k, e.text)] else []
  }

  /** Calls for the key that have not returned yet. */
  function Waiting(s: Stream, k: PhaseKey): seq<Entry> {
    Of(s.released, k) + Of(s.joining, k)
  }

  /** A key's calls as the buffer has received them and will receive the waiting ones. */
  function Line(s: Stream, k: PhaseKey): seq<Entry> {
    Of(s.buffered, k) + Waiting(s, k)
  }

  /** The call need not wait, while an earlier one for its key is still to be resumed. */
  predicate Overtakes(s: Stream, e: Event, k: PhaseKey) {
    Appends(e, k) && AllFinished(s.writer) && Of(s.released, k) != []
  }

  ghost predicate NoOvertaking(s: Stream, es: seq<Event>, k: PhaseKey) {
    es == [] ||
    var init := es[..|es| - 1];
    NoOvertaking(s, init, k) && !Overtakes(Run(s, init), es[|es| - 1], k)
  }

  /** Each call for the key is made after the previous one returned. */
  ghost predicate OneAtATime(s: Stream, es: seq<Event>, k: PhaseKey) {
    es == [] ||
    var init := es[..|es| - 1];
    OneAtATime(s, init, k) && (Appends(es[|es| - 1], k) ==> Waiting(Run(s, init), k) == [])
  }

  ghost predicate Ascending(xs: seq<Entry>) {
    forall i, j :: 0 <= i < j < |xs| ==> xs[i].call < xs[j].call
  }

  ghost predicate CalledBefore(xs: seq<Entry>, n: nat) {
    forall i :: 0 <= i < |xs| ==> xs[i].call < n
  }

  lemma {:induction false} OfConcat(a: seq<Entry>, b: seq<Entry>, k: PhaseKey)
    ensures Of(a + b, k) == Of(a, k) + Of(b, k)
  {
    if b == [] {
      assert a + b == a;
    } else {
      assert (a + b)[..|a + b| - 1] == a + b[..|b| - 1];
      OfConcat(a, b[..|b| - 1], k);
    }
  }

  lemma OfOne(x: Entry, k: PhaseKey)
    ensures Of([x], k) == if x.key == k then [x] else []
  {
    assert [x][..0] == [];
  }

  lemma Assoc(a: seq<Entry>, b: seq<Entry>, c: seq<Entry>)
    ensures (a + b) + c == a + (b + c)
  {
  }

  lemma LineWriter(s: Stream, step: W.Event, k: PhaseKey)
    ensures Line(Next(s, Writer(step)), k) == Line(s, k)
  {
    OfConcat(s.released, s.joining, k);
  }

  lemma LineResume(s: Stream, k: PhaseKey)
    ensures Line(Next(s, Resume), k) == Line(s, k)
  {
    if s.released != [] {
      var x, rest := s.released[0], s.released[1..];
      OfConcat(s.buffered, [x], k);
      assert s.released == [x] + rest;
      OfConcat([x], rest, k);
      Assoc(Of([x], k), Of(rest, k), Of(s.joining, k));
      Assoc(Of(s.buffered, k), Of([x], k), Of(rest, k) + Of(s.joining, k));
    }
  }

  /** Where a call's own entry goes: to the end of its line, or before the calls to be resumed. */
  function WithEntry(s: Stream, x: Entry): seq<Entry> {
    if AllFinished(s.writer) then Of(s.buffered, x.key) + [x] + Waiting(s, x.key) else Line(s, x.key) + [x]
  }

  lemma LineArrives(s: Stream, x: Entry, k: PhaseKey)
    ensures Of(s.buffered + [x], k) + Waiting(s, k) ==
            if x.key == k then Of(s.buffered, k) + [x] + Waiting(s, k) else Line(s, k)
  {
    OfOne(x, k);
    OfConcat(s.buffered, [x], k);
    assert Of(s.buffered, k) + [] == Of(s.buffered, k);
  }

  lemma LineJoins(s: Stream, x: Entry, k: PhaseKey)
    ensures Of(s.buffered, k) + (Of(s.released, k) + Of(s.joining + [x], k)) ==
            if x.key == k then Line(s, k) + [x] else Line(s, k)
  {
    OfOne(x, k);
    OfConcat(s.joining, [x], k);
    Assoc(Of(s.released, k), Of(s.joining, k), Of([x], k));
    Assoc(Of(s.buffered, k), Waiting(s, k), Of([x], k));
    assert Line(s, k) + [] == Line(s, k);
  }

  lemma LineAppend(s: Stream, key: PhaseKey, text: string, k: PhaseKey)
    ensures Line(Next(s, Append(key, text)), k) == if key == k then WithEntry(s, NewEntry(s, k, text)) else Line(s, k)
  {
    var x := NewEntry(s, key, text);
    if AllFinished(s.writer) { LineArrives(s, x, k); } else { LineJoins(s, x, k); }
  }

  /** Only the key's own calls change its line. */
  lemma LineNext(s: Stream, e: Event, k: PhaseKey)
    ensures Line(Next(s, e), k) == if Appends(e, k) then WithEntry(s, NewEntry(s, k, e.text)) else Line(s, k)
  {
    match e
    case Writer(step) => LineWriter(s, step, k);
    case Append(key, text) => LineAppend(s, key, text, k);
    case Resume => LineResume(s, k);
    case _ =>
  }

  /** A line that is not ascending stays so whatever is inserted. */
  lemma InsertKeepsDisorder(a: seq<Entry>, x: Entry, b: seq<Entry>)
    requires !Ascending(a + b)
    ensures !Ascending(a + [x] + b)
  {
    var i, j :| 0 <= i < j < |a + b| && (a + b)[i].call >= (a + b)[j].call;
    var all := a + [x] + b;
    var i' := if i < |a| then i else i + 1;
    var j' := if j < |a| then j else j + 1;
    assert all[i'] == (a + b)[i] && all[j'] == (a + b)[j];
  }

  lemma InsertCount(a: seq<Entry>, x: Entry, b: seq<Entry>)
    ensures multiset(a + [x] + b) == multiset(a + b) + multiset{x}
  {
  }

  lemma WithEntryCount(s: Stream, x: Entry)
    ensures multiset(WithEntry(s, x)) == multiset(Line(s, x.key)) + multiset{x}
  {
    if AllFinished(s.writer) {
      InsertCount(Of(s.buffered, x.key), x, Waiting(s, x.key));
    }
  }

  lemma AscendingSnoc(xs: seq<Entry>, x: Entry)
    requires Ascending(xs) && CalledBefore(xs, x.call)
    ensures Ascending(xs + [x]) && CalledBefore(xs + [x], x.call + 1)
  {
  }

  /** The places of these calls ascend below `n`, and the line holds each of them once. */
  ghost predicate Listed(line: seq<Entry>, n: nat, calls: seq<Entry>) {
    Ascending(calls) && CalledBefore(calls, n) && multiset(line) == multiset(calls)
  }

  ghost predicate Registered(s: Stream, k: PhaseKey, calls: seq<Entry>) {
    Listed(Line(s, k), s.calls, calls)
  }

  lemma ListedCall(line: seq<Entry>, line': seq<Entry>, calls: seq<Entry>, x: Entry)
    requires Listed(line, x.call, calls) && multiset(line') == multiset(line) + multiset{x}
    ensures Listed(line', x.call + 1, calls + [x])
  {
    AscendingSnoc(calls, x);
    assert multiset(calls + [x]) == multiset(calls) + multiset{x};
  }

  lemma CallCounted(s: Stream, e: Event)
    ensures Next(s, e).calls == s.calls + if e.Append? then 1 else 0
  {
  }

  lemma RegisteredCall(s: Stream, k: PhaseKey, text: string, calls: seq<Entry>)
    requires Registered(s, k, calls)
    ensures Registered(Next(s, Append(k, text)), k, calls + [NewEntry(s, k, text)])
  {
    var x := NewEntry(s, k, text);
    LineAppend(s, k, text, k);
    WithEntryCount(s, x);
    ListedCall(Line(s, k), WithEntry(s, x), calls, x);
  }

  lemma RegisteredOther(s: Stream, e: Event, k: PhaseKey, calls: seq<Entry>)
    requires Registered(s, k, calls) && !Appends(e, k)
    ensures Registered(Next(s, e), k, calls)
  {
    LineNext(s, e, k);
    CallCounted(s, e);
  }

  lemma RegisteredNext(s: Stream, e: Event, k: PhaseKey, calls: seq<Entry>, calls': seq<Entry>)
    requires Registered(s, k, calls)
    requires calls' == if Appends(e, k) then calls + [NewEntry(s, k, e.text)] else calls
    ensures Registered(Next(s, e), k, calls')
  {
    if Appends(e, k) { RegisteredCall(s, k, e.text, calls); } else { RegisteredOther(s, e, k, calls); }
  }

  lemma CallsStep(s: Stream, es: seq<Event>, k: PhaseKey)
    requires es != []
    ensures var init, e := es[..|es| - 1], es[|es| - 1];
            Calls(s, es, k) ==
            if Appends(e, k) then Calls(s, init, k) + [NewEntry(Run(s, init), k, e.text)] else Calls(s, init, k)
  {
    assert Calls(s, es[..|es| - 1], k) + [] == Calls(s, es[..|es| - 1], k);
  }

  lemma {:induction false} CallsAscend(maxSize: int, db: Db, es: seq<Event>, k: PhaseKey)
    ensures Registered(Run(Init(maxSize, db), es), k, Calls(Init(maxSize, db), es, k))
  {
    if es != [] {
      var s0, init, e := Init(maxSize, db), es[..|es| - 1], es[|es| - 1];
      CallsAscend(maxSize, db, init, k);
      CallsStep(s0, es, k);
      RegisteredNext(Run(s0, init), e, k, Calls(s0, init, k), Calls(s0, es, k));
    }
  }

  lemma LineCalledBefore(maxSize: int, db: Db, es: seq<Event>, k: PhaseKey)
    ensures var s := Run(Init(maxSize, db), es); CalledBefore(Line(s, k), s.calls)
  {
    CallsAscend(maxSize, db, es, k);
    var line, calls := Line(Run(Init(maxSize, db), es), k), Calls(Init(maxSize, db), es, k);
    forall i | 0 <= i < |line| ensures line[i] in calls {
      assert line[i] in multiset(line);
      assert line[i] in multiset(calls);
    }
  }

  /** A call keeps an ascending line ascending exactly when it does not overtake. */
  lemma EntryInOrderIff(s: Stream, k: PhaseKey, text: string)
    requires CalledBefore(Line(s, k), s.calls) && (AllFinished(s.writer) ==> s.joining == [])
    ensures var x := NewEntry(s, k, text);
            && (Ascending(WithEntry(s, x)) <==> Ascending(Line(s, k)) && !Overtakes(s, Append(k, text), k))
            && (!Overtakes(s, Append(k, text), k) ==> WithEntry(s, x) == Line(s, k) + [x])
  {
    var x := NewEntry(s, k, text);
    var line, b, r := Line(s, k), Of(s.buffered, k), Of(s.released, k);
    if Overtakes(s, Append(k, text), k) {
      assert WithEntry(s, x)[|b|] == x && WithEntry(s, x)[|b| + 1] == r[0];
      assert line[|b|] == r[0];
    } else {
      assert WithEntry(s, x) == line + [x];
      if Ascending(line) {
        AscendingSnoc(line, x);
      } else {
        assert line + [] == line && line + [x] + [] == line + [x];
        InsertKeepsDisorder(line, x, []);
      }
    }
  }

  /** Order of arrival, exactly. In every run the lines of a key that are in the buffer,
      followed by those still waiting, are the key's calls in call order if and only if
      no call for the key went straight into the buffer while an earlier one was still to
      be resumed. In any case no call is lost and none is duplicated. */
  lemma {:induction false} ArrivalInOrderIff(maxSize: int, db: Db, es: seq<Event>, k: PhaseKey)
    ensures var s, calls := Run(Init(maxSize, db), es), Calls(Init(maxSize, db), es, k);
            && (Line(s, k) == calls <==> NoOvertaking(Init(maxSize, db), es, k))
            && (Line(s, k) == calls <==> Ascending(Line(s, k)))
            && multiset(Line(s, k)) == multiset(calls)
  {
    CallsAscend(maxSize, db, es, k);
    if es != [] {
      var init, e := es[..|es| - 1], es[|es| - 1];
      var s := Run(Init(maxSize, db), init);
      ArrivalInOrderIff(maxSize, db, init, k);
      RunOrdered(maxSize, db, init);
      LineCalledBefore(maxSize, db, init, k);
      LineNext(s, e, k);
      if Appends(e, k) {
        EntryInOrderIff(s, k, e.text);
      }
    }
  }

  /** Calls made one at a time arrive in call order, at most one of them waiting. */
  lemma {:induction false} OneAtATimeArrives(maxSize: int, db: Db, es: seq<Event>, k: PhaseKey)
    requires OneAtATime(Init(maxSize, db), es, k)
    ensures NoOvertaking(Init(maxSize, db), es, k)
    ensures |Waiting(Run(Init(maxSize, db), es), k)| <= 1
    ensures Line(Run(Init(maxSize, db), es), k) == Calls(Init(maxSize, db), es, k)
  {
    if es != [] {
      var init := es[..|es| - 1];
      OneAtATimeArrives(maxSize, db, init, k);
      WaitingNext(Run(Init(maxSize, db), init), es[|es| - 1], k);
    }
    ArrivalInOrderIff(maxSize, db, es, k);
  }

  lemma WaitingJoins(s: Stream, x: Entry, k: PhaseKey)
    ensures |Of(s.released, k) + Of(s.joining + [x], k)| <= |Waiting(s, k)| + if x.key == k then 1 else 0
  {
    OfOne(x, k);
    OfConcat(s.joining, [x], k);
  }

  lemma WaitingAppend(s: Stream, key: PhaseKey, text: string, k: PhaseKey)
    ensures |Waiting(Next(s, Append(key, text)), k)| <= |Waiting(s, k)| + if key == k then 1 else 0
  {
    WaitingJoins(s, NewEntry(s, key, text), k);
  }

  lemma WaitingResume(s: Stream, k: PhaseKey)
    ensures |Waiting(Next(s, Resume), k)| <= |Waiting(s, k)|
  {
    if s.released != [] {
      assert s.released == [s.released[0]] + s.released[1..];
      OfConcat([s.released[0]], s.released[1..], k);
    }
  }

  lemma WaitingWriter(s: Stream, step: W.Event, k: PhaseKey)
    ensures |Waiting(Next(s, Writer(step)), k)| == |Waiting(s, k)|
  {
    OfConcat(s.released, s.joining, k);
  }

  /** Only a call for the key itself adds to the key's waiting calls, and only one. */
  lemma WaitingNext(s: Stream, e: Event, k: PhaseKey)
    ensures |Waiting(Next(s, e), k)| <= |Waiting(s, k)| + if Appends(e, k) then 1 else 0
  {
    match e
    case Writer(step) => WaitingWriter(s, step, k);
    case Append(key, text) => WaitingAppend(s, key, text, k);
    case Resume => WaitingResume(s, k);
    case _ =>
  }

  /** From the first call since the last reset on, the key's calls drew 1, 2, 3, ... */
  ghost predicate NumberedFrom(calls: seq<Entry>, first: int) {
    forall i :: first <= i < |calls| && 0 <= i ==> calls[i].lineNo == i - first + 1
  }

  lemma {:induction false} CallsNumbered(maxSize: int, db: Db, es: seq<Event>, k: PhaseKey)
    ensures var calls, ns := Calls(Init(maxSize, db), es, k), Numbers(Init(maxSize, db), es, k);
            |ns| <= |calls| && NumberedFrom(calls, |calls| - |ns|)
  {
    if es != [] {
      CallsNumbered(maxSize, db, es[..|es| - 1], k);
      NumbersConsecutive(maxSize, db, es[..|es| - 1], k);
    }
  }

  lemma PrefixNumbered(got: seq<Entry>, rest: seq<Entry>, first: int)
    requires NumberedFrom(got + rest, first)
    ensures NumberedFrom(got, first)
  {
    assert forall i :: 0 <= i < |got| ==> (got + rest)[i] == got[i];
  }

  /** Without overtaking, the buffer receives the key's calls in call order, and those
      made since the counter was last reset as lines 1, 2, 3, ... */
  lemma NumbersArriveInOrder(maxSize: int, db: Db, es: seq<Event>, k: PhaseKey)
    requires NoOvertaking(Init(maxSize, db), es, k)
    ensures var calls, ns := Calls(Init(maxSize, db), es, k), Numbers(Init(maxSize, db), es, k);
            var got := Of(Run(Init(maxSize, db), es).buffered, k);
            got <= calls && |ns| <= |calls| && NumberedFrom(got, |calls| - |ns|)
  {
    ArrivalInOrderIff(maxSize, db, es, k);
    CallsNumbered(maxSize, db, es, k);
    var s, calls := Run(Init(maxSize, db), es), Calls(Init(maxSize, db), es, k);
    PrefixNumbered(Of(s.buffered, k), Waiting(s, k), |calls| - |Numbers(Init(maxSize, db), es, k)|);
  }

  // ---- from which states the next call can arrive out of order ------------------------------

  function CallCount(es: seq<Event>, k: PhaseKey): nat {
    if es == [] then 0 else CallCount(es[..|es| - 1], k) + if Appends(es[|es| - 1], k) then 1 else 0
  }

  lemma {:induction false} NoOvertakingConcat(s: Stream, a: seq<Event>, b: seq<Event>, k: PhaseKey)
    ensures NoOvertaking(s, a + b, k) <==> NoOvertaking(s, a, k) && NoOvertaking(Run(s, a), b, k)
  {
    if b == [] {
      assert a + b == a;
    } else {
      assert (a + b)[..|a + b| - 1] == a + b[..|b| - 1];
      NoOvertakingConcat(s, a, b[..|b| - 1], k);
      RunConcat(s, a, b[..|b| - 1]);
    }
  }

  /** With no call of the key waiting, one more cannot overtake. */
  lemma {:induction false} OneMoreIsInOrder(s: Stream, more: seq<Event>, k: PhaseKey)
    requires Waiting(s, k) == [] && CallCount(more, k) <= 1
    ensures NoOvertaking(s, more, k)
    ensures CallCount(more, k) == 0 ==> Waiting(Run(s, more), k) == []
  {
    if more != [] {
      OneMoreIsInOrder(s, more[..|more| - 1], k);
      WaitingNext(Run(s, more[..|more| - 1]), more[|more| - 1], k);
    }
  }

  /** Steps until the write in flight is acknowledged. */
  function StepsLeft(stage: W.Stage): nat {
    if stage.Idle? then 0 else if stage.Running? then 2 else 1
  }

  /** The worker can always finish what is queued, which wakes every joiner. */
  lemma {:induction false} DrainQueue(s: Stream, k: PhaseKey) returns (es: seq<Event>)
    requires Ordered(s)
    ensures CallCount(es, k) == 0
    ensures var s' := Run(s, es);
            && AllFinished(s'.writer) && s'.joining == [] && s'.released == s.released + s.joining
            && s'.buffered == s.buffered && s'.calls == s.calls && s'.counters == s.counters
    decreases |s.writer.queue|, StepsLeft(s.writer.stage)
  {
    if AllFinished(s.writer) {
      assert s.released + s.joining == s.released;
      es := [];
    } else {
      var stage := s.writer.stage;
      var step := if stage.Idle? then W.Get else if stage.Running? then W.Commit(true) else W.TaskDone;
      if stage.Running? {
        assert stage.i in W.InFlight(s.writer) && stage.i in W.Accepted(s.writer);
      }
      OrderedNext(s, Writer(step));
      var rest := DrainQueue(Next(s, Writer(step)), k);
      es := [Writer(step)] + rest;
      RunCons(s, Writer(step), rest);
      CallCountCons(Writer(step), rest, k);
    }
  }

  lemma {:induction false} CallCountCons(e: Event, es: seq<Event>, k: PhaseKey)
    ensures CallCount([e] + es, k) == (if Appends(e, k) then 1 else 0) + CallCount(es, k)
  {
    if es == [] {
      assert [e] + es == [e] && [e][..0] == [];
    } else {
      assert ([e] + es)[..|es|] == [e] + es[..|es| - 1];
      CallCountCons(e, es[..|es| - 1], k);
    }
  }

  /** Resume every woken call. */
  lemma {:induction false} ResumeAll(s: Stream, k: PhaseKey) returns (es: seq<Event>)
    ensures CallCount(es, k) == 0
    ensures Run(s, es) == s.(released := [], buffered := s.buffered + s.released)
    decreases |s.released|
  {
    if s.released == [] {
      es := [];
      assert s.buffered + s.released == s.buffered;
    } else {
      var rest := ResumeAll(Next(s, Resume), k);
      es := [Resume] + rest;
      RunCons(s, Resume, rest);
      CallCountCons(Resume, rest, k);
      assert s.buffered + [s.released[0]] + s.released[1..] == s.buffered + s.released;
    }
  }

  /** The buffer has received the key's calls out of call order. */
  ghost predicate OutOfOrder(s: Stream, k: PhaseKey) {
    !Ascending(Of(s.buffered, k))
  }

  lemma CallDisorders(s: Stream, k: PhaseKey)
    requires CalledBefore(Line(s, k), s.calls) && s.joining == [] && Overtakes(s, Append(k, ""), k)
    ensures !Ascending(Line(Next(s, Append(k, "")), k))
  {
    LineNext(s, Append(k, ""), k);
    EntryInOrderIff(s, k, "");
  }

  lemma NothingJoining(s: Stream, k: PhaseKey)
    requires s.joining == []
    ensures Of(s.buffered + s.released, k) == Line(s, k)
  {
    OfConcat(s.buffered, s.released, k);
    assert Of(s.released, k) + [] == Of(s.released, k);
  }

  /** With the queue finished, a call goes past every one of its key still to be resumed. */
  lemma OvertakeReleased(s: Stream, k: PhaseKey) returns (es: seq<Event>)
    requires AllFinished(s.writer) && s.joining == [] && Of(s.released, k) != [] && CalledBefore(Line(s, k), s.calls)
    ensures CallCount(es, k) == 1 && OutOfOrder(Run(s, es), k)
  {
    var call := Append(k, "");
    CallDisorders(s, k);
    NothingJoining(Next(s, call), k);
    var resume := ResumeAll(Next(s, call), k);
    es := [call] + resume;
    RunCons(s, call, resume);
    CallCountCons(call, resume, k);
  }

  /** A call made after the queue has drained overtakes every call waiting now. */
  lemma OvertakeWaiting(maxSize: int, db: Db, es: seq<Event>, k: PhaseKey) returns (more: seq<Event>)
    requires Waiting(Run(Init(maxSize, db), es), k) != []
    ensures CallCount(more, k) == 1 && OutOfOrder(Run(Init(maxSize, db), es + more), k)
  {
    var s0 := Init(maxSize, db);
    var s := Run(s0, es);
    RunOrdered(maxSize, db, es);
    var drain := DrainQueue(s, k);
    OfConcat(s.released, s.joining, k);
    RunConcat(s0, es, drain);
    LineCalledBefore(maxSize, db, es + drain, k);
    var overtake := OvertakeReleased(Run(s, drain), k);
    more := drain + overtake;
    RunConcat(s, drain, overtake);
    RunConcat(s0, es, more);
    CallCountConcat(drain, overtake, k);
  }

  lemma {:induction false} CallCountConcat(a: seq<Event>, b: seq<Event>, k: PhaseKey)
    ensures CallCount(a + b, k) == CallCount(a, k) + CallCount(b, k)
  {
    if b == [] {
      assert a + b == a;
    } else {
      assert (a + b)[..|a + b| - 1] == a + b[..|b| - 1];
      CallCountConcat(a, b[..|b| - 1], k);
    }
  }

  lemma AscendingPrefix(a: seq<Entry>, b: seq<Entry>)
    requires Ascending(a + b)
    ensures Ascending(a)
  {
    assert forall i :: 0 <= i < |a| ==> (a + b)[i] == a[i];
  }

  /** What a caller can check. After any run without overtaking, one more call for the key
      can reach the buffer out of order if and only if an earlier one has not returned. */
  lemma NextCallCanOvertakeIff(maxSize: int, db: Db, es: seq<Event>, k: PhaseKey)
    requires NoOvertaking(Init(maxSize, db), es, k)
    ensures (exists more :: CallCount(more, k) <= 1 && OutOfOrder(Run(Init(maxSize, db), es + more), k))
       <==> Waiting(Run(Init(maxSize, db), es), k) != []
  {
    var s0 := Init(maxSize, db);
    if Waiting(Run(s0, es), k) != [] {
      var more := OvertakeWaiting(maxSize, db, es, k);
    } else {
      forall more | CallCount(more, k) <= 1 ensures !OutOfOrder(Run(s0, es + more), k) {
        OneMoreIsInOrder(Run(s0, es), more, k);
        NoOvertakingConcat(s0, es, more, k);
        ArrivalInOrderIff(maxSize, db, es + more, k);
        AscendingPrefix(Of(Run(s0, es + more).buffered, k), Waiting(Run(s0, es + more), k));
      }
    }
  }

  lemma RunSnoc(s: Stream, es: seq<Event>, e: Event)
    ensures Run(s, es + [e]) == Next(Run(s, es), e)
  {
    assert (es + [e])[..|es + [e]| - 1] == es;
  }

  /** A line waits behind the write in flight and is released by its completion. */
  lemma WaitThenRelease(s: Stream, k: PhaseKey, w: Write, text: string)
    requires AllFinished(s.writer) && !W.Full(s.writer.maxSize, 0) && s.released == [] && s.joining == []
    ensures var s2 := Next(Next(s, Writer(W.Schedule(w, true))), Writer(W.Get));
            var s5 := Next(Next(Next(s2, Append(k, text)), Writer(W.Commit(true))), Writer(W.TaskDone));
            && AllFinished(s5.writer) && s5.buffered == s.buffered && s5.joining == []
            && Counter(s5.counters, k) == Counter(s.counters, k) + 1
            && |s5.released| == 1 && s5.released[0].lineNo == Counter(s.counters, k) + 1
  {
    var s1 := Next(s, Writer(W.Schedule(w, true)));
    assert s1.writer.queue == [|s.writer.scheduled|];
    var s2 := Next(s1, Writer(W.Get));
    assert s2.writer.queue == [] && s2.writer.stage == W.Running(|s.writer.scheduled|);
  }

  /** Arrival order can differ from numbering: a run in which line 2 enters before line 1. */
  lemma NumbersCanArriveOutOfOrder(db: Db) returns (es: seq<Event>)
    ensures var b := Run(Init(10, db), es).buffered;
            |b| == 2 && b[0].lineNo == 2 && b[1].lineNo == 1
  {
    var k: PhaseKey := ("job", 1);
    var w := UpdateJob("job", JobStatus.Running, None, None, "", "", None);
    var s0 := Init(10, db);
    var e0, e1, e2, e3, e4 :=
      Writer(W.Schedule(w, true)), Writer(W.Get), Append(k, "first"), Writer(W.Commit(true)), Writer(W.TaskDone);
    es := [];
    RunSnoc(s0, es, e0); es := es + [e0];
    RunSnoc(s0, es, e1); es := es + [e1];
    RunSnoc(s0, es, e2); es := es + [e2];
    RunSnoc(s0, es, e3); es := es + [e3];
    RunSnoc(s0, es, e4); es := es + [e4];
    WaitThenRelease(s0, k, w, "first");
    RunSnoc(s0, es, Append(k, "next")); es := es + [Append(k, "next")];
    RunSnoc(s0, es, Resume); es := es + [Resume];
  }
}
