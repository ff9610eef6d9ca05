/** The circuit breaker as a timed state machine. A call passes two lock-held
    sections, admission and recording; between them it is in flight and the state may
    change under it. A cancelled call records nothing. */
module CircuitBreaker {
  import opened Prelude

  datatype Mode = Closed | Open | HalfOpen

  datatype Config = Config(failureThreshold: int, recoveryTimeout: real, halfOpenMax: int, successThreshold: int)

  const DEFAULT := Config(5, 30.0, 1, 2)

  datatype Breaker = Breaker(
    mode: Mode,
    failures: int,
    successes: int,
    halfOpenCalls: int,
    lastFailure: Option<real>,
    openedAt: Option<real>)

  function Fresh(): Breaker {
    Breaker(Closed, 0, 0, 0, None, None)
  }

  function Max(a: int, b: int): int {
    if a > b then a else b
  }

  predicate Elapsed(c: Config, b: Breaker, now: real) {
    b.mode == Open && b.openedAt.Some? && now - b.openedAt.value >= c.recoveryTimeout
  }

  /** The lock-free `state` property. */
  function Seen(c: Config, b: Breaker, now: real): Mode {
    if Elapsed(c, b, now) then HalfOpen else b.mode
  }

  /** `_effective_state`: promotes an open circuit whose timeout is over. */
  function Promoted(c: Config, b: Breaker, now: real): Breaker {
    if Elapsed(c, b, now) then b.(mode := HalfOpen, halfOpenCalls := 0, successes := 0) else b
  }

  function Opened(b: Breaker, now: real): Breaker {
    b.(mode := Open, openedAt := Some(now), halfOpenCalls := 0, successes := 0)
  }

  function ClosedAgain(b: Breaker): Breaker {
    b.(mode := Closed, failures := 0, successes := 0, halfOpenCalls := 0, openedAt := None)
  }

  /** First section of `call`: the new state and whether the call may run. */
  function Admit(c: Config, b: Breaker, now: real): (Breaker, bool) {
    var p := Promoted(c, b, now);
    match p.mode
    case Open => (p, false)
    case HalfOpen =>
      if p.halfOpenCalls >= c.halfOpenMax then (p, false) else (p.(halfOpenCalls := p.halfOpenCalls + 1), true)
    case Closed => (p, true)
  }

  function Failure(c: Config, b: Breaker, now: real): Breaker {
    var f := b.(failures := b.failures + 1, lastFailure := Some(now), successes := 0);
    if f.mode == HalfOpen || (f.mode == Closed && f.failures >= c.failureThreshold) then Opened(f, now) else f
  }

  function Success(c: Config, b: Breaker): Breaker {
    match b.mode
    case HalfOpen =>
      var s := b.(successes := b.successes + 1);
      if s.successes >= c.successThreshold then ClosedAgain(s) else s
    case Closed => b.(failures := 0)
    case Open => b
  }

  /** The read-only view is what the locked promotion would compute at that instant. */
  lemma SeenIsPromoted(c: Config, b: Breaker, now: real)
    ensures Seen(c, b, now) == Promoted(c, b, now).mode
    ensures Admit(c, b, now).1 ==> Seen(c, b, now) != Open
  {
  }

  // ---- runs ------------------------------------------------------------------------------

  /** The breaker with its surroundings; the last three fields are history. */
  datatype System = System(
    b: Breaker,
    inFlight: nat,
    clock: real,
    entered: nat,        // calls in flight when the current half-open episode began
    admitted: nat,       // calls admitted during that episode
    recorded: seq<bool>) // outcomes recorded since the circuit last closed

  datatype Event =
    | Advance(dt: real)
    | Call
    | Succeed
    | Fail
    | Cancel
    | Reset

  function Start(): System {
    System(Fresh(), 0, 0.0, 0, 0, [])
  }

  /** A closing step starts a new record. */
  function Note(b: Breaker, b': Breaker, recorded: seq<bool>, ok: bool): seq<bool> {
    if b.mode != Closed && b'.mode == Closed then [] else recorded + [ok]
  }

  function Next(c: Config, s: System, e: Event): System {
    match e
    case Advance(dt) => if dt > 0.0 then s.(clock := s.clock + dt) else s
    case Call =>
      var (b, ok) := Admit(c, s.b, s.clock);
      var begins := s.b.mode != HalfOpen && b.mode == HalfOpen;
      s.(b := b,
         inFlight := if ok then s.inFlight + 1 else s.inFlight,
         entered := if begins then s.inFlight else s.entered,
         admitted := (if begins then 0 else s.admitted) + if ok && b.mode == HalfOpen then 1 else 0)
    case Succeed =>
      if s.inFlight == 0 then s
      else
        var b := Success(c, s.b);
        s.(b := b, inFlight := s.inFlight - 1, recorded := Note(s.b, b, s.recorded, true))
    case Fail =>
      if s.inFlight == 0 then s
      else
        var b := Failure(c, s.b, s.clock);
        s.(b := b, inFlight := s.inFlight - 1, recorded := Note(s.b, b, s.recorded, false))
    case Cancel => if s.inFlight == 0 then s else s.(inFlight := s.inFlight - 1)
    case Reset => s.(b := ClosedAgain(s.b), recorded := [])
  }

  function Run(c: Config, s: System, es: seq<Event>): System {
    if es == [] then s else Next(c, Run(c, s, es[..|es| - 1]), es[|es| - 1])
  }

  predicate ResetFree(es: seq<Event>) {
    Reset !in es
  }

  // ---- half-open episodes and the closed count ---------------------------------------------------

  /** Length of the run of failures at the end of a record. */
  function Trailing(recorded: seq<bool>): nat {
    if recorded == [] || recorded[|recorded| - 1] then 0 else 1 + Trailing(recorded[..|recorded| - 1])
  }

  ghost predicate Sane(c: Config, s: System) {
    && s.b.successes >= 0 && s.b.halfOpenCalls >= 0
    && (s.b.mode == Open ==> s.b.openedAt.Some? && s.b.openedAt.value <= s.clock)
    && (s.b.mode == HalfOpen ==>
          && s.b.halfOpenCalls == s.admitted <= Max(0, c.halfOpenMax)
          && s.b.successes + s.inFlight <= s.entered + s.admitted)
    && (s.b.mode == Closed ==>
          && s.b.failures == Trailing(s.recorded)
          && (s.b.failures == 0 || s.b.failures < c.failureThreshold))
  }

  lemma SaneNext(c: Config, s: System, e: Event)
    requires Sane(c, s)
    ensures Sane(c, Next(c, s, e))
  {
    var s' := Next(c, s, e);
    if |s'.recorded| == |s.recorded| + 1 {
      assert s'.recorded[..|s.recorded|] == s.recorded;
    }
  }

  lemma {:induction false} RunSane(c: Config, es: seq<Event>)
    ensures Sane(c, Run(c, Start(), es))
  {
    if es != [] {
      RunSane(c, es[..|es| - 1]);
      SaneNext(c, Run(c, Start(), es[..|es| - 1]), es[|es| - 1]);
    }
  }

  /** The time of the last failure recorded, if any. */
  function LastFailureTime(c: Config, es: seq<Event>): Option<real> {
    if es == [] then None
    else
      var s := Run(c, Start(), es[..|es| - 1]);
      if es[|es| - 1] == Fail && s.inFlight > 0 then Some(s.clock) else LastFailureTime(c, es[..|es| - 1])
  }

  predicate Tidy(b: Breaker) {
    && (b.mode != HalfOpen ==> b.successes == 0 && b.halfOpenCalls == 0)
    && (b.mode == Closed <==> b.openedAt == None)
  }

  lemma TidyNext(c: Config, s: System, e: Event)
    requires Tidy(s.b)
    ensures Tidy(Next(c, s, e).b)
    ensures Next(c, s, e).b.lastFailure == if e == Fail && s.inFlight > 0 then Some(s.clock) else s.b.lastFailure
  {
  }

  /** Nothing is left over: in every run a closed circuit remembers no episode and no opening,
      an open one no episode, and the last failure time is that of the last failure. */
  lemma {:induction false} RunTidy(c: Config, es: seq<Event>)
    ensures Tidy(Run(c, Start(), es).b)
    ensures Run(c, Start(), es).b.lastFailure == LastFailureTime(c, es)
  {
    if es != [] {
      RunTidy(c, es[..|es| - 1]);
      TidyNext(c, Run(c, Start(), es[..|es| - 1]), es[|es| - 1]);
    }
  }

  /** Half-open episodes: in every interleaving one episode admits at most the configured
      number of calls, and a recorded success closes the circuit only if that number
      plus the calls already in flight at the episode's start reaches the threshold. */
  lemma EpisodeBounds(c: Config, es: seq<Event>)
    ensures var s := Run(c, Start(), es);
            && (s.b.mode == HalfOpen ==> s.admitted <= Max(0, c.halfOpenMax))
            && (s.b.mode == HalfOpen && Next(c, s, Succeed).b.mode == Closed ==>
                  Max(0, c.halfOpenMax) + s.entered >= c.successThreshold)
  {
    RunSane(c, es);
  }

  /** While closed, the failure count is the run of failures since the last success or
      closing, and the next failure opens the circuit exactly when it completes a run
      of the threshold length (the first failure, for a threshold of one or less). */
  lemma OpensAtThreshold(c: Config, es: seq<Event>)
    requires var s := Run(c, Start(), es); s.b.mode == Closed && s.inFlight > 0
    ensures var s := Run(c, Start(), es);
            && s.b.failures == Trailing(s.recorded)
            && (Next(c, s, Fail).b.mode == Open <==> Trailing(s.recorded) + 1 == Max(1, c.failureThreshold))
            && Next(c, s, Succeed).b.mode == Closed && Trailing(Next(c, s, Succeed).recorded) == 0
  {
    RunSane(c, es);
  }

  lemma StaysOpen(c: Config, s: System, e: Event)
    requires s.b.mode == Open && s.b.openedAt.Some? && e != Reset
    requires Next(c, s, e).clock - s.b.openedAt.value < c.recoveryTimeout
    ensures var s' := Next(c, s, e);
            && s'.b.mode == Open && s'.b.openedAt == s.b.openedAt
            && s'.inFlight <= s.inFlight && !Admit(c, s'.b, s'.clock).1
  {
  }

  /** No call is admitted within the recovery timeout of opening: from an open circuit,
      whatever happens short of a reset, it stays open with the same opening time and
      lets nothing through until the timeout is over. */
  lemma {:induction false} Embargo(c: Config, s: System, es: seq<Event>)
    requires s.b.mode == Open && s.b.openedAt.Some? && ResetFree(es)
    requires Run(c, s, es).clock - s.b.openedAt.value < c.recoveryTimeout
    ensures var s' := Run(c, s, es);
            && s'.b.mode == Open && s'.b.openedAt == s.b.openedAt
            && s'.inFlight <= s.inFlight && !Admit(c, s'.b, s'.clock).1
  {
    if es != [] {
      var init := es[..|es| - 1];
      assert forall x :: x in init ==> x in es;
      assert Run(c, s, init).clock <= Run(c, s, es).clock;
      Embargo(c, s, init);
      assert es[|es| - 1] in es;
      StaysOpen(c, Run(c, s, init), es[|es| - 1]);
    }
  }

  // ---- exactly when an open circuit can close again ---------------------------------------------

  /** Whether an open circuit with `f` calls in flight can close without a reset. */
  predicate CanClose(c: Config, f: nat) {
    c.halfOpenMax >= 2 || f + Max(0, c.halfOpenMax) >= Max(1, c.successThreshold)
  }

  /** What confines a circuit that cannot: it never closes, and the successes it could
      still see stay below the threshold. */
  ghost predicate Confined(c: Config, f: nat, s: System) {
    && s.b.mode != Closed && s.b.successes >= 0
    && (s.b.mode == Open ==> s.inFlight <= f)
    && (s.b.mode == HalfOpen ==>
          && 0 <= s.b.halfOpenCalls <= Max(0, c.halfOpenMax)
          && s.b.successes + s.inFlight <= f + s.b.halfOpenCalls)
  }

  lemma ConfinedNext(c: Config, f: nat, s: System, e: Event)
    requires !CanClose(c, f) && Confined(c, f, s) && e != Reset
    ensures Confined(c, f, Next(c, s, e))
  {
  }

  lemma {:induction false} StaysConfined(c: Config, f: nat, s: System, es: seq<Event>)
    requires !CanClose(c, f) && Confined(c, f, s) && ResetFree(es)
    ensures Confined(c, f, Run(c, s, es))
  {
    if es != [] {
      assert forall x :: x in es[..|es| - 1] ==> x in es;
      assert es[|es| - 1] in es;
      StaysConfined(c, f, s, es[..|es| - 1]);
      ConfinedNext(c, f, Run(c, s, es[..|es| - 1]), es[|es| - 1]);
    }
  }

  lemma RunSnoc(c: Config, s: System, es: seq<Event>, e: Event)
    ensures Run(c, s, es + [e]) == Next(c, Run(c, s, es), e)
    ensures ResetFree(es) && e != Reset ==> ResetFree(es + [e])
  {
    assert (es + [e])[..|es + [e]| - 1] == es;
  }

  lemma {:induction false} RunConcat(c: Config, s: System, a: seq<Event>, b: seq<Event>)
    ensures Run(c, s, a + b) == Run(c, Run(c, s, a), b)
  {
    if b == [] {
      assert a + b == a;
    } else {
      RunConcat(c, s, a, b[..|b| - 1]);
      assert (a + b)[..|a + b| - 1] == a + b[..|b| - 1];
    }
  }

  /** Admit the `n` probes an episode still allows. */
  lemma {:induction false} Fill(c: Config, s: System, n: nat) returns (es: seq<Event>)
    requires s.b.mode == HalfOpen && s.b.halfOpenCalls + n == c.halfOpenMax
    ensures ResetFree(es)
    ensures Run(c, s, es).b == s.b.(halfOpenCalls := c.halfOpenMax)
    ensures Run(c, s, es).inFlight == s.inFlight + n && Run(c, s, es).clock == s.clock
    decreases n
  {
    if n == 0 {
      es := [];
    } else {
      var s1 := Next(c, s, Call);
      var rest := Fill(c, s1, n - 1);
      es := [Call] + rest;
      RunSnoc(c, s, [], Call);
      assert [] + [Call] == [Call];
      RunConcat(c, s, [Call], rest);
    }
  }

  /** Wait out the timeout and begin an episode with every probe it allows. */
  lemma Probe(c: Config, s: System) returns (es: seq<Event>)
    requires s.b.mode == Open && s.b.openedAt.Some? && s.b.openedAt.value <= s.clock
    ensures ResetFree(es)
    ensures var s' := Run(c, s, es);
            && s'.b.mode == HalfOpen && s'.b.successes == 0
            && s'.inFlight == s.inFlight + Max(0, c.halfOpenMax)
  {
    var wait := Advance(c.recoveryTimeout);
    RunSnoc(c, s, [], wait);
    RunSnoc(c, s, [wait], Call);
    assert [] + [wait] == [wait];
    es := [wait] + [Call];
    var s1 := Run(c, s, es);
    assert Elapsed(c, s.b, Run(c, s, [wait]).clock);
    if c.halfOpenMax >= 1 {
      var more := Fill(c, s1, c.halfOpenMax - 1);
      RunConcat(c, s, es, more);
      es := es + more;
    }
  }

  /** Enough successes in a row close a half-open circuit. */
  lemma {:induction false} SucceedUntilClosed(c: Config, s: System, need: nat) returns (es: seq<Event>)
    requires s.b.mode == HalfOpen && 1 <= need <= s.inFlight && s.b.successes + need >= c.successThreshold
    ensures ResetFree(es) && Run(c, s, es).b.mode == Closed
    decreases need
  {
    RunSnoc(c, s, [], Succeed);
    assert [] + [Succeed] == [Succeed];
    var s1 := Next(c, s, Succeed);
    es := [Succeed];
    if s1.b.mode != Closed {
      var rest := SucceedUntilClosed(c, s1, need - 1);
      RunConcat(c, s, [Succeed], rest);
      es := [Succeed] + rest;
    }
  }

  /** A reset-free run that closes an open circuit whenever one can exist. With two or
      more probes per episode, failing one probe per round leaves the others in flight,
      so the successes available grow round by round. */
  lemma {:induction false} Recover(c: Config, s: System) returns (es: seq<Event>)
    requires s.b.mode == Open && s.b.openedAt.Some? && s.b.openedAt.value <= s.clock && CanClose(c, s.inFlight)
    ensures ResetFree(es) && Run(c, s, es).b.mode == Closed
    decreases Max(0, c.successThreshold - s.inFlight)
  {
    var probes := Probe(c, s);
    var s1 := Run(c, s, probes);
    if s1.inFlight >= Max(1, c.successThreshold) {
      var rest := SucceedUntilClosed(c, s1, Max(1, c.successThreshold));
      RunConcat(c, s, probes, rest);
      es := probes + rest;
    } else {
      var s2 := Next(c, s1, Fail);
      RunSnoc(c, s, probes, Fail);
      var rest := Recover(c, s2);
      RunConcat(c, s, probes + [Fail], rest);
      es := probes + [Fail] + rest;
    }
  }

  /** Recovery, exactly. From an open circuit with `inFlight` calls outstanding, some
      continuation without a reset closes it if and only if an episode admits at least
      two probes, or the probes together with the outstanding calls reach the success
      threshold. Neither half depends on the clock or on the failure threshold. */
  lemma RecoverableIff(c: Config, s: System)
    requires s.b.mode == Open && s.b.openedAt.Some? && s.b.openedAt.value <= s.clock && s.b.successes >= 0
    ensures (exists es :: ResetFree(es) && Run(c, s, es).b.mode == Closed) <==> CanClose(c, s.inFlight)
  {
    if CanClose(c, s.inFlight) {
      var es := Recover(c, s);
    } else {
      forall es | ResetFree(es) ensures Run(c, s, es).b.mode != Closed {
        StaysConfined(c, s.inFlight, s, es);
      }
    }
  }

  /** With the default configuration a circuit that opens with nothing in flight never
      closes again, in any run, until someone resets it. */
  lemma DefaultNeedsReset(s: System, es: seq<Event>)
    requires s.b.mode == Open && s.b.openedAt.Some? && s.b.openedAt.value <= s.clock && s.b.successes >= 0
    requires s.inFlight == 0 && ResetFree(es)
    ensures Run(DEFAULT, s, es).b.mode != Closed
  {
    StaysConfined(DEFAULT, 0, s, es);
  }

  lemma FailOnce(s: System)
    requires s.b.mode == Closed
    ensures var s' := Next(DEFAULT, Next(DEFAULT, s, Call), Fail);
            && s'.inFlight == s.inFlight && s'.clock == s.clock && s'.b.successes == 0
            && if s.b.failures + 1 >= 5 then s'.b.mode == Open && s'.b.openedAt == Some(s.clock)
               else s'.b.mode == Closed && s'.b.failures == s.b.failures + 1
  {
  }

  /** Failed calls in a row, up to the fifth, at which the default configuration opens. */
  lemma {:induction false} FailTimes(n: nat) returns (es: seq<Event>)
    requires n <= 5
    ensures ResetFree(es)
    ensures var s := Run(DEFAULT, Start(), es);
            && s.inFlight == 0 && s.clock == 0.0 && s.b.successes == 0
            && if n == 5 then s.b.mode == Open && s.b.openedAt == Some(0.0) else s.b.mode == Closed && s.b.failures == n
  {
    if n == 0 {
      es := [];
    } else {
      var before := FailTimes(n - 1);
      FailOnce(Run(DEFAULT, Start(), before));
      RunSnoc(DEFAULT, Start(), before, Call);
      RunSnoc(DEFAULT, Start(), before + [Call], Fail);
      es := before + [Call] + [Fail];
    }
  }

  /** The default configuration really gets stuck: after five failed calls the circuit is
      open with nothing in flight, and whatever follows without a reset, it never closes. */
  lemma DefaultGetsStuck() returns (es: seq<Event>)
    ensures ResetFree(es)
    ensures var s := Run(DEFAULT, Start(), es); s.b.mode == Open && s.inFlight == 0
    ensures forall more :: ResetFree(more) ==> Run(DEFAULT, Start(), es + more).b.mode != Closed
  {
    es := FailTimes(5);
    forall more | ResetFree(more) ensures Run(DEFAULT, Start(), es + more).b.mode != Closed {
      RunConcat(DEFAULT, Start(), es, more);
      DefaultNeedsReset(Run(DEFAULT, Start(), es), more);
    }
  }

  // ---- exactly when a call can be admitted again ------------------------------------------------

  predicate Admits(c: Config, s: System) {
    Admit(c, s.b, s.clock).1
  }

  /** Admission, exactly. In every run the next call is admitted if and only if the circuit is
      closed, or open with its timeout over and a probe to give, or half-open with fewer
      calls admitted in the episode than it may. */
  lemma AdmissionIff(c: Config, es: seq<Event>)
    ensures var s := Run(c, Start(), es);
            Admits(c, s) <==>
              match s.b.mode
              case Closed => true
              case Open => s.clock >= OpeningTime(s) + c.recoveryTimeout && c.halfOpenMax >= 1
              case HalfOpen => s.admitted < c.halfOpenMax
  {
    RunSane(c, es);
  }

  function OpeningTime(s: System): real {
    if s.b.openedAt.Some? then s.b.openedAt.value else 0.0
  }

  /** Event `k` failed, opened the circuit, and it has been open ever since. */
  ghost predicate OpensAt(c: Config, es: seq<Event>, k: nat) {
    && k < |es| && es[k] == Fail && Run(c, Start(), es[..k]).b.mode != Open
    && forall m :: k < m <= |es| ==> Run(c, Start(), es[..m]).b.mode == Open
  }

  /** The opening time is the time of the failure that opened the circuit. */
  lemma {:induction false} OpenedByFailure(c: Config, es: seq<Event>) returns (k: nat)
    requires Run(c, Start(), es).b.mode == Open
    ensures OpensAt(c, es, k) && Run(c, Start(), es).b.openedAt == Some(Run(c, Start(), es[..k]).clock)
  {
    var init, e := es[..|es| - 1], es[|es| - 1];
    assert es[..|es|] == es;
    if Run(c, Start(), init).b.mode == Open {
      k := OpenedByFailure(c, init);
      assert init[..k] == es[..k];
      forall m | k < m <= |es| ensures Run(c, Start(), es[..m]).b.mode == Open {
        if m < |es| { assert init[..m] == es[..m]; }
      }
    } else {
      k := |es| - 1;
    }
  }

  /** Whether the circuit can still let a call through without a reset. */
  predicate CanAdmit(c: Config, s: System) {
    match s.b.mode
    case Closed => true
    case Open => c.halfOpenMax >= 1 || CanClose(c, s.inFlight)
    case HalfOpen =>
      || s.b.halfOpenCalls < c.halfOpenMax
      || (s.inFlight >= 1 && (c.halfOpenMax >= 1 || s.b.successes + s.inFlight >= c.successThreshold))
  }

  lemma ShutNext(c: Config, s: System, e: Event)
    requires Sane(c, s) && !CanAdmit(c, s) && e != Reset
    ensures !CanAdmit(c, Next(c, s, e))
  {
  }

  lemma {:induction false} StaysShut(c: Config, s: System, es: seq<Event>)
    requires Sane(c, s) && !CanAdmit(c, s) && ResetFree(es)
    ensures Sane(c, Run(c, s, es)) && !CanAdmit(c, Run(c, s, es))
  {
    if es != [] {
      assert forall x :: x in es[..|es| - 1] ==> x in es;
      assert es[|es| - 1] in es;
      StaysShut(c, s, es[..|es| - 1]);
      SaneNext(c, Run(c, s, es[..|es| - 1]), es[|es| - 1]);
      ShutNext(c, Run(c, s, es[..|es| - 1]), es[|es| - 1]);
    }
  }

  lemma RunOne(c: Config, s: System, e: Event)
    ensures Run(c, s, [e]) == Next(c, s, e)
  {
    RunSnoc(c, s, [], e);
    assert [] + [e] == [e];
  }

  /** An open circuit admits its next probe after the timeout, or has to close first. */
  lemma ReopenAdmission(c: Config, s: System) returns (es: seq<Event>)
    requires Sane(c, s) && s.b.mode == Open && CanAdmit(c, s)
    ensures ResetFree(es) && Admits(c, Run(c, s, es))
  {
    if c.halfOpenMax >= 1 {
      es := [Advance(c.recoveryTimeout)];
      RunOne(c, s, es[0]);
    } else {
      es := Recover(c, s);
    }
  }

  /** A half-open circuit without probes left: a failure opens it again, or, if episodes
      admit nothing, the calls in flight close it. */
  lemma ProbeAgain(c: Config, s: System) returns (es: seq<Event>)
    requires Sane(c, s) && s.b.mode == HalfOpen && CanAdmit(c, s)
    ensures ResetFree(es) && Admits(c, Run(c, s, es))
  {
    if s.b.halfOpenCalls < c.halfOpenMax {
      es := [];
    } else if c.halfOpenMax >= 1 {
      RunOne(c, s, Fail);
      SaneNext(c, s, Fail);
      var rest := ReopenAdmission(c, Next(c, s, Fail));
      RunConcat(c, s, [Fail], rest);
      es := [Fail] + rest;
    } else {
      es := SucceedUntilClosed(c, s, s.inFlight);
    }
  }

  lemma AdmitsInTime(c: Config, s: System) returns (es: seq<Event>)
    requires Sane(c, s) && CanAdmit(c, s)
    ensures ResetFree(es) && Admits(c, Run(c, s, es))
  {
    match s.b.mode
    case Closed =>
      es := [];
      assert Run(c, s, es) == s;
    case Open => es := ReopenAdmission(c, s);
    case HalfOpen => es := ProbeAgain(c, s);
  }

  /** Availability, exactly. From every reachable state, and for every configuration, some
      continuation without a reset lets another call through if and only if the circuit is
      closed, or open with a probe to give or enough calls in flight to close it, or
      half-open with a probe left or a call in flight that can still end the episode. */
  lemma AdmitsAgainIff(c: Config, s: System)
    requires Sane(c, s)
    ensures (exists es :: ResetFree(es) && Admits(c, Run(c, s, es))) <==> CanAdmit(c, s)
  {
    if CanAdmit(c, s) {
      var es := AdmitsInTime(c, s);
    } else {
      forall es | ResetFree(es) ensures !Admits(c, Run(c, s, es)) { StaysShut(c, s, es); }
    }
  }

  /** One probe that succeeds leaves the default circuit half-open with nothing in flight
      and no probe to give. */
  lemma ProbeSucceeds(s: System)
    requires s.b.mode == Open && s.b.openedAt == Some(0.0) && s.clock == 0.0 && s.inFlight == 0
    ensures var s' := Next(DEFAULT, Next(DEFAULT, Next(DEFAULT, s, Advance(30.0)), Call), Succeed);
            s'.b.mode == HalfOpen && s'.inFlight == 0 && !CanAdmit(DEFAULT, s')
  {
  }

  /** With the default configuration a recovered service is shut out for good: after five
      failed calls, the timeout and one probe that succeeds, the circuit is half-open, and
      whatever follows without a reset, it never admits another call. */
  lemma DefaultShutsOut() returns (es: seq<Event>)
    ensures es != [] && es[|es| - 1] == Succeed && ResetFree(es)
    ensures Run(DEFAULT, Start(), es).b.mode == HalfOpen && Run(DEFAULT, Start(), es).inFlight == 0
    ensures forall more :: ResetFree(more) ==> !Admits(DEFAULT, Run(DEFAULT, Start(), es + more))
  {
    var failed := FailTimes(5);
    ProbeSucceeds(Run(DEFAULT, Start(), failed));
    RunSnoc(DEFAULT, Start(), failed, Advance(30.0));
    RunSnoc(DEFAULT, Start(), failed + [Advance(30.0)], Call);
    RunSnoc(DEFAULT, Start(), failed + [Advance(30.0)] + [Call], Succeed);
    es := failed + [Advance(30.0)] + [Call] + [Succeed];
    RunSane(DEFAULT, es);
    forall more | ResetFree(more) ensures !Admits(DEFAULT, Run(DEFAULT, Start(), es + more)) {
      RunConcat(DEFAULT, Start(), es, more);
      StaysShut(DEFAULT, Run(DEFAULT, Start(), es), more);
    }
  }

  // ---- the breaker object ---------------------------------------------------------------------

  class Circuit {
    const config: Config
    var mode: Mode
    var failures: int
    var successes: int
    var halfOpenCalls: int
    var lastFailure: Option<real>
    var openedAt: Option<real>

    function View(): Breaker
      reads this
    {
      Breaker(mode, failures, successes, halfOpenCalls, lastFailure, openedAt)
    }

    constructor (config: Config)
      ensures View() == Fresh() && this.config == config
    {
      this.config := config;
      mode, failures, successes, halfOpenCalls := Closed, 0, 0, 0;
      lastFailure, openedAt := None, None;
    }

    /** The lock-free property. */
    method State(now: real) returns (m: Mode)
      ensures m == Promoted(config, View(), now).mode
    {
      if mode == Open && openedAt.Some? && now - openedAt.value >= config.recoveryTimeout {
        return HalfOpen;
      }
      return mode;
    }

    method EffectiveState(now: real) returns (m: Mode)
      modifies this
      ensures View() == Promoted(config, old(View()), now) && m == mode
    {
      if mode == Open && openedAt.Some? && now - openedAt.value >= config.recoveryTimeout {
        mode, halfOpenCalls, successes := HalfOpen, 0, 0;
      }
      return mode;
    }

    /** The admission section of `call`; false means `CircuitOpenError`. */
    method Enter(now: real) returns (ok: bool)
      modifies this
      ensures (View(), ok) == Admit(config, old(View()), now)
    {
      var m := EffectiveState(now);
      if m == Open {
        return false;
      }
      if m == HalfOpen {
        if halfOpenCalls >= config.halfOpenMax {
          return false;
        }
        halfOpenCalls := halfOpenCalls + 1;
      }
      return true;
    }

    method RecordFailure(now: real)
      modifies this
      ensures View() == Failure(config, old(View()), now)
    {
      failures := failures + 1;
      lastFailure := Some(now);
      successes := 0;
      if mode == HalfOpen {
        TransitionToOpen(now);
      } else if mode == Closed && failures >= config.failureThreshold {
        TransitionToOpen(now);
      }
    }

    method RecordSuccess()
      modifies this
      ensures View() == Success(config, old(View()))
    {
      if mode == HalfOpen {
        successes := successes + 1;
        if successes >= config.successThreshold {
          TransitionToClosed();
        }
      } else if mode == Closed {
        failures := 0;
      }
    }

    method TransitionToOpen(now: real)
      modifies this
      ensures View() == Opened(old(View()), now)
    {
      mode, openedAt, halfOpenCalls, successes := Open, Some(now), 0, 0;
    }

    /** Also the manual `reset`. */
    method TransitionToClosed()
      modifies this
      ensures View() == ClosedAgain(old(View()))
    {
      mode, failures, successes, halfOpenCalls, openedAt := Closed, 0, 0, 0, None;
    }
  }
}
