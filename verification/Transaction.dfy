/** One service transaction: precondition, action, polling to a deadline, health, bounded recovery. The
    environment is arbitrary: every probe, health check and mutator call may return anything and take any time. */
module Transaction {
  import opened Text
  import opened Types
  import opened Broker

  /** What the n-th external call of a transaction returns, and how long it takes. */
  datatype Environment = Environment(
    probe: nat -> Option<string>, health: nat -> bool, mutate: nat -> bool, cost: nat -> nat)

  /** A probe is recorded with the normalized state it showed. */
  datatype Event =
    | Probed(state: Option<string>)
    | HealthChecked(ok: bool)
    | Mutated(call: MutatorCall)
    | TickerStarted

  datatype MutatorCall = MutatorCall(action: string, unit: string, ok: bool, at: Time)

  /** The clock, everything observed so far in order, and what it amounts to: the mutator calls, the number of
      probes and the number of polling loops. */
  datatype World = World(now: Time, trace: seq<Event>, calls: seq<MutatorCall>, probes: nat, loops: nat)

  const ACTIVE := "active"
  const INACTIVE := "inactive"
  const FAILED := "failed"

  /** The normalized active state of a probe's raw answer; a failed probe has none. */
  function Observed(raw: Option<string>): Option<string> {
    if raw.Some? then Some(Lower(Trim(raw.value))) else None
  }

  function ExpectedState(action: string): string {
    if action == STOP then INACTIVE else ACTIVE
  }

  function Fresh(now: Time): World {
    World(now, [], [], 0, 0)
  }

  function Record(w: World, e: Event): World {
    w.(trace := w.trace + [e],
       calls := if e.Mutated? then w.calls + [e.call] else w.calls,
       probes := if e.Probed? then w.probes + 1 else w.probes,
       loops := if e.TickerStarted? then w.loops + 1 else w.loops)
  }

  /** The world after an external call that is recorded as e. */
  function After(env: Environment, w: World, e: Event): World {
    Record(w, e).(now := w.now + env.cost(|w.trace|))
  }

  /** The event is what the environment answered to the i-th call. */
  predicate Answers(env: Environment, e: Event, i: nat) {
    match e
    case Probed(state) => state == Observed(env.probe(i))
    case HealthChecked(ok) => ok == env.health(i)
    case Mutated(call) => call.ok == env.mutate(i)
    case TickerStarted => true
  }

  datatype Tally = Tally(calls: seq<MutatorCall>, probes: nat, loops: nat)

  function TallyOf(trace: seq<Event>): Tally {
    if trace == [] then Tally([], 0, 0)
    else
      var before := TallyOf(trace[..|trace| - 1]);
      match trace[|trace| - 1]
      case Probed(_) => before.(probes := before.probes + 1)
      case HealthChecked(_) => before
      case Mutated(call) => before.(calls := before.calls + [call])
      case TickerStarted => before.(loops := before.loops + 1)
  }

  predicate AllAnswer(env: Environment, trace: seq<Event>) {
    forall i {:trigger Answers(env, trace[i], i)} :: 0 <= i < |trace| ==> Answers(env, trace[i], i)
  }

  predicate Tallied(w: World) {
    TallyOf(w.trace) == Tally(w.calls, w.probes, w.loops)
  }

  /** Every event is an answer of the environment, and the tallies are those of the trace. */
  predicate Real(env: Environment, w: World) {
    AllAnswer(env, w.trace) && Tallied(w)
  }

  lemma RealGoesOn(env: Environment, w: World, e: Event, now: Time)
    requires Real(env, w) && Answers(env, e, |w.trace|)
    ensures Real(env, Record(w, e).(now := now))
  {
    var trace := w.trace + [e];
    assert trace[..|trace| - 1] == w.trace;
  }

  /** The trace ends on a probe in the expected state, followed by a passing health check where one is due. */
  predicate EndsSatisfied(expected: string, healthURL: string, trace: seq<Event>) {
    if expected == ACTIVE && healthURL != "" then
      |trace| >= 2 && trace[|trace| - 1] == HealthChecked(true) && trace[|trace| - 2] == Probed(Some(expected))
    else
      |trace| >= 1 && trace[|trace| - 1] == Probed(Some(expected))
  }

  // ---- Polling ----

  /** k intervals. */
  function Span(k: nat, interval: Time): Time {
    if k == 0 then 0 else Span(k - 1, interval) + interval
  }

  lemma {:induction false} SpanIsProduct(k: nat, interval: Time)
    ensures Span(k, interval) == k * interval
  {
    if k > 0 { SpanIsProduct(k - 1, interval); }
  }

  lemma ProductMonotone(a: int, b: int, d: int)
    requires a <= b && d > 0
    ensures a * d <= b * d
  {}

  lemma QuotientSucceeds(t: int, d: int)
    requires d > 0
    ensures (t / d) * d <= t < (t / d + 1) * d
  {}

  /** Fewer than `timeout` of intervals is at most floor(timeout / interval) of them. */
  lemma SpanQuotient(k: nat, interval: Time, timeout: Time)
    requires interval > 0 && Span(k, interval) <= timeout
    ensures k <= timeout / interval
  {
    SpanIsProduct(k, interval);
    QuotientSucceeds(timeout, interval);
    if timeout / interval < k {
      ProductMonotone(timeout / interval + 1, k, interval);
    }
  }

  /** The first tick after `now`, of a ticker that had one due at `due`; the ticks in between are dropped. */
  function NextTick(due: Time, interval: Time, now: Time): (next: Time)
    requires interval > 0 && due <= now
    ensures now < next <= now + interval && next >= due + interval
    decreases now - due
  {
    if due + interval > now then due + interval else NextTick(due + interval, interval, now)
  }

  function Max(a: int, b: int): int { if a < b then b else a }

  /** The w is reached from start by external calls that leave the mutator and the ticker alone. */
  predicate Watched(start: World, w: World) {
    && start.now <= w.now && start.trace <= w.trace
    && w.calls == start.calls && w.loops == start.loops
  }

  /** One round of the loop: a probe and, where the state is the expected one and health is due, a health check. */
  method Poll(env: Environment, healthURL: string, expected: string, start: World)
    returns (satisfied: bool, state: Option<string>, w: World)
    requires Real(env, start)
    ensures Real(env, w)
    ensures satisfied <==> EndsSatisfied(expected, healthURL, w.trace)
    ensures satisfied ==> state == Some(expected)
    ensures Watched(start, w) && w.probes == start.probes + 1 && |w.trace| > |start.trace|
  {
    state := Observed(env.probe(|start.trace|));
    w := After(env, start, Probed(state));
    RealGoesOn(env, start, Probed(state), w.now);
    EndsOnProbe(expected, healthURL, start.trace, state);
    satisfied := false;
    if state == Some(expected) {
      if expected != ACTIVE || healthURL == "" {
        satisfied := true;
      } else {
        var healthy := env.health(|w.trace|);
        EndsOnHealth(expected, healthURL, start.trace, state, healthy);
        RealGoesOn(env, w, HealthChecked(healthy), w.now + env.cost(|w.trace|));
        w := After(env, w, HealthChecked(healthy));
        satisfied := healthy;
      }
    }
  }

  lemma EndsOnProbe(expected: string, healthURL: string, trace: seq<Event>, state: Option<string>)
    ensures EndsSatisfied(expected, healthURL, trace + [Probed(state)]) <==>
            state == Some(expected) && (expected != ACTIVE || healthURL == "")
  {}

  lemma EndsOnHealth(expected: string, healthURL: string, trace: seq<Event>, state: Option<string>, healthy: bool)
    requires state == Some(expected) && expected == ACTIVE && healthURL != ""
    ensures EndsSatisfied(expected, healthURL, trace + [Probed(state)] + [HealthChecked(healthy)]) <==> healthy
  {
    var t := trace + [Probed(state)] + [HealthChecked(healthy)];
    assert t[|t| - 1] == HealthChecked(healthy) && t[|t| - 2] == Probed(state);
  }

  /** The polling loop. The ticker fires at multiples of the interval from its start, keeping one undelivered tick;
      a context that is done at a select ends the loop. It ends on a satisfied round, or once the context is done,
      and never calls the mutator; every round but the last ended before the timeout. */
  method WaitForPostcondition(env: Environment, doneAt: Time, timeout: Time, interval: Time, healthURL: string,
                              expected: string, start: World)
    returns (ok: bool, last: Option<string>, w: World)
    requires interval > 0 && doneAt <= start.now + timeout && Real(env, start)
    ensures Real(env, w)
    ensures ok <==> EndsSatisfied(expected, healthURL, w.trace)
    ensures ok ==> last == Some(expected)
    ensures !ok ==> w.now >= doneAt
    ensures w.now >= start.now && |w.trace| > |start.trace| && start.trace <= w.trace
    ensures w.calls == start.calls && w.loops == start.loops + 1
    ensures var rounds := w.probes - start.probes;
            rounds >= 1 && (rounds == 1 || Span(rounds - 1, interval) < timeout)
  {
    w := Record(start, TickerStarted);
    RealGoesOn(env, start, TickerStarted, start.now);
    ghost var begun := w;
    var due := start.now + interval;
    last := None;
    ghost var rounds := 0;
    while true
      invariant rounds >= 0 && Watched(begun, w) && Real(env, w)
      invariant Span(rounds, interval) + interval <= due - start.now
      invariant rounds > 0 ==> Span(rounds, interval) < timeout
      invariant w.probes == begun.probes + rounds
      decreases doneAt - due
    {
      var satisfied, state;
      satisfied, state, w := Poll(env, healthURL, expected, w);
      if state.Some? {
        last := state;
      }
      if satisfied {
        return true, last, w;
      }
      var tick := Max(w.now, due);
      if doneAt <= tick {
        w := w.(now := Max(w.now, doneAt));
        return false, last, w;
      }
      w, due, rounds := w.(now := tick), NextTick(due, interval, tick), rounds + 1;
    }
  }

  /** The bound on rounds in the terms of the configuration. */
  lemma RoundsBound(rounds: nat, interval: Time, timeout: Time)
    requires interval > 0 && timeout > 0 && rounds >= 1 && (rounds == 1 || Span(rounds - 1, interval) < timeout)
    ensures rounds <= timeout / interval + 1
  {
    SpanQuotient(rounds - 1, interval, timeout);
  }

  // ---- Recovery ----

  datatype Recovery = NotRequired | NotDefined | Succeeded | Failed

  function RecoveryAction(pre: string): Option<string> {
    if pre == ACTIVE then Some(START) else if pre == INACTIVE || pre == FAILED then Some(STOP) else None
  }

  method ApplyServiceAction(env: Environment, action: string, unit: string, start: World) returns (ok: bool, w: World)
    requires Real(env, start)
    ensures Real(env, w)
    ensures IsMutation(action) ==>
              && w == After(env, start, Mutated(MutatorCall(action, unit, ok, start.now)))
              && ok == env.mutate(|start.trace|)
    ensures !IsMutation(action) ==> !ok && w == start
  {
    if action == START || action == STOP || action == RESTART {
      ok := env.mutate(|start.trace|);
      w := After(env, start, Mutated(MutatorCall(action, unit, ok, start.now)));
      RealGoesOn(env, start, Mutated(MutatorCall(action, unit, ok, start.now)), w.now);
    } else {
      ok, w := false, start;
    }
  }

  /** What one recovery attempt, made at `at` with the k-th external call next, leaves of the mutator calls before it:
      nothing happens on a context that is done or toward an unknown precondition; otherwise there is exactly one call,
      and the attempt has succeeded exactly when the call succeeded and polling saw the restored state. */
  predicate Recovers(env: Environment, doneAt: Time, unit: string, pre: string, k: nat, at: Time,
                     before: seq<MutatorCall>, r: Recovery, w: World)
  {
    if at >= doneAt then r == Failed && w.calls == before
    else if RecoveryAction(pre).None? then r == NotDefined && w.calls == before
    else
      var call := MutatorCall(RecoveryAction(pre).value, unit, env.mutate(k), at);
      && w.calls == before + [call]
      && r == if call.ok && EndsSatisfied(ExpectedState(call.action), "", w.trace) then Succeeded else Failed
  }

  /** One attempt to restore the observed precondition. It acts only on a live context and a known precondition,
      and has succeeded exactly when its call succeeded and polling saw the restored state. */
  method RecoverPrecondition(env: Environment, doneAt: Time, timeout: Time, interval: Time, unit: string, pre: string,
                             start: World)
    returns (r: Recovery, w: World)
    requires interval > 0 && doneAt <= start.now + timeout && Real(env, start)
    ensures Real(env, w)
    ensures Recovers(env, doneAt, unit, pre, |start.trace|, start.now, start.calls, r, w)
    ensures start.now >= doneAt || RecoveryAction(pre).None? ==> w == start
    ensures start.trace <= w.trace && w.loops <= start.loops + 1
    ensures FewRounds(w.probes - start.probes, interval, timeout)
  {
    if start.now >= doneAt {
      return Failed, start;
    }
    var known := RecoveryAction(pre);
    if known.None? {
      return NotDefined, start;
    }
    var ok;
    ok, w := ApplyServiceAction(env, known.value, unit, start);
    if !ok {
      return Failed, w;
    }
    var restored, last;
    restored, last, w := WaitForPostcondition(env, doneAt, timeout, interval, "", ExpectedState(known.value), w);
    return (if restored then Succeeded else Failed), w;
  }

  // ---- The transaction ----

  datatype TransactionError = ServiceNotAllowlisted | PreconditionFailed | ActionFailed | PostconditionFailed

  datatype Outcome = Outcome(
    error: Option<TransactionError>, recovery: Recovery, precondition: Option<string>, preHealth: Option<bool>,
    postcondition: Option<string>, healthVerified: bool)

  /** The context is done at its deadline, or earlier when the caller cancels. */
  function DoneAt(begun: Time, timeout: Time, cancelled: Option<Time>): Time {
    if cancelled.Some? && cancelled.value < begun + timeout then cancelled.value else begun + timeout
  }

  /** The precondition probe and, for an active service with a health URL, the health check before the action. */
  method ObservePrecondition(env: Environment, healthURL: string, begun: Time)
    returns (state: Option<string>, preHealth: Option<bool>, w: World)
    ensures Real(env, w)
    ensures |w.trace| > 0 && w.trace[0] == Probed(state) && (state.None? ==> |w.trace| == 1)
    ensures w.calls == [] && w.probes == 1 && w.loops == 0
    ensures |w.trace| == CallsBefore(preHealth) && w.now == ActionAt(env, begun, preHealth)
    ensures preHealth.Some? <==> state == Some(ACTIVE) && healthURL != ""
    ensures preHealth.Some? ==> |w.trace| == 2 && w.trace[1] == HealthChecked(preHealth.value)
  {
    w := Fresh(begun);
    state := Observed(env.probe(0));
    RealGoesOn(env, w, Probed(state), w.now + env.cost(0));
    w := After(env, w, Probed(state));
    preHealth := None;
    if state == Some(ACTIVE) && healthURL != "" {
      var healthy := env.health(|w.trace|);
      RealGoesOn(env, w, HealthChecked(healthy), w.now + env.cost(|w.trace|));
      w := After(env, w, HealthChecked(healthy));
      preHealth := Some(healthy);
    }
  }

  /** The rounds of at most one polling loop. */
  predicate FewRounds(rounds: int, interval: Time, timeout: Time) {
    rounds >= 0 && (rounds <= 1 || Span(rounds - 1, interval) < timeout)
  }

  /** What the action at `at` on a service observed as `pre`, as the k-th external call, must report. An action that
      failed is followed by one look and one recovery attempt; one that succeeded stays alone, and there is no error
      exactly when polling ended satisfied. Only an action that is no mutation fails without a call. */
  predicate Acted(env: Environment, doneAt: Time, healthURL: string, action: string, unit: string, pre: string, k: nat,
                  at: Time, error: Option<TransactionError>, recovery: Recovery, postcondition: Option<string>,
                  w: World)
  {
    if !IsMutation(action) then FailedAction(env, doneAt, unit, pre, k, at, [], error, recovery, postcondition, w)
    else
      var call := MutatorCall(action, unit, env.mutate(k), at);
      if !call.ok then
        FailedAction(env, doneAt, unit, pre, k + 1, at + env.cost(k), [call], error, recovery, postcondition, w)
      else
        && w.calls == [call]
        && if EndsSatisfied(ExpectedState(action), healthURL, w.trace)
           then error == None && recovery == NotRequired && postcondition == Some(ExpectedState(action))
           else error == Some(PostconditionFailed) && recovery == Failed && w.now >= doneAt
  }

  predicate FailedAction(env: Environment, doneAt: Time, unit: string, pre: string, k: nat, at: Time,
                         before: seq<MutatorCall>, error: Option<TransactionError>, recovery: Recovery,
                         postcondition: Option<string>, w: World)
  {
    && error == Some(ActionFailed) && postcondition == Observed(env.probe(k))
    && Recovers(env, doneAt, unit, pre, k + 1, at + env.cost(k), before, recovery, w)
  }

  /** The external calls before the action: the precondition probe and the health check where there was one. */
  function CallsBefore(preHealth: Option<bool>): nat {
    if preHealth.Some? then 2 else 1
  }

  function ActionAt(env: Environment, begun: Time, preHealth: Option<bool>): Time {
    begun + env.cost(0) + if preHealth.Some? then env.cost(1) else 0
  }

  /** All that a transaction on a target reports. */
  predicate Reports(env: Environment, healthURL: string, timeout: Time, interval: Time, action: string, unit: string,
                    begun: Time, cancelled: Option<Time>, o: Outcome, w: World)
    requires timeout > 0 && interval > 0
  {
    && Real(env, w) && |w.trace| > 0 && w.trace[0] == Probed(o.precondition)
    && (o.preHealth.Some? <==> o.precondition == Some(ACTIVE) && healthURL != "")
    && (o.preHealth.Some? ==> |w.trace| > 1 && w.trace[1] == HealthChecked(o.preHealth.value))
    && (match o.precondition
        case None => o.error == Some(PreconditionFailed) && o.recovery == NotRequired && w.calls == [] && |w.trace| == 1
        case Some(pre) =>
          Acted(env, DoneAt(begun, timeout, cancelled), healthURL, action, unit, pre, CallsBefore(o.preHealth),
                ActionAt(env, begun, o.preHealth), o.error, o.recovery, o.postcondition, w))
    && (o.healthVerified <==> o.error.None? && ExpectedState(action) == ACTIVE && healthURL != "")
    && w.loops <= 1 && w.probes <= timeout / interval + 3
  }

  /** The trace ends on an active service, healthy where there is a URL to ask. */
  predicate EndsActive(healthURL: string, trace: seq<Event>) {
    var n := |trace|;
    if healthURL == "" then n >= 1 && trace[n - 1] == Probed(Some("active"))
    else n >= 2 && trace[n - 1] == HealthChecked(true) && trace[n - 2] == Probed(Some("active"))
  }

  predicate EndsInactive(trace: seq<Event>) {
    |trace| >= 1 && trace[|trace| - 1] == Probed(Some("inactive"))
  }

  /** What the three actions are for. A start and a restart are without error exactly when their one call succeeded and
      the service ended up active, and healthy where there is a URL to ask; a stop, when it ended up inactive. */
  lemma CompletionOutright(env: Environment, healthURL: string, timeout: Time, interval: Time, action: string,
                           unit: string, begun: Time, cancelled: Option<Time>, o: Outcome, w: World)
    requires timeout > 0 && interval > 0 && o.precondition.Some?
    requires Reports(env, healthURL, timeout, interval, action, unit, begun, cancelled, o, w)
    ensures action == "service.start" || action == "service.restart" ==>
              && (o.error.None? <==> |w.calls| == 1 && w.calls[0].ok && EndsActive(healthURL, w.trace))
              && (o.error.None? ==> o.postcondition == Some("active"))
              && (o.healthVerified <==> o.error.None? && healthURL != "")
    ensures action == "service.stop" ==>
              && (o.error.None? <==> |w.calls| == 1 && w.calls[0].ok && EndsInactive(w.trace))
              && (o.error.None? ==> o.postcondition == Some("inactive"))
              && !o.healthVerified
  {}

  /** The primary call: the action itself on the unit, made once the precondition was observed, and with it the
      health of a service that was active. */
  lemma PrimaryCallOutright(env: Environment, healthURL: string, timeout: Time, interval: Time, action: string,
                            unit: string, begun: Time, cancelled: Option<Time>, o: Outcome, w: World)
    requires timeout > 0 && interval > 0 && o.precondition.Some?
    requires action in {"service.start", "service.stop", "service.restart"}
    requires Reports(env, healthURL, timeout, interval, action, unit, begun, cancelled, o, w)
    ensures w.calls != []
    ensures env.probe(0).Some? && o.precondition.value == Lower(Trim(env.probe(0).value))
    ensures var asked := o.precondition.value == "active" && healthURL != "";
            && w.calls[0] == MutatorCall(action, unit, env.mutate(if asked then 2 else 1),
                                         begun + env.cost(0) + if asked then env.cost(1) else 0)
            && o.preHealth == if asked then Some(env.health(1)) else None
    ensures o.error == Some(ActionFailed) <==> !w.calls[0].ok
  {
    assert Answers(env, w.trace[0], 0);
    if o.preHealth.Some? {
      assert Answers(env, w.trace[1], 1);
    }
  }

  /** Recovery, for a precondition `pre` and the deadline the timeout and the caller set: one call toward `pre`
      exactly if the primary call failed, the deadline had not passed by the time the failed state was seen, and
      `pre` is known. */
  lemma RecoveryOutright(env: Environment, healthURL: string, timeout: Time, interval: Time, action: string,
                         unit: string, begun: Time, cancelled: Option<Time>, o: Outcome, w: World, pre: string)
    requires timeout > 0 && interval > 0 && o.precondition == Some(pre)
    requires action in {"service.start", "service.stop", "service.restart"}
    requires Reports(env, healthURL, timeout, interval, action, unit, begun, cancelled, o, w)
    ensures var deadline :=
              if cancelled == None || begun + timeout <= cancelled.value then begun + timeout else cancelled.value;
            var k := if pre == "active" && healthURL != "" then 2 else 1;
            |w.calls| >= 1 &&
            var at := w.calls[0].at + env.cost(k) + env.cost(k + 1);
            var known := pre in {"active", "inactive", "failed"};
            && (|w.calls| == 2 <==> !w.calls[0].ok && at < deadline && known)
            && |w.calls| <= 2
            && (|w.calls| == 2 ==>
                  w.calls[1] == MutatorCall(if pre == "active" then "service.start" else "service.stop", unit,
                                            env.mutate(k + 2), at))
            && (o.recovery == Succeeded <==>
                  && |w.calls| == 2 && w.calls[1].ok
                  && if pre == "active" then EndsActive("", w.trace) else EndsInactive(w.trace))
            && (o.recovery == NotDefined <==> !w.calls[0].ok && at < deadline && !known)
            && (o.recovery == NotRequired <==> o.error.None?)
            && (o.error == Some(PostconditionFailed) ==> w.calls[0].ok && o.recovery == Failed && w.now >= deadline)
            && (!w.calls[0].ok ==> o.postcondition == Observed(env.probe(k + 1)))
  {}

  /** A service manager's spelling does not matter: space around the state and the case of its letters. */
  lemma ObservedOutright(raw: string, plain: string)
    requires Lower(Trim(raw)) == Lower(Trim(plain))
    ensures Observed(Some(raw)) == Observed(Some(plain))
    ensures Observed(Some("active")) == Some("active") && Observed(Some(" Active\n")) == Some("active")
    ensures Observed(None) == None
  {
    assert Trimmed("active");
    TrimStrips(" ", "Active", "\n");
    assert " " + "Active" + "\n" == " Active\n";
    assert Lower("Active") == Lower("active") == "active";
  }

  method RunServiceTransaction(env: Environment, targets: map<string, string>, timeout: Time, interval: Time,
                               action: string, unit: string, begun: Time, cancelled: Option<Time>)
    returns (o: Outcome, w: World)
    requires timeout > 0 && interval > 0
    // Everything recorded is what the environment answered.
    ensures Real(env, w)
    // On a target it reports exactly what the environment determines.
    ensures unit in targets ==>
              Reports(env, targets[unit], timeout, interval, action, unit, begun, cancelled, o, w)
    // Nothing is called for a unit that is not a target.
    ensures unit !in targets <==> o.error == Some(ServiceNotAllowlisted)
    ensures unit !in targets ==> w == Fresh(begun)
    // The precondition is the first observation; without it nothing else happens.
    ensures unit in targets ==> |w.trace| > 0 && w.trace[0] == Probed(o.precondition)
    ensures unit in targets ==> (o.error == Some(PreconditionFailed) <==> o.precondition.None?)
    ensures o.error == Some(PreconditionFailed) ==> |w.trace| == 1 && w.calls == []
    // A service that was active and has a health URL is checked before the action, and only then.
    ensures unit in targets ==> (o.preHealth.Some? <==> o.precondition == Some(ACTIVE) && targets[unit] != "")
    ensures o.preHealth.Some? ==> |w.trace| > 1 && w.trace[1] == HealthChecked(o.preHealth.value)
    // At most two mutator calls; the first is the approved one.
    ensures |w.calls| <= 2
    ensures forall i :: 0 <= i < |w.calls| ==> w.calls[i].unit == unit
    ensures IsMutation(action) && unit in targets && o.precondition.Some? ==>
              |w.calls| >= 1 && w.calls[0].action == action
    // A start and a restart succeed by ending on an active, healthy service, and a stop on an inactive one.
    ensures unit in targets && o.precondition.Some? && (action == "service.start" || action == "service.restart") ==>
              && (o.error.None? <==> |w.calls| == 1 && w.calls[0].ok && EndsActive(targets[unit], w.trace))
              && (o.healthVerified <==> o.error.None? && targets[unit] != "")
    ensures unit in targets && o.precondition.Some? && action == "service.stop" ==>
              && (o.error.None? <==> |w.calls| == 1 && w.calls[0].ok && EndsInactive(w.trace))
              && !o.healthVerified
    // No error exactly when the primary call succeeded, alone, and polling ended satisfied.
    ensures IsMutation(action) && unit in targets && o.precondition.Some? ==>
              (o.error.None? <==>
                && |w.calls| == 1 && w.calls[0].ok
                && EndsSatisfied(ExpectedState(action), targets[unit], w.trace))
    ensures o.error.None? ==> o.postcondition == Some(ExpectedState(action))
    ensures o.error.None? ==> (o.healthVerified <==> ExpectedState(action) == ACTIVE && targets[unit] != "")
    // A recovery call happens only when the primary call itself failed, on a live context, toward a known precondition.
    ensures IsMutation(action) && |w.calls| == 2 ==>
              && o.error == Some(ActionFailed) && !w.calls[0].ok
              && w.calls[1].at < DoneAt(begun, timeout, cancelled)
              && o.precondition.Some? && RecoveryAction(o.precondition.value) == Some(w.calls[1].action)
    // A missed postcondition means the shared deadline has passed, so recovery fails without a call.
    ensures o.error == Some(PostconditionFailed) ==>
              && o.recovery == Failed && w.now >= DoneAt(begun, timeout, cancelled)
              && |w.calls| == 1 && w.calls[0].ok
    // A recovery reported as succeeded ended on a probe of the state it restores.
    ensures o.recovery == Succeeded ==>
              && o.error == Some(ActionFailed) && o.precondition.Some?
              && o.precondition.value in {ACTIVE, INACTIVE, FAILED}
              && EndsSatisfied(if o.precondition.value == ACTIVE then ACTIVE else INACTIVE, "", w.trace)
    // Recovery is reported as not defined only for a precondition without a recovery action.
    ensures o.recovery == NotDefined ==>
              && o.error == Some(ActionFailed) && o.precondition.Some? && RecoveryAction(o.precondition.value).None?
    ensures o.recovery == NotRequired <==>
              o.error.None? || o.error == Some(ServiceNotAllowlisted) || o.error == Some(PreconditionFailed)
    // At most one polling loop, whose rounds the timeout bounds.
    ensures w.loops <= 1
    ensures w.probes <= timeout / interval + 3
  {
    w := Fresh(begun);
    if unit !in targets {
      QuotientNonnegative(timeout, interval);
      return Outcome(Some(ServiceNotAllowlisted), NotRequired, None, None, None, false), w;
    }
    var precondition, preHealth;
    precondition, preHealth, w := ObservePrecondition(env, targets[unit], begun);
    if precondition.None? {
      QuotientNonnegative(timeout, interval);
      return Outcome(Some(PreconditionFailed), NotRequired, None, None, None, false), w;
    }
    var error, recovery, postcondition;
    error, recovery, postcondition, w :=
      Perform(env, DoneAt(begun, timeout, cancelled), timeout, interval, targets[unit], action, unit,
              precondition.value, w);
    RoundsAtMost(w.probes - (if error == Some(ActionFailed) then 2 else 1), interval, timeout);
    o := Outcome(error, recovery, precondition, preHealth, postcondition,
                 error.None? && ExpectedState(action) == ACTIVE && targets[unit] != "");
    CompletionOutright(env, targets[unit], timeout, interval, action, unit, begun, cancelled, o, w);
  }

  /** The action on an observed service, the wait for its postcondition, and recovery where it is due. */
  method Perform(env: Environment, doneAt: Time, timeout: Time, interval: Time, healthURL: string,
                 action: string, unit: string, pre: string, start: World)
    returns (error: Option<TransactionError>, recovery: Recovery, postcondition: Option<string>, w: World)
    requires interval > 0 && doneAt <= start.now + timeout && start.calls == [] && Real(env, start)
    ensures Real(env, w)
    ensures start.trace <= w.trace
    ensures Acted(env, doneAt, healthURL, action, unit, pre, |start.trace|, start.now, error, recovery, postcondition,
                  w)
    ensures w.loops <= start.loops + 1
    ensures w.probes >= start.probes + 1
    ensures error == Some(ActionFailed) ==> FewRounds(w.probes - start.probes - 1, interval, timeout)
    ensures error != Some(ActionFailed) ==> FewRounds(w.probes - start.probes, interval, timeout)
  {
    var ok;
    ok, w := ApplyServiceAction(env, action, unit, start);
    if !ok {
      error := Some(ActionFailed);
      postcondition, recovery, w := AfterFailedAction(env, doneAt, timeout, interval, unit, pre, w);
      return;
    }
    var reached;
    reached, postcondition, w :=
      WaitForPostcondition(env, doneAt, timeout, interval, healthURL, ExpectedState(action), w);
    if reached {
      error, recovery := None, NotRequired;
    } else {
      error := Some(PostconditionFailed);
      recovery, w := RecoverPrecondition(env, doneAt, timeout, interval, unit, pre, w);
    }
  }

  /** The action failed: look once, then try to recover. */
  method AfterFailedAction(env: Environment, doneAt: Time, timeout: Time, interval: Time, unit: string, pre: string,
                           start: World)
    returns (seen: Option<string>, r: Recovery, w: World)
    requires interval > 0 && doneAt <= start.now + timeout && Real(env, start)
    ensures Real(env, w)
    ensures seen == Observed(env.probe(|start.trace|)) && start.trace <= w.trace
    ensures Recovers(env, doneAt, unit, pre, |start.trace| + 1, start.now + env.cost(|start.trace|), start.calls, r, w)
    ensures w.loops <= start.loops + 1
    ensures FewRounds(w.probes - start.probes - 1, interval, timeout)
  {
    seen := Observed(env.probe(|start.trace|));
    w := After(env, start, Probed(seen));
    RealGoesOn(env, start, Probed(seen), w.now);
    r, w := RecoverPrecondition(env, doneAt, timeout, interval, unit, pre, w);
  }

  lemma QuotientNonnegative(timeout: Time, interval: Time)
    requires timeout > 0 && interval > 0
    ensures timeout / interval >= 0
  {}

  lemma RoundsAtMost(rounds: int, interval: Time, timeout: Time)
    requires interval > 0 && timeout > 0 && FewRounds(rounds, interval, timeout)
    ensures rounds <= timeout / interval + 1
  {
    QuotientNonnegative(timeout, interval);
    if rounds >= 1 {
      RoundsBound(rounds, interval, timeout);
    }
  }
}
