/** The run, turn and retry loops: agent_loop.go. */
module AgentLoops {
  import opened Events
  import opened Mutations
  import opened Integrity
  import opened Visibility
  import opened Storage
  import opened Compaction
  import opened Protocol
  import opened Retry
  import opened Environment
  import opened Tools
  import opened Dispatch
  import opened Answers
  import opened Outcomes

  // ---------- Provider errors in the log ----------

  function ProviderErrors(bodies: seq<Body>): seq<Body> {
    if bodies == [] then []
    else ProviderErrors(bodies[..|bodies| - 1]) + if bodies[|bodies| - 1].ProviderError? then
        [bodies[|bodies| - 1]] else []
  }

  function Bodies(es: seq<Event>): (r: seq<Body>)
    ensures |r| == |es| && forall i :: 0 <= i < |es| ==> r[i] == es[i].body
  {
    seq(|es|, i requires 0 <= i < |es| => es[i].body)
  }

  /** The provider errors recorded since the log was `before`. */
  function ErrorsSince(before: seq<Event>, log: seq<Event>): seq<Body>
    requires before <= log
  {
    ProviderErrors(Bodies(log[|before|..]))
  }

  lemma {:induction false} ProviderErrorsOfSum(a: seq<Body>, b: seq<Body>)
    ensures ProviderErrors(a + b) == ProviderErrors(a) + ProviderErrors(b)
  {
    if b == [] {
      assert a + b == a;
    } else {
      ProviderErrorsOfSum(a, b[..|b| - 1]);
      assert (a + b)[..|a + b| - 1] == a + b[..|b| - 1];
    }
  }

  lemma {:induction false} ErrorsAfterAppend(before: seq<Event>, log: seq<Event>, bodies: seq<Body>)
    requires before <= log
    ensures ErrorsSince(before, Extend(log, bodies)) == ErrorsSince(before, log) + ProviderErrors(bodies)
  {
    var after := Extend(log, bodies);
    assert Bodies(after[|before|..]) == Bodies(log[|before|..]) + bodies;
    ProviderErrorsOfSum(Bodies(log[|before|..]), bodies);
  }

  lemma {:induction false} NoProviderErrors(bodies: seq<Body>)
    requires forall b :: b in bodies ==> !b.ProviderError?
    ensures ProviderErrors(bodies) == []
  {
    if bodies != [] {
      NoProviderErrors(bodies[..|bodies| - 1]);
    }
  }

  /** Provider errors are the loop's to record. */
  ghost predicate HooksRecordNoProviderErrors(o: Oracles) {
    forall n, b :: b in o.hook(n).appends ==> !b.ProviderError?
  }

  // ---------- The loop ----------

  function TriesPerTurn(policy: RetryPolicy): (n: nat)
    ensures n >= 1 && (policy.maxAttempts > 0 ==> n == policy.maxAttempts)
    ensures policy.maxAttempts == 0 ==> n == 3
    ensures policy.maxAttempts < 0 ==> n == 1
  {
    if policy.Limit() < 1 then 1 else policy.Limit()
  }

  function TurnsPerRun(maxTurns: int): (n: nat)
    ensures (maxTurns > 0 ==> n == maxTurns) && (maxTurns == 0 ==> n == 10) && (maxTurns < 0 ==> n == 0)
  {
    if maxTurns == 0 then 10 else if maxTurns < 0 then 0 else maxTurns
  }

  class AgentLoop {
    const sessionID: string
    const log: Log
    const w: World
    const runner: Option<Runner>
    const retry: Option<RetryPolicy>
    const maxTurns: int

    constructor (sessionID: string, log: Log, w: World, runner: Option<Runner>, retry: Option<RetryPolicy>,
                 maxTurns: int)
      ensures this.sessionID == sessionID && this.log == log && this.w == w && this.runner == runner
              && this.retry == retry && this.maxTurns == maxTurns
    {
      this.sessionID, this.log, this.w, this.runner, this.retry, this.maxTurns := sessionID, log, w, runner, retry,
        maxTurns;
    }

    function Policy(): RetryPolicy {
      if retry == None then DEFAULT_POLICY else retry.value
    }

    method TerminalRuntimeError() returns (terminal: bool)
      ensures terminal <==> TerminalErrorIn(log.events)
    {
      for i := 0 to |log.events|
        invariant forall k :: 0 <= k < i ==> !(log.events[k].body.RuntimeError? && log.events[k].body.terminal)
      {
        if log.events[i].body.RuntimeError? && log.events[i].body.terminal {
          return true;
        }
      }
      return false;
    }

    // ---------- One attempt ----------

    /** Calls the provider, if the log is still the one that was prepared: `at`. */
    method RunOneProviderAttempt(prepared: PreparedTranscript, ghost at: seq<Event>)
      returns (r: Flow<Result<seq<Body>, ProviderFailure>>)
      requires ProviderReady(at) && prepared.For(sessionID, at) && at <= log.events
      modifies log`events, log`storageErr, log.Sink(), w
      ensures Attempted(old(Snap(log, w)), Snap(log, w), at, r.Value?)
      ensures HooksRecordNoProviderErrors(w.oracles) && log.storageErr == None && r.Value? ==>
                ErrorsSince(old(log.events), log.events) == []
      ensures r.Unwound? ==> Failing(log)
      ensures AttemptWent(w.oracles, old(Now(log, w)), Now(log, w), at, r)
    {
      ghost var a, m := Snap(log, w), Now(log, w);
      var _, stop := Invoke(log, w);
      ghost var b, n := Snap(log, w), Now(log, w);
      if stop {
        AttemptStopped(w.oracles, m, n, at);
        return Unwound;
      }
      r := CallIfCurrent(prepared, at);
      AttemptAfterHooks(a, b, Snap(log, w), at, r.Error?, r.Value?);
      AttemptWentOn(w.oracles, m, n, Now(log, w), at, r);
    }

    method CallIfCurrent(prepared: PreparedTranscript, ghost at: seq<Event>)
      returns (r: Flow<Result<seq<Body>, ProviderFailure>>)
      requires ProviderReady(at) && prepared.For(sessionID, at) && at <= log.events
      modifies log`events, log`storageErr, log.Sink(), w
      ensures if r.Error? then Snap(log, w) == old(Snap(log, w)) && Now(log, w) == old(Now(log, w))
              else Attempted(old(Snap(log, w)), Snap(log, w), at, r.Value?)
                   && CallWent(w.oracles, old(Now(log, w)), Now(log, w), r)
      ensures if r.Error? then IsStale(r.error) && log.events != at else old(log.events) == at
      ensures HooksRecordNoProviderErrors(w.oracles) && log.storageErr == None && r.Value? ==>
                ErrorsSince(old(log.events), log.events) == []
      ensures r.Unwound? ==> Failing(log)
    {
      var current := Current(prepared, sessionID, log.events);
      if !current {
        return Error(TranscriptIntegrityError([Violation(PreparedTranscriptStale, prepared.nextSeq, "")]));
      }
      assert log.events == at;
      r := CallProvider();
    }

    /** The call itself, and unless it fails the hooks after it. */
    method CallProvider() returns (r: Flow<Result<seq<Body>, ProviderFailure>>)
      requires ProviderReady(log.events)
      modifies log`events, log`storageErr, log.Sink(), w
      ensures Attempted(old(Snap(log, w)), Snap(log, w), old(log.events), r.Value?)
      ensures HooksRecordNoProviderErrors(w.oracles) && log.storageErr == None && r.Value? ==>
                ErrorsSince(old(log.events), log.events) == []
      ensures r.Unwound? ==> Failing(log)
      ensures CallWent(w.oracles, old(Now(log, w)), Now(log, w), r)
    {
      ghost var a, m := Snap(log, w), Now(log, w);
      var answer := w.oracles.provider(w.clock);
      w.clock := w.clock + 1;
      w.calls := w.calls + [log.events];
      CalledWhenReady(a);
      ghost var b, n := Snap(log, w), Now(log, w);
      if answer.Failed? {
        NothingSince(a.log);
        CallFailed(w.oracles, m, n);
        return Value(Failure(answer.err));
      }
      r := AfterTheCall(answer);
      StillAttempted(a, b, Snap(log, w), a.log);
      CallAnswered(w.oracles, m, n, Now(log, w), r);
    }

    method AfterTheCall(answer: ProviderAnswer) returns (r: Flow<Result<seq<Body>, ProviderFailure>>)
      requires !answer.Failed?
      modifies log`events, log`storageErr, log.Sink(), w`rogue, w`reckless, w`clock
      ensures Quietly(old(Snap(log, w)), Snap(log, w))
      ensures HooksRecordNoProviderErrors(w.oracles) && log.storageErr == None && r.Value? ==>
                old(log.events) <= log.events && ErrorsSince(old(log.events), log.events) == []
      ensures r.Value? ==> Told(answer, r.value)
      ensures r.Unwound? ==> Failing(log)
      ensures HooksCalled(w.oracles, old(Now(log, w)), Now(log, w), r.Unwound?) && !r.Error?
    {
      ghost var at, tick := log.events, w.clock;
      var _, stopped := Invoke(log, w);
      if stopped {
        return Unwound;
      }
      if HooksRecordNoProviderErrors(w.oracles) && log.storageErr == None {
        var appends := w.oracles.hook(tick).appends;
        assert log.events == Extend(at, appends) by {
          assert appends + [] == appends;
        }
        NoProviderErrors(appends);
        ErrorsAfterAppend(at, at, appends);
        NothingSince(at);
      }
      return if answer.Unreadable? then Value(Failure(answer.err)) else Value(Success(answer.bodies));
    }

    // ---------- One turn's attempts ----------

    method AppendProviderError(attempt: nat, terminal: bool)
      modifies log`events, log`storageErr, log.Sink()
      ensures Quietly(old(Snap(log, w)), Snap(log, w))
      ensures log.storageErr == None ==> log.events == Extend(old(log.events), [ProviderError(attempt, terminal)])
      ensures Put(old(Now(log, w)), Now(log, w), [ProviderError(attempt, terminal)])
    {
      AppendNeutral(log, w, ProviderError(attempt, terminal));
    }

    /** Prepares the session again after a failed attempt, and projects it again. */
    method PrepareAgain() returns (r: Flow<PreparedTranscript>)
      modifies w`clock
      ensures r.Value? ==> ProviderReady(log.events) && r.value.For(sessionID, log.events)
      ensures !r.Unwound?
      ensures PreparedAgain(w.oracles, old(Now(log, w)), Now(log, w), r)
    {
      var prepared := PrepareProviderCall(sessionID, log.events);
      if prepared.Failure? {
        return Error(TranscriptIntegrityError(prepared.error));
      }
      var projection := w.oracles.projection(w.clock);
      w.clock := w.clock + 1;
      return if projection != Projected then Error(ProjectionFailed) else Value(prepared.value);
    }

    /** One attempt, and what follows a failed one: its record, the policy's verdict, a new preparation. */
    method TryOnce(prepared: PreparedTranscript, ghost at: seq<Event>, attempt: nat, ghost a: Snapshot) returns (r: Try)
      requires ProviderReady(at) && prepared.For(sessionID, at) && at <= log.events
      requires 1 <= attempt <= TriesPerTurn(Policy()) && Retrying(a, Snap(log, w), w.oracles, attempt - 1)
      modifies log`events, log`storageErr, log.Sink(), w
      ensures TryKept(a, Snap(log, w), w.oracles, sessionID, Policy(), attempt, r)
      ensures TryWent(w.oracles, old(Now(log, w)), Now(log, w), at, attempt, r)
    {
      ghost var m := Now(log, w);
      var outcome := Attempt(prepared, at, attempt, a);
      ghost var n := Now(log, w);
      if outcome.Value? && outcome.value.Failure? {
        r := AfterFailure(outcome.value.error, attempt, a);
        TryAfterFailure(w.oracles, m, n, Now(log, w), at, attempt, outcome.value.error, r);
      } else {
        r := Ended(if outcome.Error? then Error(outcome.error)
                   else if outcome.Unwound? then Unwound
                   else Value(Some(outcome.value.value)));
        TryAfterAttempt(w.oracles, m, n, at, attempt, outcome, r);
        TryEnds(a, Snap(log, w), w.oracles, sessionID, Policy(), attempt, outcome, r);
      }
    }

    /** The attempt alone. */
    method Attempt(prepared: PreparedTranscript, ghost at: seq<Event>, ghost attempt: nat, ghost a: Snapshot)
      returns (r: Flow<Result<seq<Body>, ProviderFailure>>)
      requires ProviderReady(at) && prepared.For(sessionID, at) && at <= log.events
      requires attempt >= 1 && Retrying(a, Snap(log, w), w.oracles, attempt - 1)
      modifies log`events, log`storageErr, log.Sink(), w
      ensures Tried(a, Snap(log, w)) && |w.calls| <= |a.calls| + attempt
      ensures r.Value? ==> Concluded(a, Snap(log, w), w.oracles, attempt, true)
      ensures r.Value? && r.value.Failure? ==> FailsWith(w.oracles, r.value.error)
      ensures r.Unwound? ==> Failing(log)
      ensures AttemptWent(w.oracles, old(Now(log, w)), Now(log, w), at, r)
    {
      ghost var b := Snap(log, w);
      r := RunOneProviderAttempt(prepared, at);
      ghost var c := Snap(log, w);
      TriedOnce(a, b, c, at, r.Value?);
      if r.Value? {
        NoErrorsMeanwhile(a, b, c, w.oracles, Trail(attempt - 1, false));
      }
    }

    method AfterFailure(err: ProviderFailure, attempt: nat, ghost a: Snapshot) returns (r: Try)
      requires 1 <= attempt <= TriesPerTurn(Policy()) && FailsWith(w.oracles, err)
      requires Concluded(a, Snap(log, w), w.oracles, attempt, true)
      modifies log`events, log`storageErr, log.Sink(), w`clock
      ensures TryKept(a, Snap(log, w), w.oracles, sessionID, Policy(), attempt, r)
      ensures FailureWent(w.oracles, old(Now(log, w)), Now(log, w), attempt, r)
    {
      ghost var c, m := Snap(log, w), Now(log, w);
      var decision := Policy().Decide(err, attempt);
      AppendProviderError(attempt, !decision.retry);
      ghost var n := Now(log, w);
      FailureRecorded(a, c, Snap(log, w), w.oracles, attempt, !decision.retry);
      if log.storageErr.Some? {
        return Ended(Error(StorageWriteError(log.storageErr.value)));
      }
      if !decision.retry {
        return Ended(Value(None));
      }
      var again := PrepareAgain();
      r := if again.Error? then Ended(Error(again.error)) else Again(again.value);
      FailureEnds(w.oracles, m, n, Now(log, w), attempt, again, r);
    }

    /** One of several attempts, which began at `a` and `m` on the log `first`. */
    method NextTry(prepared: PreparedTranscript, attempt: nat, ghost at: seq<Event>, ghost a: Snapshot,
                   ghost m: Moment, ghost first: seq<Event>)
      returns (r: Try, ghost s: Snapshot, ghost n: Moment)
      requires InRow(a, m, Snap(log, w), Now(log, w), w.oracles, sessionID, Policy(), first, at, attempt, prepared)
      modifies log`events, log`storageErr, log.Sink(), w
      ensures s == Snap(log, w) && n == Now(log, w)
      ensures RowWent(a, m, s, n, w.oracles, sessionID, Policy(), first, s.log, attempt, r)
    {
      ghost var before := Now(log, w);
      r := TryOnce(prepared, at, attempt, a);
      s, n := Snap(log, w), Now(log, w);
      LoopSteps(w.oracles, m, before, n, first, at, attempt, r);
      RowGoesOn(a, m, s, n, w.oracles, sessionID, Policy(), first, attempt, r);
    }

    /** Attempts until one succeeds, the policy gives up, or the session can no longer be prepared. */
    method CallProviderWithRetry(first: PreparedTranscript, ghost firstAt: seq<Event>)
      returns (r: Flow<Option<seq<Body>>>, ghost attempts: nat)
      requires ProviderReady(firstAt) && first.For(sessionID, firstAt) && firstAt <= log.events
      modifies log`events, log`storageErr, log.Sink(), w
      ensures RowEnded(old(Snap(log, w)), old(Now(log, w)), Snap(log, w), Now(log, w), w.oracles, sessionID, Policy(),
                       firstAt, attempts, r)
    {
      ghost var a, m := Snap(log, w), Now(log, w);
      var attempt, step := 0, Again(first);
      RowStarts(a, m, w.oracles, sessionID, Policy(), first, firstAt);
      ghost var s, n, at := a, m, firstAt;
      while step.Again?
        invariant s == Snap(log, w) && n == Now(log, w)
        invariant RowWent(a, m, s, n, w.oracles, sessionID, Policy(), firstAt, at, attempt, step)
        decreases TriesLeft(Policy(), attempt, step)
      {
        ghost var before := step;
        attempt := attempt + 1;
        step, s, n := NextTry(step.prepared, attempt, at, a, m, firstAt);
        at := s.log;
        FewerTriesLeft(a, m, s, n, w.oracles, sessionID, Policy(), firstAt, at, attempt, before, step);
      }
      return step.flow, attempt;
    }

    // ---------- One turn ----------

    /** The answer enters the log, closed, as one batch. */
    method AppendAnswer(bodies: seq<Body>, stop: string, staged: seq<Body>)
      requires WellFormedAnswer(bodies, stop) && Closes(bodies, stop, staged)
      requires CalledOn(Snap(log, w)) && ProviderReady(w.calls[|w.calls| - 1])
      modifies log`events, log`storageErr, log.Sink(), w`rogue, w`reckless
      ensures Moved(old(Snap(log, w)), Snap(log, w)) && w.calls == old(w.calls) && w.handled == old(w.handled)
      ensures Put(old(Now(log, w)), Now(log, w), staged)
    {
      ghost var a := Snap(log, w);
      w.rogue := w.rogue || !FreshIDs(log.events, bodies);
      w.reckless := w.reckless || !RespectsPairs(log.events, bodies);
      AppendGroup(log, staged);
      AnswerMoves(a, Snap(log, w), bodies, stop, staged);
    }

    /** The answer is closed and appended, unless it is ill-formed. */
    method CloseAndAppend(bodies: seq<Body>) returns (r: Flow<Turn>)
      requires GivenBy(w.oracles, bodies)
      requires CalledOn(Snap(log, w)) && ProviderReady(w.calls[|w.calls| - 1])
      modifies log`events, log`storageErr, log.Sink(), w`rogue, w`reckless
      ensures Moved(old(Snap(log, w)), Snap(log, w)) && w.calls == old(w.calls) && w.handled == old(w.handled)
      ensures r.Value? ==>
                && r.value.reason in {Unstated, IncompleteToolBatch}
                && log.storageErr == None && EndsWithAnswer(w.oracles, log.events, r.value)
      ensures IllFormed(bodies) ==>
                r.Error? && r.error.ProviderResponseIntegrityError? && Snap(log, w) == old(Snap(log, w))
      ensures CloseWent(old(Now(log, w)), Now(log, w), bodies, r)
    {
      ghost var a, m := Snap(log, w), Now(log, w);
      var closed := CloseProviderStep(bodies);
      if closed.Failure? {
        MovedNowhere(a);
        return Error(ProviderResponseIntegrityError(closed.error));
      }
      var (turn, staged) := closed.value;
      AppendAnswer(bodies, turn.stopReason, staged);
      if log.storageErr.Some? {
        return Error(StorageWriteError(log.storageErr.value));
      }
      assert Entered(bodies, m.log, log.events, turn, staged);
      assert EndsWith(w.oracles, log.events, a.log, bodies, turn, staged);
      return Value(turn);
    }

    /** One turn: hooks, preparation, projection, provider, and the answer appended. */
    method RunTurn() returns (r: Flow<Turn>)
      modifies log`events, log`storageErr, log.Sink(), w
      ensures TurnKept(old(Snap(log, w)), Snap(log, w), w.oracles, Policy(), r)
      ensures TurnWent(w.oracles, old(Now(log, w)), Now(log, w), r)
    {
      ghost var a, m := Snap(log, w), Now(log, w);
      var prepared, ended := PrepareTurn();
      ghost var b, n := Snap(log, w), Now(log, w);
      if prepared == None {
        TurnKeptEarly(a, b, w.oracles, Policy(), ended);
        TurnEndsEarly(w.oracles, m, n, ended);
        return ended;
      }
      r := ProjectAndCall(prepared.value);
      TurnKeptOn(a, b, Snap(log, w), w.oracles, Policy(), r);
      TurnGoesOn(w.oracles, m, n, Now(log, w), r);
    }

    /** The hooks before a turn, and its preparation: how the turn ends, if it ends here. */
    method PrepareTurn() returns (prepared: Option<PreparedTranscript>, ended: Flow<Turn>)
      modifies log`events, log`storageErr, log.Sink(), w`rogue, w`reckless, w`clock
      ensures Quietly(old(Snap(log, w)), Snap(log, w))
      ensures HooksCalled(w.oracles, old(Now(log, w)), Now(log, w), prepared == None && ended.Unwound?)
      ensures prepared == None ==> EndsEarly(log.events, log.storageErr, ended)
      ensures prepared.Some? ==> ProviderReady(log.events) && prepared.value.For(sessionID, log.events)
    {
      var _, stop := Invoke(log, w);
      prepared, ended := None, Unwound;
      if !stop {
        var terminal := TerminalRuntimeError();
        ended := Value(Turn("", RuntimeFailed));
        if !terminal {
          var p := PrepareProviderCall(sessionID, log.events);
          if p.Success? {
            return Some(p.value), ended;
          }
          ended := Error(TranscriptIntegrityError(p.error));
        }
      }
    }

    method ProjectAndCall(prepared: PreparedTranscript) returns (r: Flow<Turn>)
      requires ProviderReady(log.events) && prepared.For(sessionID, log.events)
      modifies log`events, log`storageErr, log.Sink(), w
      ensures TurnKept(old(Snap(log, w)), Snap(log, w), w.oracles, Policy(), r)
      ensures PreparedWent(w.oracles, old(Now(log, w)), Now(log, w), r)
    {
      ghost var a, m := Snap(log, w), Now(log, w);
      var stopped := Projection();
      ghost var b, n := Snap(log, w), Now(log, w);
      if stopped.Some? {
        RenderStopped(w.oracles, m, n, stopped.value);
        return stopped.value;
      }
      r := CallAndAppend(prepared, a.log);
      TurnKeptOn(a, b, Snap(log, w), w.oracles, Policy(), r);
      RenderedAndSent(w.oracles, m, n, Now(log, w), r);
    }

    /** Renders the request and lets the hooks see it: the end of the turn, if it ends here. */
    method Projection() returns (stopped: Option<Flow<Turn>>)
      modifies log`events, log`storageErr, log.Sink(), w`rogue, w`reckless, w`clock
      ensures Quietly(old(Snap(log, w)), Snap(log, w))
      ensures stopped.Some? && !stopped.value.Error? ==> Failing(log)
      ensures RenderWent(w.oracles, old(Now(log, w)), Now(log, w), stopped)
    {
      var projection := w.oracles.projection(w.clock);
      w.clock := w.clock + 1;
      if projection == ProjectionError {
        QuietlyNowhere(Snap(log, w));
        return Some(Error(ProjectionFailed));
      }
      if projection == CapabilityMismatch {
        RecordMismatch();
        stopped := Some(Value(Turn("", RuntimeFailed)));
      } else {
        ghost var appends := w.oracles.hook(w.clock).appends;
        assert appends + [] == appends;
        var _, unwound := Invoke(log, w);
        stopped := if unwound then Some(Unwound) else None;
      }
    }

    method RecordMismatch()
      modifies log`events, log`storageErr, log.Sink()
      ensures Quietly(old(Snap(log, w)), Snap(log, w)) && Failing(log)
      ensures Put(old(Now(log, w)), Now(log, w), [RuntimeError("capability_mismatch", true)])
    {
      ghost var before := log.events;
      var error := RuntimeError("capability_mismatch", true);
      AppendNeutral(log, w, error);
      NowFailing(before, error);
    }

    method CallAndAppend(prepared: PreparedTranscript, ghost at: seq<Event>) returns (r: Flow<Turn>)
      requires ProviderReady(at) && prepared.For(sessionID, at) && at <= log.events
      modifies log`events, log`storageErr, log.Sink(), w
      ensures TurnKept(old(Snap(log, w)), Snap(log, w), w.oracles, Policy(), r)
      ensures SentWent(w.oracles, old(Now(log, w)), Now(log, w), at, r)
    {
      ghost var a, m := Snap(log, w), Now(log, w);
      var answer, attempts := CallProviderWithRetry(prepared, at);
      ghost var c, n := Snap(log, w), Now(log, w);
      if !answer.Value? || log.storageErr.Some? || answer.value == None {
        r := WithoutAnswer(answer, log.storageErr);
        CallEnded(a, m, c, n, w.oracles, sessionID, Policy(), at, attempts, answer);
        return;
      }
      r := CloseAndAppend(answer.value.value);
      TurnClosed(a, c, Snap(log, w), w.oracles, sessionID, Policy(), attempts, answer.value.value, r);
      SentClosed(w.oracles, m, n, Now(log, w), at, attempts, answer.value.value, r);
    }

    // ---------- A run ----------

    /** Pending work is settled before any provider call. `Value(Some(reason))` ends the run there. */
    method PrepareRunEntry() returns (r: Flow<Option<Reason>>)
      modifies log`events, log`storageErr, log.Sink(), w`rogue, w`reckless, w`clock, w`handled
      ensures Moved(old(Snap(log, w)), Snap(log, w)) && w.calls == old(w.calls)
      ensures NoPending(old(log.events)) ==> r == Value(None) && Snap(log, w) == old(Snap(log, w))
      ensures AwaitingApproval(old(log.events)) ==> r == Value(Some(Awaiting)) && Snap(log, w) == old(Snap(log, w))
      ensures !AwaitingApproval(old(log.events)) && ResolvedWithoutResult(old(log.events)) ==>
                r.Error? && Snap(log, w) == old(Snap(log, w))
      ensures old(LeftBehind(log.events)) ==>
                && Snap(log, w) == old(Snap(log, w))
                && r.Error? == !HiddenPending(log.events) && (!r.Error? ==> r == Value(None))
      ensures r == Value(None) ==> NoPending(log.events) || HiddenPending(log.events)
      ensures r == Value(None) && old(ToBeResumed(log.events)) ==>
                if NoPending(log.events) then !TerminalErrorIn(log.events) else runner == None || w.rogue
      ensures r == Value(None) && old(ToBeResumed(log.events)) && runner.Some? ==>
                BatchSettled(old(Snap(log, w)), Snap(log, w), runner.value, w.oracles, old(w.clock))
      ensures r == Value(Some(Awaiting)) && !w.rogue ==> AwaitingApproval(log.events)
      ensures r.Value? && r.value.Some? ==> r.value.value in {Awaiting, RuntimeFailed}
      ensures r.Unwound? || r == Value(Some(RuntimeFailed)) ==> Failing(log)
      ensures NoPending(old(log.events)) ==> Now(log, w) == old(Now(log, w))
      ensures w.clock >= old(w.clock)
      ensures r.Error? ==> CausedBy(r.error, w.oracles, w.clock, w.clock, log.events, log.storageErr)
    {
      ghost var a := Snap(log, w);
      MovedNowhere(a);
      var pending := PendingToolUses(log.events);
      if pending == [] {
        NothingPendingNothingAwaited(log.events);
        return Value(None);
      }
      var awaiting, resolved := ScanApprovals(log.events, pending);
      if awaiting != {} {
        return Value(Some(Awaiting));
      }
      if resolved != {} {
        return Error(TranscriptIntegrityError([Violation(ResolvedApprovalOpen, -1, "")]));
      }
      var stopped := LastStoppedForTools();
      if !stopped {
        var prepared := PrepareProviderCall(sessionID, log.events);
        return if prepared.Failure? then Error(TranscriptIntegrityError(prepared.error)) else Value(None);
      }
      r := ResumeBatch();
    }

    method LastStoppedForTools() returns (stopped: bool)
      ensures stopped <==> exists a :: StopsForTools(log.events, a)
    {
      var last := log.LastAssistantMessage();
      stopped := last.Some? && last.value.body.stopReason == "tool_use";
      if last.Some? {
        ghost var b :| LastAssistantAt(log.events, b) && last.value == log.events[b];
        assert forall a :: LastAssistantAt(log.events, a) ==> a == b;
        assert StopsForTools(log.events, b) <==> stopped;
      }
    }

    /** A batch left pending by a stop for tools is dispatched now. */
    method ResumeBatch() returns (r: Flow<Option<Reason>>)
      modifies log`events, log`storageErr, log.Sink(), w`rogue, w`reckless, w`clock, w`handled
      ensures Moved(old(Snap(log, w)), Snap(log, w)) && w.calls == old(w.calls)
      ensures r == Value(Some(Awaiting)) ==>
                && BatchHeld(old(Snap(log, w)), Snap(log, w), w.oracles, old(w.clock))
                && (!w.rogue ==> AwaitingApproval(log.events))
      ensures r.Value? && r != Value(Some(Awaiting)) ==>
                if runner == None then Snap(log, w) == old(Snap(log, w))
                else BatchSettled(old(Snap(log, w)), Snap(log, w), runner.value, w.oracles, old(w.clock))
      ensures r.Unwound? || log.storageErr.Some? || r == Value(Some(Awaiting))
              || (r.Error? <==> !NoPending(log.events) && !HiddenPending(log.events))
      ensures r == Value(None) ==>
              if NoPending(log.events) then !TerminalErrorIn(log.events) else runner == None || w.rogue
      ensures r.Value? ==> log.storageErr == None
      ensures r.Value? && r.value.Some? ==> r.value.value in {Awaiting, RuntimeFailed}
      ensures r.Unwound? || r == Value(Some(RuntimeFailed)) ==> Failing(log)
      ensures w.clock >= old(w.clock)
      ensures r.Error? ==> CausedBy(r.error, w.oracles, w.clock, w.clock, log.events, log.storageErr)
    {
      var _, nowAwaiting, unwound := DispatchPendingTools(log, w, runner);
      if unwound {
        return Unwound;
      }
      if log.storageErr.Some? {
        return Error(StorageWriteError(log.storageErr.value));
      }
      if nowAwaiting {
        return Value(Some(Awaiting));
      }
      var left := PendingToolUses(log.events);
      if left != [] {
        var prepared := PrepareProviderCall(sessionID, log.events);
        return if prepared.Failure? then Error(TranscriptIntegrityError(prepared.error)) else Value(None);
      }
      var terminal := TerminalRuntimeError();
      return Value(if terminal then Some(RuntimeFailed) else None);
    }

    /** What follows a turn whose model stopped for its tools: the reason to end the run, if there is one. */
    method DispatchTurn() returns (r: Flow<Option<Reason>>)
      modifies log`events, log`storageErr, log.Sink(), w`rogue, w`reckless, w`clock, w`handled
      ensures Moved(old(Snap(log, w)), Snap(log, w)) && w.calls == old(w.calls)
      ensures r == Value(Some(Awaiting)) ==>
                && BatchHeld(old(Snap(log, w)), Snap(log, w), w.oracles, old(w.clock))
                && (!w.rogue ==> AwaitingApproval(log.events))
      ensures r.Value? && r != Value(Some(Awaiting)) ==>
                if runner == None then Snap(log, w) == old(Snap(log, w))
                else BatchSettled(old(Snap(log, w)), Snap(log, w), runner.value, w.oracles, old(w.clock))
      ensures r.Unwound? || log.storageErr.Some? || r == Value(Some(Awaiting))
              || (r == Value(Some(Unstated)) <==> HiddenPending(log.events))
      ensures r == Value(Some(Unstated)) ==> HiddenPending(log.events) && (runner == None || w.rogue)
      ensures r == Value(Some(NoPendingTools)) ==> NoPending(old(log.events)) && NoPending(log.events)
      ensures r == Value(None) ==> runner.Some? && NoPending(log.events) && !TerminalErrorIn(log.events)
      ensures r.Value? && r.value.Some? ==>
                r.value.value in {Awaiting, Unstated, NoPendingTools, RuntimeFailed}
      ensures r.Unwound? || r == Value(Some(RuntimeFailed)) ==> Failing(log)
      ensures w.clock >= old(w.clock)
      ensures r.Error? ==> CausedBy(r.error, w.oracles, w.clock, w.clock, log.events, log.storageErr)
    {
      var pending, awaiting, unwound := DispatchPendingTools(log, w, runner);
      if unwound {
        return Unwound;
      }
      if log.storageErr.Some? {
        return Error(StorageWriteError(log.storageErr.value));
      }
      if awaiting {
        return Value(Some(Awaiting));
      }
      var left := PendingToolUses(log.events);
      if left != [] {
        var prepared := PrepareProviderCall(sessionID, log.events);
        return if prepared.Failure? then Error(TranscriptIntegrityError(prepared.error)) else Value(Some(Unstated));
      }
      if pending == [] {
        NothingPending(old(log.events));
        return Value(Some(NoPendingTools));
      }
      var terminal := TerminalRuntimeError();
      return Value(if terminal then Some(RuntimeFailed) else None);
    }

    /** One run of the loop. A `fail_turn` hook ends it as failed. */
    method Run() returns (r: Flow<Reason>)
      modifies log`events, log`storageErr, log.Sink(), w
      ensures RunKept(old(Snap(log, w)), Snap(log, w), w.oracles, runner, Policy(), TurnsPerRun(maxTurns), r)
      ensures RunWent(w.oracles, old(Now(log, w)), Now(log, w), TurnsPerRun(maxTurns), r)
      ensures old(Blocked(log)) ==> Snap(log, w) == old(Snap(log, w))
      ensures old(log.storageErr.Some?) ==> r == Error(StorageWriteError(old(log.storageErr.value)))
      ensures old(log.storageErr == None && !ReferencesSound(log.events)) ==>
              r.Error? && r.error.TranscriptIntegrityError?
      ensures old(Ready(log) && TerminalErrorIn(log.events)) ==> r == Value(RuntimeFailed)
      ensures old(Ready(log) && !TerminalErrorIn(log.events) && AwaitingApproval(log.events)) ==> r == Value(Awaiting)
      ensures old(Disciplined(log.events)) && !w.rogue && !w.reckless ==> r != Value(Unstated)
    {
      ghost var a, m := Snap(log, w), Now(log, w);
      var refused := MayNotStart();
      if refused.Some? {
        RunEndsEarly(w.oracles, m, m, TurnsPerRun(maxTurns), refused.value);
        RunKeptAtOnce(a, w.oracles, runner, Policy(), TurnsPerRun(maxTurns), refused.value);
        return refused.value;
      }
      r := EnterAndTurn();
      if Disciplined(a.log) && !w.rogue && !w.reckless {
        NothingHidden(a.log, log.events);
      }
    }

    /** A run that may start: pending work is settled, then turns are taken. */
    method EnterAndTurn() returns (r: Flow<Reason>)
      requires Ready(log) && !TerminalErrorIn(log.events)
      modifies log`events, log`storageErr, log.Sink(), w
      ensures RunKept(old(Snap(log, w)), Snap(log, w), w.oracles, runner, Policy(), TurnsPerRun(maxTurns), r)
      ensures RunWent(w.oracles, old(Now(log, w)), Now(log, w), TurnsPerRun(maxTurns), r)
      ensures old(AwaitingApproval(log.events)) ==> r == Value(Awaiting) && Snap(log, w) == old(Snap(log, w))
    {
      ghost var a, m := Snap(log, w), Now(log, w);
      var entry := PrepareRunEntry();
      ghost var b, n := Snap(log, w), Now(log, w);
      if entry != Value(None) {
        r := EntryEnds(entry);
        RunEndsEarly(w.oracles, m, n, TurnsPerRun(maxTurns), r);
        RunKeptEarly(a, b, w.oracles, runner, Policy(), TurnsPerRun(maxTurns), entry);
        return;
      }
      r := Turns();
      RunKeptOn(a, b, Snap(log, w), w.oracles, runner, Policy(), TurnsPerRun(maxTurns), r);
      RunTakesTurns(w.oracles, m, n, Now(log, w), TurnsPerRun(maxTurns), r);
    }

    /** What a run ends with before it has done anything, if it ends there. */
    method MayNotStart() returns (r: Option<Flow<Reason>>)
      ensures r == None <==> Ready(log) && !TerminalErrorIn(log.events)
      ensures log.storageErr.Some? ==> r == Some(Error(StorageWriteError(log.storageErr.value)))
      ensures log.storageErr == None && !ReferencesSound(log.events) ==>
                r.Some? && r.value.Error? && r.value.error.TranscriptIntegrityError?
      ensures Ready(log) && TerminalErrorIn(log.events) ==> r == Some(Value(RuntimeFailed))
    {
      if log.storageErr.Some? {
        return Some(Error(StorageWriteError(log.storageErr.value)));
      }
      var violations := AnalyzeToolReferences(log.events);
      if violations != [] {
        return Some(Error(TranscriptIntegrityError(violations)));
      }
      var terminal := TerminalRuntimeError();
      return if terminal then Some(Value(RuntimeFailed)) else None;
    }

    /** Turns until one ends the run, or as many as a run may take. */
    method Turns() returns (r: Flow<Reason>)
      modifies log`events, log`storageErr, log.Sink(), w
      ensures RunKept(old(Snap(log, w)), Snap(log, w), w.oracles, runner, Policy(), TurnsPerRun(maxTurns), r)
      ensures if TurnsPerRun(maxTurns) > 0 then EndWent(w.oracles, old(Now(log, w)), Now(log, w), Some(r))
              else Now(log, w) == old(Now(log, w)) && !r.Error?
    {
      ghost var a, m := Snap(log, w), Now(log, w);
      TurnsKeptAtFirst(a, Policy());
      TurnsStart(w.oracles, m);
      ghost var s, n := a, m;
      for turnNo := 0 to TurnsPerRun(maxTurns)
        invariant s == Snap(log, w) && n == Now(log, w)
        invariant TurnsKept(a, s, Policy(), turnNo) && TurnsSoFar(w.oracles, m, n, turnNo)
      {
        var ended, s', n' := TakeTurn();
        TurnsKeptOn(a, s, s', w.oracles, runner, Policy(), turnNo, TurnsPerRun(maxTurns), ended);
        TurnsGoOn(w.oracles, m, n, n', turnNo, ended);
        if ended.Some? {
          return ended.value;
        }
        s, n := s', n';
      }
      AllTurnsKept(a, s, w.oracles, runner, Policy(), TurnsPerRun(maxTurns));
      if TurnsPerRun(maxTurns) > 0 {
        AllTurnsTaken(w.oracles, m, n, TurnsPerRun(maxTurns), Value(MaxTurnsReached));
      }
      return Value(MaxTurnsReached);
    }

    /** One turn and what follows it: the end of the run, if it ends here. */
    method TakeTurn() returns (ended: Option<Flow<Reason>>, ghost s: Snapshot, ghost n: Moment)
      modifies log`events, log`storageErr, log.Sink(), w
      ensures s == Snap(log, w) && n == Now(log, w)
      ensures TookTurn(old(Snap(log, w)), s, w.oracles, runner, Policy(), ended)
      ensures EndWent(w.oracles, old(Now(log, w)), n, ended)
    {
      ghost var a, m := Snap(log, w), Now(log, w);
      var flow := RunTurn();
      ghost var b, c := Snap(log, w), Now(log, w);
      ended := LastOf(flow);
      if ended.Some? {
        TurnEndsRun(a, b, w.oracles, runner, Policy(), flow);
        TurnIsLast(w.oracles, m, c, flow);
      } else {
        var next := DispatchTurn();
        ended := AfterTools(next);
        ToolsEndTurn(a, b, Snap(log, w), w.oracles, runner, Policy(), flow, w.clock, next);
        TurnThenTools(w.oracles, m, c, Now(log, w), flow, ended);
      }
      s, n := Snap(log, w), Now(log, w);
    }
  }

  /** The provider was called at most once, on the log `at`, and exactly once if the attempt has an outcome. */
  ghost predicate Attempted(a: Snapshot, b: Snapshot, at: seq<Event>, outcome: bool) {
    && Moved(a, b) && b.handled == a.handled
    && (!b.rogue ==> SameTools(a.log, b.log))
    && (b.calls == a.calls + [at] || (!outcome && b.calls == a.calls))
    && (outcome ==> at == a.log)
  }

  lemma {:induction false} NothingSince(log: seq<Event>)
    ensures ErrorsSince(log, log) == []
  {
    assert Bodies(log[|log|..]) == [];
  }

  lemma {:induction false} CalledWhenReady(a: Snapshot)
    requires ProviderReady(a.log)
    ensures Attempted(a, a.(calls := a.calls + [a.log]), a.log, true)
  {
    MovedNowhere(a);
  }

  lemma {:induction false} AttemptAfterHooks(a: Snapshot, b: Snapshot, c: Snapshot, at: seq<Event>, stale: bool,
                                             outcome: bool)
    requires Quietly(a, b) && at <= a.log && (stale ==> !outcome)
    requires if stale then c == b else b.log == at && Attempted(b, c, at, outcome)
    ensures Attempted(a, c, at, outcome)
  {
    if !stale {
      MovedOn(a, b, c);
    }
  }

  lemma {:induction false} StillAttempted(a: Snapshot, b: Snapshot, c: Snapshot, at: seq<Event>)
    requires Attempted(a, b, at, true) && Quietly(b, c)
    ensures Attempted(a, c, at, true)
  {
    MovedOn(a, b, c);
  }

  // ---------- What the retry loop keeps ----------

  /** Any number of provider calls, but no tool. */
  ghost predicate Tried(a: Snapshot, b: Snapshot) {
    Moved(a, b) && b.handled == a.handled && (!b.rogue ==> SameTools(a.log, b.log))
  }

  /** The last provider call saw the log as it still is, as far as tools go. */
  ghost predicate CalledOn(s: Snapshot) {
    s.calls != [] && s.calls[|s.calls| - 1] <= s.log && (!s.rogue ==> SameTools(s.calls[|s.calls| - 1], s.log))
  }

  /** `k` attempts have failed and are on record. */
  ghost predicate Retrying(a: Snapshot, s: Snapshot, o: Oracles, k: nat) {
    Tried(a, s) && |s.calls| == |a.calls| + k && ErrorsAre(a, s, o, Trail(k, false))
  }

  /** The `attempts`-th attempt answered, on a log that still has the same tools, or it failed for good;
      the failed attempts are on record. */
  ghost predicate Concluded(a: Snapshot, s: Snapshot, o: Oracles, attempts: nat, answered: bool) {
    && Tried(a, s) && |s.calls| == |a.calls| + attempts && CalledOn(s)
    && attempts >= 1 && ErrorsAre(a, s, o, if answered then Trail(attempts - 1, false) else Trail(attempts, true))
  }

  /** Some call of the provider ended in this error. */
  ghost predicate FailsWith(o: Oracles, err: ProviderFailure) {
    exists n :: !o.provider(n).Answered? && o.provider(n).err == err
  }

  /** What one of several attempts keeps, and what it says about the session when it is the last. */
  ghost predicate TryKept(a: Snapshot, s: Snapshot, o: Oracles, id: string, policy: RetryPolicy, attempt: nat, r: Try) {
    && Tried(a, s) && |s.calls| <= |a.calls| + attempt
    && match r
       case Again(prepared) =>
         && Retrying(a, s, o, attempt) && attempt < TriesPerTurn(policy)
         && ProviderReady(s.log) && prepared.For(id, s.log)
       case Ended(Value(None)) =>
         && Concluded(a, s, o, attempt, false) && !s.latched && GaveUp(s.log)
         && (EveryErrorRetryable(o, policy) ==> attempt == TriesPerTurn(policy))
       case Ended(Value(Some(bodies))) => Concluded(a, s, o, attempt, true)
       case Ended(Error(_)) => true
       case Ended(Unwound) => TerminalErrorIn(s.log) || s.latched
  }

  lemma {:induction false} TryEnds(a: Snapshot, s: Snapshot, o: Oracles, id: string, policy: RetryPolicy, attempt: nat,
                                   r: Flow<Result<seq<Body>, ProviderFailure>>, step: Try)
    requires Tried(a, s) && |s.calls| <= |a.calls| + attempt && step.Ended?
    requires match r
             case Value(Success(bodies)) =>
               step.flow == Value(Some(bodies)) && Concluded(a, s, o, attempt, true)
             case Value(Failure(_)) => false
             case Error(e) => step.flow == Error(e)
             case Unwound => step.flow == Unwound && (TerminalErrorIn(s.log) || s.latched)
    ensures TryKept(a, s, o, id, policy, attempt, step)
  {}

  /** Attempts that began at `a` and `m` on the log `first`; number `attempt` is next, prepared on the log `at`. */
  ghost predicate InRow(a: Snapshot, m: Moment, s: Snapshot, n: Moment, o: Oracles, id: string, policy: RetryPolicy,
                        first: seq<Event>, at: seq<Event>, attempt: nat, prepared: PreparedTranscript) {
    && 1 <= attempt <= TriesPerTurn(policy) && Retrying(a, s, o, attempt - 1) && LoopSoFar(o, m, n, first, at, attempt)
    && ProviderReady(at) && prepared.For(id, at) && at <= s.log
  }

  /** Where `attempts` attempts leave the session: before another one, prepared on the log `at`, or at their end. */
  ghost predicate RowWent(a: Snapshot, m: Moment, s: Snapshot, n: Moment, o: Oracles, id: string, policy: RetryPolicy,
                          first: seq<Event>, at: seq<Event>, attempts: nat, step: Try) {
    match step
    case Again(prepared) => InRow(a, m, s, n, o, id, policy, first, at, attempts + 1, prepared)
    case Ended(r) => RowEnded(a, m, s, n, o, id, policy, first, attempts, r)
  }

  ghost predicate RowEnded(a: Snapshot, m: Moment, s: Snapshot, n: Moment, o: Oracles, id: string, policy: RetryPolicy,
                           first: seq<Event>, attempts: nat, r: Flow<Option<seq<Body>>>) {
    && 1 <= attempts <= TriesPerTurn(policy) && TryKept(a, s, o, id, policy, attempts, Ended(r))
    && LoopWent(o, m, n, first, r, attempts)
  }

  function TriesLeft(policy: RetryPolicy, attempts: nat, step: Try): int {
    if step.Again? then TriesPerTurn(policy) - attempts else 0
  }

  lemma {:induction false} FewerTriesLeft(a: Snapshot, m: Moment, s: Snapshot, n: Moment, o: Oracles, id: string,
                                          policy: RetryPolicy, first: seq<Event>, at: seq<Event>, attempts: nat,
                                          before: Try, step: Try)
    requires attempts >= 1 && before.Again? && RowWent(a, m, s, n, o, id, policy, first, at, attempts, step)
    ensures 0 <= TriesLeft(policy, attempts, step) < TriesLeft(policy, attempts - 1, before)
  {}

  lemma {:induction false} RowStarts(a: Snapshot, m: Moment, o: Oracles, id: string, policy: RetryPolicy,
                                     prepared: PreparedTranscript, first: seq<Event>)
    requires ProviderReady(first) && prepared.For(id, first) && first <= a.log
    ensures RowWent(a, m, a, m, o, id, policy, first, first, 0, Again(prepared))
  {
    RetryingFromHere(a, o);
    LoopStarts(o, m, first);
  }

  lemma {:induction false} RowGoesOn(a: Snapshot, m: Moment, s: Snapshot, n: Moment, o: Oracles, id: string,
                                     policy: RetryPolicy, first: seq<Event>, attempt: nat, r: Try)
    requires 1 <= attempt <= TriesPerTurn(policy) && s.log == n.log
    requires TryKept(a, s, o, id, policy, attempt, r) && LoopStep(o, m, n, first, attempt, r)
    ensures RowWent(a, m, s, n, o, id, policy, first, s.log, attempt, r)
  {}

  lemma {:induction false} RetryingFromHere(a: Snapshot, o: Oracles)
    ensures Retrying(a, a, o, 0)
  {
    TriedNowhere(a);
    NothingSince(a.log);
  }

  /** Unless the log latched, exactly these provider errors were recorded. */
  ghost predicate ErrorsAre(a: Snapshot, b: Snapshot, o: Oracles, errors: seq<Body>) {
    HooksRecordNoProviderErrors(o) && !b.latched && a.log <= b.log ==> ErrorsSince(a.log, b.log) == errors
  }

  /** Some call of the provider was answered like this. */
  ghost predicate GivenBy(o: Oracles, bodies: seq<Body>) {
    exists n :: o.provider(n) == Answered(bodies)
  }

  ghost predicate EveryErrorRetryable(o: Oracles, policy: RetryPolicy) {
    forall err :: FailsWith(o, err) ==> policy.Retryable(err)
  }

  lemma {:induction false} TriedNowhere(a: Snapshot)
    ensures Tried(a, a)
  {
    MovedNowhere(a);
  }

  lemma {:induction false} TriedOnce(a: Snapshot, b: Snapshot, c: Snapshot, at: seq<Event>, outcome: bool)
    requires Tried(a, b) && Attempted(b, c, at, outcome)
    ensures Tried(a, c)
    ensures outcome ==> CalledOn(c)
  {
    MovedOn(a, b, c);
  }

  lemma {:induction false} TriedQuietly(a: Snapshot, b: Snapshot, c: Snapshot)
    requires Tried(a, b) && Quietly(b, c)
    ensures Tried(a, c)
    ensures CalledOn(b) ==> CalledOn(c)
  {
    assert Moved(a, c) by {
      MovedOn(a, b, c);
    }
    if !c.rogue {
      SameToolsOn(a.log, b.log, c.log);
    }
    if CalledOn(b) {
      CalledOnQuietly(b, c);
    }
  }

  lemma {:induction false} CalledOnQuietly(b: Snapshot, c: Snapshot)
    requires CalledOn(b) && b.log <= c.log && c.calls == b.calls && (b.rogue ==> c.rogue)
    requires !c.rogue ==> SameTools(b.log, c.log)
    ensures CalledOn(c)
  {
    if !c.rogue {
      SameToolsOn(b.calls[|b.calls| - 1], b.log, c.log);
    }
  }

  lemma {:induction false} FailureRecorded(a: Snapshot, b: Snapshot, c: Snapshot, o: Oracles, attempt: nat,
                                           terminal: bool)
    requires Concluded(a, b, o, attempt, true) && Quietly(b, c)
    requires !c.latched ==> c.log == Extend(b.log, [ProviderError(attempt, terminal)])
    ensures Tried(a, c) && |c.calls| == |a.calls| + attempt
    ensures terminal ==> Concluded(a, c, o, attempt, false)
    ensures !terminal ==> Retrying(a, c, o, attempt)
  {
    TriedQuietly(a, b, c);
    var before := attempt - 1;
    OneMoreError(a, b, c, o, before, terminal);
  }

  lemma {:induction false} ErrorsAddUp(a: seq<Event>, b: seq<Event>, c: seq<Event>)
    requires a <= b <= c
    ensures ErrorsSince(a, c) == ErrorsSince(a, b) + ErrorsSince(b, c)
  {
    assert Bodies(c[|a|..]) == Bodies(b[|a|..]) + Bodies(c[|b|..]);
    ProviderErrorsOfSum(Bodies(b[|a|..]), Bodies(c[|b|..]));
  }

  lemma {:induction false} NoErrorsMeanwhile(a: Snapshot, b: Snapshot, c: Snapshot, o: Oracles, errors: seq<Body>)
    requires Moved(a, b) && Moved(b, c) && ErrorsAre(a, b, o, errors)
    requires HooksRecordNoProviderErrors(o) && !c.latched ==> ErrorsSince(b.log, c.log) == []
    ensures ErrorsAre(a, c, o, errors)
  {
    ErrorsAddUp(a.log, b.log, c.log);
  }

  lemma {:induction false} OneMoreError(a: Snapshot, b: Snapshot, c: Snapshot, o: Oracles, k: nat, terminal: bool)
    requires Moved(a, b) && Moved(b, c) && ErrorsAre(a, b, o, Trail(k, false))
    requires !c.latched ==> c.log == Extend(b.log, [ProviderError(k + 1, terminal)])
    ensures ErrorsAre(a, c, o, Trail(k + 1, terminal))
  {
    if !c.latched {
      var e := ProviderError(k + 1, terminal);
      assert [e][..0] == [];
      assert ProviderErrors([e]) == [e];
      ErrorsAfterAppend(a.log, b.log, [e]);
    }
  }

  /** The last event is the terminal record of a failed call. */
  ghost predicate GaveUp(log: seq<Event>) {
    log != [] && log[|log| - 1].body.ProviderError? && log[|log| - 1].body.terminal
  }

  // ---------- What a turn keeps ----------

  /** Any number of provider calls within the policy, but no tool; and what the way it ended says about the session. */
  ghost predicate TurnKept(a: Snapshot, s: Snapshot, o: Oracles, policy: RetryPolicy, r: Flow<Turn>) {
    && Moved(a, s) && s.handled == a.handled && |s.calls| <= |a.calls| + TriesPerTurn(policy)
    && match r
       case Value(turn) =>
         && (IsAnswered(r) ==> !s.latched && EndsWithAnswer(o, s.log, turn) && |s.calls| > |a.calls|)
         && (turn.reason == RuntimeFailed ==> FailingAt(s)) && (turn.reason == ProviderFailed ==> GaveUp(s.log))
         && turn.reason in {Unstated, IncompleteToolBatch, RuntimeFailed, ProviderFailed}
       case Error(_) => true
       case Unwound => FailingAt(s)
  }

  lemma {:induction false} TurnKeptEarly(a: Snapshot, s: Snapshot, o: Oracles, policy: RetryPolicy, r: Flow<Turn>)
    requires Quietly(a, s) && exists latch :: EndsEarly(s.log, latch, r) && (latch.Some? ==> s.latched)
    ensures TurnKept(a, s, o, policy, r)
  {}

  ghost predicate FailingAt(s: Snapshot) { TerminalErrorIn(s.log) || s.latched }

  lemma {:induction false} TurnKeptOn(a: Snapshot, b: Snapshot, s: Snapshot, o: Oracles, policy: RetryPolicy,
                                      r: Flow<Turn>)
    requires Quietly(a, b) && TurnKept(b, s, o, policy, r)
    ensures TurnKept(a, s, o, policy, r)
  {
    MovedOn(a, b, s);
  }

  /** How the turn ends if the row of attempts gave no answer, or the log latched meanwhile. */
  function WithoutAnswer(loop: Flow<Option<seq<Body>>>, latch: Option<StorageError>): Flow<Turn> {
    match loop
    case Error(e) => Error(e)
    case Unwound => Unwound
    case Value(_) => if latch.Some? then Error(StorageWriteError(latch.value)) else Value(Turn("", ProviderFailed))
  }

  lemma {:induction false} CallEnded(a: Snapshot, m: Moment, s: Snapshot, n: Moment, o: Oracles, id: string,
                                     policy: RetryPolicy, first: seq<Event>, attempts: nat,
                                     loop: Flow<Option<seq<Body>>>)
    requires RowEnded(a, m, s, n, o, id, policy, first, attempts, loop) && (n.reliable ==> n.error == None)
    requires loop.Value? ==> n.error.Some? || loop.value == None
    ensures TurnKept(a, s, o, policy, WithoutAnswer(loop, n.error))
    ensures SentWent(o, m, n, first, WithoutAnswer(loop, n.error))
  {
    if !loop.Value? {
      SentBroke(o, m, n, first, loop, attempts, WithoutAnswer(loop, n.error));
    } else if n.error.Some? {
      SentLatched(o, m, n, first, loop, attempts);
    } else {
      SentGaveUp(o, m, n, first, attempts);
    }
  }

  lemma {:induction false} TurnClosed(a: Snapshot, b: Snapshot, s: Snapshot, o: Oracles, id: string,
                                      policy: RetryPolicy, attempts: nat, bodies: seq<Body>, r: Flow<Turn>)
    requires TryKept(a, b, o, id, policy, attempts, Ended(Value(Some(bodies)))) && 1 <= attempts <= TriesPerTurn(policy)
    requires Moved(b, s) && s.calls == b.calls && s.handled == b.handled && !r.Unwound?
    requires r.Value? ==> IsAnswered(r) && !s.latched && EndsWithAnswer(o, s.log, r.value)
    ensures TurnKept(a, s, o, policy, r)
  {
    MovedOn(a, b, s);
  }

  // ---------- Answers in the log ----------

  ghost predicate EndsWith(o: Oracles, log: seq<Event>, before: seq<Event>, bodies: seq<Body>, turn: Turn,
                           staged: seq<Body>) {
    && GivenBy(o, bodies) && log == Extend(before, staged)
    && WellFormedAnswer(bodies, turn.stopReason) && Closes(bodies, turn.stopReason, staged)
    && turn.reason == if turn.stopReason == "tool_use" || ToolUses(bodies) == [] then Unstated else IncompleteToolBatch
  }

  /** The last batch of the log is an answer of the provider, closed, that ended as `turn` says. */
  ghost predicate EndsWithAnswer(o: Oracles, log: seq<Event>, turn: Turn) {
    exists before, bodies, staged :: EndsWith(o, log, before, bodies, turn, staged)
  }

  /** If the provider was called on a ready log and only quiet appends followed, nothing is pending. */
  lemma {:induction false} CalledWithNothingPending(called: seq<Event>, log: seq<Event>)
    requires Disciplined(log) && called <= log && SameTools(called, log) && ProviderReady(called)
    ensures NoPending(log)
  {
    assert forall i :: 0 <= i < |called| ==> called[i] == log[i];
    PairedIffVisiblePaired(called);
    forall u, id | UseAt(log, u, id)
      ensures HasResult(log, id)
    {
      assert HasUse(called, id);
      var v :| UseAt(called, v, id);
      if j :| Shadows(called, j, v) {
        assert SafeCompact(log, log[j].body.covers);
        assert UseAt(log, v, id);
      } else {
        assert !Shadowed(called, v);
        var r :| ResultAt(called, r, id) && !Shadowed(called, r);
        assert HasResult(called, id);
      }
    }
  }

  lemma {:induction false} AnswerMoves(a: Snapshot, b: Snapshot, bodies: seq<Body>, stop: string, staged: seq<Body>)
    requires WellFormedAnswer(bodies, stop) && Closes(bodies, stop, staged)
    requires CalledOn(a) && ProviderReady(a.calls[|a.calls| - 1])
    requires b.log == if b.latched then a.log else Extend(a.log, staged)
    requires a.latched ==> b.latched
    requires b.calls == a.calls && b.handled == a.handled
    requires b.rogue == (a.rogue || !FreshIDs(a.log, bodies))
             && b.reckless == (a.reckless || !RespectsPairs(a.log, bodies))
    ensures Moved(a, b)
  {
    if Disciplined(a.log) && !a.rogue {
      CalledWithNothingPending(a.calls[|a.calls| - 1], a.log);
    }
    MovedByStep(a, b, ProviderStep(bodies, stop, staged));
  }

  /** The log ends with a closed answer whose model did not stop for its tools. */
  ghost predicate EndedBy(o: Oracles, log: seq<Event>, reason: Reason) {
    exists turn :: EndsWithAnswer(o, log, turn) && turn.stopReason != "tool_use" && turn.reason == reason
  }

  lemma {:induction false} Within(i: nat, turns: nat, tries: nat)
    requires i < turns
    ensures i * tries + tries == (i + 1) * tries <= turns * tries
    decreases turns
  {
    if i + 1 < turns {
      Within(i, turns - 1, tries);
      assert turns * tries == (turns - 1) * tries + tries;
    }
  }

  // ---------- What a run keeps ----------

  /** What the reason of a run says about the session it leaves. */
  ghost predicate Explains(s: Snapshot, o: Oracles, runner: Option<Runner>, turns: nat, r: Flow<Reason>,
                           soundBefore: bool) {
    r.Value? ==>
      match r.value
      case Awaiting => s.rogue || AwaitingApproval(s.log)
      case EndTurn => EndedBy(o, s.log, Unstated)
      case IncompleteToolBatch => EndedBy(o, s.log, IncompleteToolBatch)
      case RuntimeFailed => FailingAt(s)
      case ProviderFailed => GaveUp(s.log)
      case Unstated => HiddenPending(s.log) && (runner == None || s.rogue)
      case NoPendingTools => NoPending(s.log) && (s.rogue || !soundBefore)
      case MaxTurnsReached => turns == 0 || (NoPending(s.log) && !TerminalErrorIn(s.log))
  }

  /** A run: it moved the session, called the provider no more often than turns and attempts allow, and its reason
      describes the session it leaves. */
  ghost predicate RunKept(a: Snapshot, s: Snapshot, o: Oracles, runner: Option<Runner>, policy: RetryPolicy, turns: nat,
                          r: Flow<Reason>) {
    && Moved(a, s) && !r.Unwound? && |s.calls| <= |a.calls| + turns * TriesPerTurn(policy)
    && Explains(s, o, runner, turns, r, Sound(a.log))
    && (r == Value(MaxTurnsReached) ==> |s.calls| >= |a.calls| + turns)
  }

  /** One turn and what follows it. */
  ghost predicate TookTurn(a: Snapshot, s: Snapshot, o: Oracles, runner: Option<Runner>, policy: RetryPolicy,
                           ended: Option<Flow<Reason>>) {
    && Moved(a, s) && |s.calls| <= |a.calls| + TriesPerTurn(policy)
    && match ended
       case None => |s.calls| > |a.calls| && NoPending(s.log) && !TerminalErrorIn(s.log)
       case Some(r) =>
         !r.Unwound? && r != Value(MaxTurnsReached) && Explains(s, o, runner, 1, r, Sound(a.log))
  }

  lemma {:induction false} TurnEndsRun(a: Snapshot, s: Snapshot, o: Oracles, runner: Option<Runner>,
                                       policy: RetryPolicy, flow: Flow<Turn>)
    requires TurnKept(a, s, o, policy, flow) && LastOf(flow).Some?
    ensures TookTurn(a, s, o, runner, policy, LastOf(flow))
  {
    if IsAnswered(flow) {
      assert flow.value.stopReason != "tool_use" by {
        var before, bodies, staged :| EndsWith(o, s.log, before, bodies, flow.value, staged);
      }
    }
  }

  /** The end of the run, if the tools of a turn end it. */
  function AfterTools(next: Flow<Option<Reason>>): Option<Flow<Reason>> {
    match next
    case Error(e) => Some(Error(e))
    case Unwound => Some(Value(RuntimeFailed))
    case Value(reason) => if reason.Some? then Some(Value(reason.value)) else None
  }

  /** How the tools of a turn were dispatched. */
  ghost predicate ToolsWent(a: Snapshot, s: Snapshot, runner: Option<Runner>, next: Flow<Option<Reason>>) {
    && Moved(a, s) && s.calls == a.calls
    && match next
       case Value(Some(Awaiting)) => s.rogue || AwaitingApproval(s.log)
       case Value(Some(Unstated)) => HiddenPending(s.log) && (runner == None || s.rogue)
       case Value(Some(NoPendingTools)) => NoPending(a.log) && NoPending(s.log)
       case Value(Some(RuntimeFailed)) => FailingAt(s)
       case Value(Some(_)) => false
       case Value(None) => NoPending(s.log) && !TerminalErrorIn(s.log)
       case Error(_) => true
       case Unwound => FailingAt(s)
  }

  lemma {:induction false} ToolsEndTurn(a: Snapshot, b: Snapshot, s: Snapshot, o: Oracles, runner: Option<Runner>,
                                        policy: RetryPolicy, flow: Flow<Turn>, tick: nat, next: Flow<Option<Reason>>)
    requires TurnKept(a, b, o, policy, flow) && LastOf(flow) == None && ToolsWent(b, s, runner, next)
    ensures TookTurn(a, s, o, runner, policy, AfterTools(next))
  {
    MovedOn(a, b, s);
    TurnStaysSound(a, b);
    StopLeavesPending(o, b.log, flow.value);
  }

  /** After `n` turns that did not end the run. */
  ghost predicate TurnsKept(a: Snapshot, s: Snapshot, policy: RetryPolicy, n: nat) {
    && Moved(a, s) && |a.calls| + n <= |s.calls| <= |a.calls| + n * TriesPerTurn(policy)
    && (n > 0 ==> NoPending(s.log) && !TerminalErrorIn(s.log))
  }

  lemma {:induction false} TurnsKeptAtFirst(a: Snapshot, policy: RetryPolicy)
    ensures TurnsKept(a, a, policy, 0)
  {
    MovedNowhere(a);
  }

  lemma {:induction false} TurnsKeptOn(a: Snapshot, s: Snapshot, t: Snapshot, o: Oracles, runner: Option<Runner>,
                                       policy: RetryPolicy, n: nat, turns: nat, ended: Option<Flow<Reason>>)
    requires TurnsKept(a, s, policy, n) && TookTurn(s, t, o, runner, policy, ended) && n < turns
    ensures ended == None ==> TurnsKept(a, t, policy, n + 1)
    ensures ended.Some? ==> RunKept(a, t, o, runner, policy, turns, ended.value)
  {
    MovedOn(a, s, t);
    TurnStaysSound(a, s);
    if !t.rogue {
      assert !s.rogue;
    }
    Within(n, turns, TriesPerTurn(policy));
  }

  lemma {:induction false} AllTurnsKept(a: Snapshot, s: Snapshot, o: Oracles, runner: Option<Runner>,
                                        policy: RetryPolicy, turns: nat)
    requires TurnsKept(a, s, policy, turns)
    ensures RunKept(a, s, o, runner, policy, turns, Value(MaxTurnsReached))
  {}

  lemma {:induction false} RunKeptAtOnce(a: Snapshot, o: Oracles, runner: Option<Runner>, policy: RetryPolicy,
                                         turns: nat, r: Flow<Reason>)
    requires r.Error? || (r == Value(RuntimeFailed) && TerminalErrorIn(a.log))
    ensures RunKept(a, a, o, runner, policy, turns, r)
  {
    MovedNowhere(a);
  }

  /** How a run ends at its entry. */
  function EntryEnds(entry: Flow<Option<Reason>>): Flow<Reason>
    requires entry != Value(None)
  {
    match entry
    case Error(e) => Error(e)
    case Unwound => Value(RuntimeFailed)
    case Value(reason) => Value(reason.value)
  }

  lemma {:induction false} RunKeptEarly(a: Snapshot, s: Snapshot, o: Oracles, runner: Option<Runner>,
                                        policy: RetryPolicy, turns: nat, entry: Flow<Option<Reason>>)
    requires Moved(a, s) && s.calls == a.calls && entry != Value(None)
    requires entry.Value? ==> entry.value.value in {Awaiting, RuntimeFailed}
    requires entry == Value(Some(Awaiting)) ==> s.rogue || AwaitingApproval(s.log)
    requires entry.Unwound? || entry == Value(Some(RuntimeFailed)) ==> FailingAt(s)
    ensures RunKept(a, s, o, runner, policy, turns, EntryEnds(entry))
  {
    assert 0 <= turns * TriesPerTurn(policy);
    if entry.Value? {
      assert entry.value == Some(entry.value.value) && entry == Value(entry.value);
    }
  }

  lemma {:induction false} RunKeptOn(a: Snapshot, b: Snapshot, s: Snapshot, o: Oracles, runner: Option<Runner>,
                                     policy: RetryPolicy, turns: nat, r: Flow<Reason>)
    requires Moved(a, b) && b.calls == a.calls && RunKept(b, s, o, runner, policy, turns, r)
    ensures RunKept(a, s, o, runner, policy, turns, r)
  {
    MovedOn(a, b, s);
    TurnStaysSound(a, b);
  }

  // ---------- Whether a run may start ----------

  ghost predicate Ready(log: Log)
    reads log
  {
    log.storageErr == None && ReferencesSound(log.events)
  }

  /** A run of such a log does nothing at all. */
  ghost predicate Blocked(log: Log)
    reads log
  {
    !Ready(log) || TerminalErrorIn(log.events) || AwaitingApproval(log.events)
  }

  /** Uses are pending in the raw log, yet a provider may be called: a compaction hides them from the transcript. */
  ghost predicate HiddenPending(log: seq<Event>) {
    ProviderReady(log) && !NoPending(log)
  }

  /** Every pending use of such a log is covered by a live compact. */
  lemma {:induction false} HiddenIsCovered(log: seq<Event>)
    requires Dense(log)
    ensures HiddenPending(log) <==>
              && ProviderReady(log) && (exists u, id :: UseAt(log, u, id) && !HasResult(log, id))
              && forall u, id :: UseAt(log, u, id) && !HasResult(log, id) ==> Shadowed(log, u)
  {
    if ProviderReady(log) {
      PairedIffVisiblePaired(log);
      forall u, id | UseAt(log, u, id) && !HasResult(log, id)
        ensures Shadowed(log, u)
      {
        assert VisibleResult(log, id) ==> HasResult(log, id);
      }
    }
  }

  /** Such a log: a compact over a use that waits for its result. */
  function HidingLog(): seq<Event> {
    Extend([], [AssistantMessage("", "tool_use", Usage(0, 0, 0)), ToolUse("a", "run", map[]), Compact([1], "cut")])
  }

  lemma {:induction false} HidingLogHides()
    ensures HiddenPending(HidingLog()) && ToBeResumed(HidingLog())
  {
    var log := HidingLog();
    assert log[0].body.AssistantMessage? && log[1].body.ToolUse? && log[2].body.Compact?;
    assert UseAt(log, 1, "a") && StopsForTools(log, 0);
    assert forall i, id :: UseAt(log, i, id) <==> i == 1 && id == "a";
    assert forall i, id :: !ResultAt(log, i, id);
    assert Shadows(log, 2, 1);
    PairedIffVisiblePaired(log);
  }

  /** An answer a provider may give on that log, using the hidden id again. */
  function ReusingAnswer(): seq<Body> {
    [AssistantMessage("", "tool_use", Usage(0, 0, 0)), ToolUse("a", "run", map[])]
  }

  /** Then the id is pending twice, and both uses are dispatched. */
  lemma {:induction false} ReusedWhilePending()
    ensures WellFormedAnswer(ReusingAnswer(), "tool_use") && Closes(ReusingAnswer(), "tool_use", ReusingAnswer())
    ensures var log := Extend(HidingLog(), ReusingAnswer());
            && !UsesInTurn(log)
            && log[1] in Pending(log, |log|) && log[4] in Pending(log, |log|) && log[1] != log[4]
            && log[1].body.ToolUse? && log[4].body.ToolUse? && log[1].body.id == log[4].body.id
  {
    var answer, log := ReusingAnswer(), Extend(HidingLog(), ReusingAnswer());
    assert answer[1] in answer && answer[1] in ToolUses(answer);
    assert MessageFirst(answer, "tool_use", 0);
    assert |log| == 5 && forall k :: 0 <= k < |log| ==> !log[k].body.ToolResult?;
    assert forall id :: !HasResult(log, id);
    assert UseAt(log, 1, "a") && UseAt(log, 4, "a");
  }

  /** Under the strict discipline nothing pending is ever hidden. */
  lemma {:induction false} NothingHidden(before: seq<Event>, log: seq<Event>)
    requires Disciplined(before) && Leads(before, log, true)
    ensures !HiddenPending(log)
  {
    ReachableLogsAreDisciplined(before, log);
    ReadyIffNothingPending(log);
  }

  /** Uses are pending, none of them awaits or had an approval, and the last answer stopped for its tools. */
  ghost predicate ToBeResumed(log: seq<Event>) {
    && !NoPending(log) && !AwaitingApproval(log) && !ResolvedWithoutResult(log)
    && exists a :: StopsForTools(log, a)
  }

  /** Uses are pending that no answer left for its tools. */
  ghost predicate LeftBehind(log: seq<Event>) {
    && !NoPending(log) && !AwaitingApproval(log) && !ResolvedWithoutResult(log)
    && !exists a :: StopsForTools(log, a)
  }

  lemma {:induction false} TurnStaysSound(a: Snapshot, b: Snapshot)
    requires Moved(a, b)
    ensures !b.rogue && Sound(a.log) ==> Sound(b.log)
  {
    if !b.rogue && Sound(a.log) {
      ReachableLogsAreSound(a.log, b.log, false);
    }
  }

  /** After an answer that stopped for its tools, some use is pending. */
  lemma {:induction false} StopLeavesPending(o: Oracles, log: seq<Event>, turn: Turn)
    requires EndsWithAnswer(o, log, turn) && turn.stopReason == "tool_use"
    ensures Sound(log) ==> !NoPending(log)
  {
    if Sound(log) {
      var before, bodies, staged :| EndsWith(o, log, before, bodies, turn, staged);
      var use := ToolUses(bodies)[0];
      assert use in ToolUses(bodies);
      var k :| 0 <= k < |bodies| && bodies[k] == use;
      assert UseAt(log, |before| + k, use.id);
      ProviderStepAdds(before, bodies, turn.stopReason, staged);
      forall r
        ensures !ResultAt(log, r, use.id)
      {
        assert ResultAt(log, r, use.id) ==> UsedBefore(log, r, use.id);
      }
    }
  }

  lemma {:induction false} NothingPendingNothingAwaited(log: seq<Event>)
    requires NoPending(log)
    ensures !AwaitingApproval(log) && !ResolvedWithoutResult(log)
  {
    forall id | HasUse(log, id)
      ensures HasResult(log, id)
    {
      var u :| UseAt(log, u, id);
    }
  }

  lemma {:induction false} PendingIDs(log: seq<Event>, ids: set<string>)
    requires forall id :: id in ids <==> exists e :: e in Pending(log, |log|) && e.body.id == id
    ensures forall id :: id in ids <==> IsPending(log, id)
  {
    forall id
      ensures id in ids <==> IsPending(log, id)
    {
      if id in ids {
        var e :| e in Pending(log, |log|) && e.body.id == id;
        var i :| 0 <= i < |log| && log[i] == e && e.body.ToolUse? && !HasResult(log, e.body.id);
        assert UseAt(log, i, id);
      }
      if IsPending(log, id) {
        var u :| UseAt(log, u, id);
        assert log[u] in Pending(log, |log|);
      }
    }
  }

  /** An approval requested at `k` and not resolved before position `n`. */
  ghost predicate OpenUpTo(log: seq<Event>, n: int, k: int, id: string) {
    k < n && RequestAt(log, k, id) && forall l :: k < l < n ==> !ResolutionAt(log, l, id)
  }

  ghost predicate ResolvedUpTo(log: seq<Event>, n: int, id: string) {
    exists k :: k < n && ResolutionAt(log, k, id)
  }

  /** One event's effect on the ids with an open request and the ids with a resolution. */
  function Scanned(b: Body, ids: set<string>, awaiting: set<string>, resolved: set<string>): (set<string>,
                   set<string>) {
    match b
    case ApprovalRequested(id) => (if id in ids then awaiting + {id} else awaiting, resolved)
    case ApprovalResolved(id, _) => if id in ids then (awaiting - {id}, resolved + {id}) else (awaiting, resolved)
    case ToolResult(id, _, _) => if id in ids then (awaiting - {id}, resolved - {id}) else (awaiting, resolved)
    case _ => (awaiting, resolved)
  }

  ghost predicate ScannedUpTo(log: seq<Event>, n: int, ids: set<string>, awaiting: set<string>, resolved: set<string>) {
    && (forall id :: id in awaiting <==> id in ids && exists k :: OpenUpTo(log, n, k, id))
    && (forall id :: id in resolved <==> id in ids && ResolvedUpTo(log, n, id))
  }

  /** Which pending ids have an open request, and which a resolution. */
  method ScanApprovals(log: seq<Event>, pending: seq<Event>) returns (awaiting: set<string>, resolved: set<string>)
    requires pending == Pending(log, |log|)
    ensures awaiting != {} <==> AwaitingApproval(log)
    ensures resolved != {} <==> ResolvedWithoutResult(log)
  {
    var pendingIDs := set e | e in pending :: e.body.id;
    PendingIDs(log, pendingIDs);
    awaiting, resolved := ScanFor(log, pendingIDs);
    ScannedAll(log, pendingIDs, awaiting, resolved);
  }

  method ScanFor(log: seq<Event>, ids: set<string>) returns (awaiting: set<string>, resolved: set<string>)
    requires forall id :: id in ids ==> !HasResult(log, id)
    ensures ScannedUpTo(log, |log|, ids, awaiting, resolved)
  {
    awaiting, resolved := {}, {};
    for i := 0 to |log|
      invariant ScannedUpTo(log, i, ids, awaiting, resolved)
    {
      ScanStep(log, i, ids, awaiting, resolved);
      var next := Scanned(log[i].body, ids, awaiting, resolved);
      awaiting, resolved := next.0, next.1;
    }
  }

  lemma {:induction false} ScannedAll(log: seq<Event>, ids: set<string>, awaiting: set<string>, resolved: set<string>)
    requires ScannedUpTo(log, |log|, ids, awaiting, resolved)
    requires forall id :: id in ids <==> IsPending(log, id)
    ensures awaiting != {} <==> AwaitingApproval(log)
    ensures resolved != {} <==> ResolvedWithoutResult(log)
  {
    assert forall k, id :: OpenUpTo(log, |log|, k, id) <==> OpenRequest(log, k, id);
    if AwaitingApproval(log) {
      var k, id :| OpenRequest(log, k, id) && IsPending(log, id);
      assert id in awaiting;
    }
    if awaiting != {} {
      var id :| id in awaiting;
      var k :| OpenUpTo(log, |log|, k, id);
      assert OpenRequest(log, k, id);
    }
    if ResolvedWithoutResult(log) {
      var k, id :| ResolutionAt(log, k, id) && IsPending(log, id);
      assert id in resolved;
    }
    if resolved != {} {
      var id :| id in resolved;
      var k :| k < |log| && ResolutionAt(log, k, id);
    }
  }

  lemma {:induction false} ScanStep(log: seq<Event>, i: int, ids: set<string>, awaiting: set<string>,
                                    resolved: set<string>)
    requires 0 <= i < |log| && ScannedUpTo(log, i, ids, awaiting, resolved)
    requires forall id :: id in ids ==> !HasResult(log, id)
    ensures var next := Scanned(log[i].body, ids, awaiting, resolved); ScannedUpTo(log, i + 1, ids, next.0, next.1)
  {
    var next := Scanned(log[i].body, ids, awaiting, resolved);
    var n := i + 1;
    assert log[i].body.ToolResult? ==> ResultAt(log, i, log[i].body.id);
    forall id
      ensures id in next.0 <==> id in ids && exists k :: OpenUpTo(log, n, k, id)
    {
      OpenStep(log, i, id);
    }
    forall id
      ensures id in next.1 <==> id in ids && ResolvedUpTo(log, n, id)
    {
      if ResolvedUpTo(log, i, id) {
        var k :| k < i && ResolutionAt(log, k, id);
        assert k < n && ResolutionAt(log, k, id);
      }
      if ResolutionAt(log, i, id) {
        assert i < n;
      }
    }
  }

  lemma {:induction false} OpenStep(log: seq<Event>, i: int, id: string)
    requires 0 <= i < |log|
    ensures var n := i + 1;
            (exists k :: OpenUpTo(log, n, k, id)) <==>
              (RequestAt(log, i, id) || (!ResolutionAt(log, i, id) && exists k :: OpenUpTo(log, i, k, id)))
  {
    var n := i + 1;
    if RequestAt(log, i, id) {
      assert OpenUpTo(log, n, i, id);
    } else if !ResolutionAt(log, i, id) {
      if k :| OpenUpTo(log, i, k, id) {
        assert OpenUpTo(log, n, k, id);
      }
    }
    if k :| OpenUpTo(log, n, k, id) {
      assert k < i ==> OpenUpTo(log, i, k, id);
    }
  }
}
