/** How attempts, turns and runs end, and why: what the loops of agent_loop.go promise about their outcomes. */
module Outcomes {
  import opened Events
  import opened Mutations
  import opened Integrity
  import opened Storage
  import opened Compaction
  import opened Protocol
  import opened Retry
  import opened Environment
  import opened Dispatch
  import opened Answers

  datatype LoopError =
    | StorageWriteError(cause: StorageError)
    | TranscriptIntegrityError(violations: seq<Violation>)
    | ProviderResponseIntegrityError(fault: AnswerFault)
    | ProjectionFailed

  /** How a part of the loop ends: with a value, with an error, or unwound by a `fail_turn` hook. */
  datatype Flow<+T> = Value(value: T) | Error(error: LoopError) | Unwound

  /** How one of several attempts ends: another one follows, or the attempts end here. */
  datatype Try = Again(prepared: PreparedTranscript) | Ended(flow: Flow<Option<seq<Body>>>)

  /** Records of `k` failed attempts, numbered from 1; only the last one may be terminal. */
  function Trail(k: nat, terminal: bool): seq<Body> {
    if k == 0 then [] else Trail(k - 1, false) + [ProviderError(k, terminal)]
  }

  // ---------- What the outside did between two moments ----------

  ghost predicate Appends(o: Oracles, n: nat) { o.hook(n).appends != [] }

  ghost predicate Unwinds(o: Oracles, n: nat) { o.hook(n).failTurn }

  ghost predicate Unrendered(o: Oracles, n: nat) { o.projection(n) != Projected }

  ghost predicate Unanswered(o: Oracles, n: nat) { !o.provider(n).Answered? }

  ghost predicate BadAnswer(o: Oracles, n: nat) { o.provider(n).Answered? && IllFormed(o.provider(n).bodies) }

  ghost predicate HooksAppended(o: Oracles, from: nat, to: nat) {
    exists n: nat :: from <= n < to && Appends(o, n)
  }

  ghost predicate HooksUnwound(o: Oracles, from: nat, to: nat) {
    exists n: nat :: from <= n < to && Unwinds(o, n)
  }

  ghost predicate NotRendered(o: Oracles, from: nat, to: nat) {
    exists n: nat :: from <= n < to && Unrendered(o, n)
  }

  ghost predicate NotAnswered(o: Oracles, from: nat, to: nat) {
    exists n: nat :: from <= n < to && Unanswered(o, n)
  }

  ghost predicate AnsweredBadly(o: Oracles, from: nat, to: nat) {
    exists n: nat :: from <= n < to && BadAnswer(o, n)
  }

  ghost predicate IllFormed(bodies: seq<Body>) {
    forall stop :: !WellFormedAnswer(bodies, stop)
  }

  /** The hooks kept silent and every request could be rendered. */
  ghost predicate Calm(o: Oracles, from: nat, to: nat) {
    !HooksAppended(o, from, to) && !HooksUnwound(o, from, to) && !NotRendered(o, from, to)
  }

  /** Storage that works goes on working, and nothing clears the latch. */
  ghost predicate StillWorks(a: Moment, b: Moment) {
    (a.reliable ==> b.reliable) && (b.error == None ==> a.error == None)
  }

  lemma {:induction false} Meanwhile(o: Oracles, from: nat, to: nat, from': nat, to': nat)
    requires from <= from' && to' <= to
    ensures HooksAppended(o, from', to') ==> HooksAppended(o, from, to)
    ensures HooksUnwound(o, from', to') ==> HooksUnwound(o, from, to)
    ensures NotRendered(o, from', to') ==> NotRendered(o, from, to)
    ensures NotAnswered(o, from', to') ==> NotAnswered(o, from, to)
    ensures AnsweredBadly(o, from', to') ==> AnsweredBadly(o, from, to)
    ensures Calm(o, from, to) ==> Calm(o, from', to')
  {}

  /** What hooks did at one point they did between the moments around it. */
  lemma {:induction false} HooksSeen(o: Oracles, a: Moment, b: Moment, unwound: bool)
    requires HooksCalled(o, a, b, unwound)
    ensures unwound ==> HooksUnwound(o, a.clock, b.clock)
    ensures !unwound && a.log != b.log ==> HooksAppended(o, a.clock, b.clock)
  {
    assert unwound ==> Unwinds(o, a.clock);
    assert !unwound && a.log != b.log ==> Appends(o, a.clock);
  }

  // ---------- Why a run fails ----------

  ghost predicate IsStale(e: LoopError) {
    exists next :: e == TranscriptIntegrityError([Violation(PreparedTranscriptStale, next, "")])
  }

  /** Every error has its cause: the log latched with this very error; hooks appended after the transcript was
      prepared; an approval was resolved without a result; the log is not ready for a provider; the provider answered
      badly; or the projection failed. */
  ghost predicate CausedBy(e: LoopError, o: Oracles, from: nat, to: nat, log: seq<Event>, latch: Option<StorageError>) {
    match e
    case StorageWriteError(cause) => latch == Some(cause)
    case TranscriptIntegrityError(violations) =>
      || (IsStale(e) && HooksAppended(o, from, to))
      || (violations == [Violation(ResolvedApprovalOpen, -1, "")] && ResolvedWithoutResult(log))
      || !ProviderReady(log)
    case ProviderResponseIntegrityError(_) => AnsweredBadly(o, from, to)
    case ProjectionFailed => NotRendered(o, from, to)
  }

  lemma {:induction false} CausedEarlier(e: LoopError, o: Oracles, from: nat, to: nat, log: seq<Event>,
                                         latch: Option<StorageError>, earlier: nat)
    requires CausedBy(e, o, from, to, log, latch) && earlier <= from
    ensures CausedBy(e, o, earlier, to, log, latch)
  {
    Meanwhile(o, earlier, to, from, to);
  }

  // ---------- Requests that were rendered ----------

  /** At least `n` requests were rendered between the two moments, at different times. */
  ghost predicate RenderedTimes(o: Oracles, from: nat, to: nat, n: int) {
    exists at :: RenderedAt(o, from, to, n, at)
  }

  ghost predicate RenderedAt(o: Oracles, from: nat, to: nat, n: int, at: seq<nat>) {
    && |at| >= n && (forall j, k :: 0 <= j < k < |at| ==> at[j] < at[k])
    && forall k :: 0 <= k < |at| ==> from <= at[k] < to && o.projection(at[k]) == Projected
  }

  lemma {:induction false} NoneRendered(o: Oracles, from: nat, to: nat, n: int)
    requires n <= 0
    ensures RenderedTimes(o, from, to, n)
  {
    assert RenderedAt(o, from, to, n, []);
  }

  lemma {:induction false} RenderedOnce(o: Oracles, from: nat, to: nat, tick: nat)
    requires from <= tick < to && o.projection(tick) == Projected
    ensures RenderedTimes(o, from, to, 1)
  {
    assert RenderedAt(o, from, to, 1, [tick]);
  }

  lemma {:induction false} RenderedInAll(o: Oracles, from: nat, mid: nat, to: nat, m: int, n: int)
    requires RenderedTimes(o, from, mid, m) && RenderedTimes(o, mid, to, n) && from <= mid <= to
    ensures RenderedTimes(o, from, to, m + n)
  {
    var a :| RenderedAt(o, from, mid, m, a);
    var b :| RenderedAt(o, mid, to, n, b);
    assert RenderedAt(o, from, to, m + n, a + b);
  }

  lemma {:induction false} RenderedFewer(o: Oracles, from: nat, to: nat, n: int, fewer: int)
    requires RenderedTimes(o, from, to, n) && fewer <= n
    ensures RenderedTimes(o, from, to, fewer)
  {
    var at :| RenderedAt(o, from, to, n, at);
    assert RenderedAt(o, from, to, fewer, at);
  }

  // ---------- One attempt ----------

  /** What the hooks append after the provider was called at `tick`, if they are called. */
  function AfterCall(o: Oracles, tick: nat): seq<Body> {
    if o.provider(tick).Failed? then [] else o.hook(tick + 1).appends
  }

  function TicksOfCall(o: Oracles, tick: nat): nat {
    if o.provider(tick).Failed? then 1 else 2
  }

  /** What an attempt makes of the provider's answer. */
  ghost predicate Told(answer: ProviderAnswer, r: Result<seq<Body>, ProviderFailure>) {
    if answer.Answered? then r == Success(answer.bodies) else r == Failure(answer.err)
  }

  /** One attempt on the log `at` that was prepared: hooks, then the provider, then hooks again unless the call failed.
      It ends in an error exactly if the log is no longer the one prepared. */
  ghost predicate AttemptWent(o: Oracles, a: Moment, b: Moment, at: seq<Event>,
                              r: Flow<Result<seq<Body>, ProviderFailure>>) {
    && a.clock < b.clock && a.calls <= b.calls <= a.calls + 1 && StillWorks(a, b)
    && (r.Value? ==>
          && a.log == at && b.calls == a.calls + 1 && Told(o.provider(a.clock + 1), r.value)
          && b.clock == a.clock + 1 + TicksOfCall(o, a.clock + 1)
          && (b.error == None ==> o.hook(a.clock).appends == [] && b.log == Extend(at, AfterCall(o, a.clock + 1))))
    && (r.Error? ==> IsStale(r.error) && b.calls == a.calls && (a.log == at ==> HooksAppended(o, a.clock, b.clock)))
    && (r.Unwound? ==> HooksUnwound(o, a.clock, b.clock))
  }

  lemma {:induction false} AttemptStopped(o: Oracles, a: Moment, b: Moment, at: seq<Event>)
    requires HooksCalled(o, a, b, true)
    ensures AttemptWent(o, a, b, at, Unwound)
  {
    HooksSeen(o, a, b, true);
  }

  lemma {:induction false} AttemptStale(o: Oracles, a: Moment, b: Moment, at: seq<Event>, e: LoopError)
    requires HooksCalled(o, a, b, false) && b.log != at && IsStale(e)
    ensures AttemptWent(o, a, b, at, Error(e))
  {
    HooksSeen(o, a, b, false);
  }

  /** The provider was called, and then the hooks, unless the call failed. */
  ghost predicate CallWent(o: Oracles, a: Moment, b: Moment, r: Flow<Result<seq<Body>, ProviderFailure>>) {
    && b.calls == a.calls + 1 && b.clock == a.clock + TicksOfCall(o, a.clock) && StillWorks(a, b) && !r.Error?
    && (r.Value? ==>
          Told(o.provider(a.clock), r.value) && (b.error == None ==> b.log == Extend(a.log, AfterCall(o, a.clock))))
    && (r.Unwound? ==> HooksUnwound(o, a.clock, b.clock))
  }

  lemma {:induction false} CallFailed(o: Oracles, a: Moment, b: Moment)
    requires o.provider(a.clock).Failed? && b.log == a.log && b.error == a.error && (a.reliable ==> b.reliable)
    requires b.clock == a.clock + 1 && b.calls == a.calls + 1
    ensures CallWent(o, a, b, Value(Failure(o.provider(a.clock).err)))
  {
    assert Extend(a.log, []) == a.log;
  }

  lemma {:induction false} CallAnswered(o: Oracles, a: Moment, b: Moment, c: Moment,
                                        r: Flow<Result<seq<Body>, ProviderFailure>>)
    requires !o.provider(a.clock).Failed? && b.log == a.log && b.error == a.error && (a.reliable ==> b.reliable)
    requires b.clock == a.clock + 1 && b.calls == a.calls + 1 && HooksCalled(o, b, c, r.Unwound?)
    requires !r.Error? && (r.Value? ==> Told(o.provider(a.clock), r.value))
    ensures CallWent(o, a, c, r)
  {
    HooksSeen(o, b, c, r.Unwound?);
    Meanwhile(o, a.clock, c.clock, b.clock, c.clock);
    assert AfterCall(o, a.clock) + [] == AfterCall(o, a.clock);
  }

  lemma {:induction false} NothingAppended(o: Oracles, a: Moment, b: Moment)
    requires HooksCalled(o, a, b, false) && a.log == b.log && b.error == None
    ensures o.hook(a.clock).appends == []
  {
    assert |b.log| == |a.log| + |o.hook(a.clock).appends + []|;
  }

  lemma {:induction false} AttemptWentOn(o: Oracles, a: Moment, b: Moment, c: Moment, at: seq<Event>,
                                         r: Flow<Result<seq<Body>, ProviderFailure>>)
    requires HooksCalled(o, a, b, false) && at <= a.log
    requires if r.Error? then c == b && IsStale(r.error) && b.log != at else b.log == at && CallWent(o, b, c, r)
    ensures AttemptWent(o, a, c, at, r)
  {
    if r.Error? {
      AttemptStale(o, a, b, at, r.error);
    } else {
      assert a.log == at;
      AttemptCalled(o, a, b, c, at, r);
    }
  }

  lemma {:induction false} AttemptCalled(o: Oracles, a: Moment, b: Moment, c: Moment, at: seq<Event>,
                                         r: Flow<Result<seq<Body>, ProviderFailure>>)
    requires HooksCalled(o, a, b, false) && a.log == b.log == at && CallWent(o, b, c, r)
    ensures AttemptWent(o, a, c, at, r)
  {
    Meanwhile(o, a.clock, c.clock, b.clock, c.clock);
    if c.error == None {
      NothingAppended(o, a, b);
    }
  }

  /** An attempt and what follows a failed one: its record and, unless it is the last, a new preparation and
      rendering. */
  ghost predicate TryWent(o: Oracles, a: Moment, b: Moment, at: seq<Event>, attempt: nat, step: Try) {
    && a.clock < b.clock && a.calls <= b.calls <= a.calls + 1 && StillWorks(a, b)
    && (step.Again? ==> TryFailed(o, a, b, at, attempt))
    && (step.Ended? ==>
          match step.flow
          case Value(Some(bodies)) => TryAnswered(o, a, b, at, bodies)
          case Value(None) => TryGaveUp(o, a, b, at, attempt)
          case Error(e) => TryBroke(o, a, b, at, attempt, e)
          case Unwound => HooksUnwound(o, a.clock, b.clock))
  }

  ghost predicate TryFailed(o: Oracles, a: Moment, b: Moment, at: seq<Event>, attempt: nat) {
    && a.log == at && b.calls == a.calls + 1 && !o.provider(a.clock + 1).Answered?
    && b.clock == a.clock + 2 + TicksOfCall(o, a.clock + 1) && o.projection(b.clock - 1) == Projected
    && FailedOnRecord(o, a, b, attempt, false)
  }

  ghost predicate TryAnswered(o: Oracles, a: Moment, b: Moment, at: seq<Event>, bodies: seq<Body>) {
    && a.log == at && b.calls == a.calls + 1 && o.provider(a.clock + 1) == Answered(bodies)
    && b.clock == a.clock + 3
    && (b.error == None ==> o.hook(a.clock).appends == [] && b.log == Extend(at, o.hook(a.clock + 2).appends))
  }

  ghost predicate TryGaveUp(o: Oracles, a: Moment, b: Moment, at: seq<Event>, attempt: nat) {
    && a.log == at && b.calls == a.calls + 1 && !o.provider(a.clock + 1).Answered?
    && b.clock == a.clock + 1 + TicksOfCall(o, a.clock + 1) && FailedOnRecord(o, a, b, attempt, true)
  }

  ghost predicate TryBroke(o: Oracles, a: Moment, b: Moment, at: seq<Event>, attempt: nat, e: LoopError) {
    || (IsStale(e) && (a.log != at || HooksAppended(o, a.clock, b.clock)))
    || (e.StorageWriteError? && b.error == Some(e.cause))
    || (PreparedInVain(o, a, b, at, attempt)
        && ((e == ProjectionFailed && NotRendered(o, a.clock, b.clock))
            || (e.TranscriptIntegrityError? && !ProviderReady(b.log))))
  }

  /** The attempt failed, and what should have prepared the next one failed too. */
  ghost predicate PreparedInVain(o: Oracles, a: Moment, b: Moment, at: seq<Event>, attempt: nat) {
    a.log == at && a.clock + 1 + TicksOfCall(o, a.clock + 1) <= b.clock && FailedOnRecord(o, a, b, attempt, false)
  }

  /** The failure of the attempt is the last event of the log. */
  ghost predicate FailedOnRecord(o: Oracles, a: Moment, b: Moment, attempt: nat, terminal: bool) {
    b.error == None && b.log == Extend(a.log, AfterCall(o, a.clock + 1) + [ProviderError(attempt, terminal)])
  }

  /** The session is prepared and rendered again. */
  ghost predicate PreparedAgain(o: Oracles, a: Moment, b: Moment, r: Flow<PreparedTranscript>) {
    && b.log == a.log && b.error == a.error && b.calls == a.calls && b.reliable == a.reliable
    && match r
       case Value(_) => b.clock == a.clock + 1 && o.projection(a.clock) == Projected
       case Error(e) =>
         || (e == ProjectionFailed && b.clock == a.clock + 1 && o.projection(a.clock) != Projected)
         || (e.TranscriptIntegrityError? && b.clock == a.clock && !ProviderReady(a.log))
       case Unwound => false
  }

  /** What follows a failed attempt. */
  ghost predicate FailureWent(o: Oracles, a: Moment, b: Moment, attempt: nat, step: Try) {
    && b.calls == a.calls && StillWorks(a, b) && a.clock <= b.clock <= a.clock + 1
    && match step
       case Again(_) => b.clock == a.clock + 1 && o.projection(a.clock) == Projected && Recorded(a, b, attempt, false)
       case Ended(Value(answer)) => answer == None && b.clock == a.clock && Recorded(a, b, attempt, true)
       case Ended(Error(e)) =>
         || (e.StorageWriteError? && b.error == Some(e.cause))
         || (Recorded(a, b, attempt, false)
             && ((e == ProjectionFailed && b.clock == a.clock + 1 && o.projection(a.clock) != Projected)
                 || (e.TranscriptIntegrityError? && !ProviderReady(b.log))))
       case Ended(Unwound) => false
  }

  ghost predicate Recorded(a: Moment, b: Moment, attempt: nat, terminal: bool) {
    b.error == None && b.log == Extend(a.log, [ProviderError(attempt, terminal)])
  }

  lemma {:induction false} FailureEnds(o: Oracles, a: Moment, m: Moment, b: Moment, attempt: nat,
                                       again: Flow<PreparedTranscript>, step: Try)
    requires Put(a, m, [ProviderError(attempt, false)]) && m.error == None && PreparedAgain(o, m, b, again)
    requires step == if again.Error? then Ended(Error(again.error))
                     else if again.Value? then Again(again.value) else Ended(Unwound)
    ensures FailureWent(o, a, b, attempt, step)
  {}

  lemma {:induction false} RecordAfterCall(o: Oracles, a: Moment, m: Moment, b: Moment, attempt: nat, terminal: bool)
    requires m.error == None ==> m.log == Extend(a.log, AfterCall(o, a.clock + 1))
    requires Recorded(m, b, attempt, terminal) && (b.error == None ==> m.error == None)
    ensures FailedOnRecord(o, a, b, attempt, terminal)
  {
    ExtendTwice(a.log, AfterCall(o, a.clock + 1), [ProviderError(attempt, terminal)]);
  }

  lemma {:induction false} TryAfterFailure(o: Oracles, a: Moment, m: Moment, b: Moment, at: seq<Event>, attempt: nat,
                                           err: ProviderFailure, step: Try)
    requires AttemptWent(o, a, m, at, Value(Failure(err))) && FailureWent(o, m, b, attempt, step)
    ensures TryWent(o, a, b, at, attempt, step)
  {
    if Recorded(m, b, attempt, false) {
      RecordAfterCall(o, a, m, b, attempt, false);
    }
    if Recorded(m, b, attempt, true) {
      RecordAfterCall(o, a, m, b, attempt, true);
    }
    if b.clock == m.clock + 1 && o.projection(m.clock) != Projected {
      assert a.clock <= m.clock < b.clock && Unrendered(o, m.clock);
    }
  }

  lemma {:induction false} TryAfterAttempt(o: Oracles, a: Moment, b: Moment, at: seq<Event>, attempt: nat,
                                           r: Flow<Result<seq<Body>, ProviderFailure>>, step: Try)
    requires AttemptWent(o, a, b, at, r) && step.Ended?
    requires match r
             case Value(Success(bodies)) => step.flow == Value(Some(bodies))
             case Value(Failure(_)) => false
             case Error(e) => step.flow == Error(e)
             case Unwound => step.flow == Unwound
    ensures TryWent(o, a, b, at, attempt, step)
  {}

  // ---------- Attempts in a row ----------

  ghost predicate GivenWithin(o: Oracles, from: nat, to: nat, bodies: seq<Body>) {
    exists n: nat :: from <= n < to && o.provider(n) == Answered(bodies)
  }

  /** The outside was calm from the first attempt on, which began on a ready log. */
  ghost predicate CalmSince(o: Oracles, a: Moment, to: nat, first: seq<Event>) {
    Calm(o, a.clock, to) && a.reliable && a.log == first && ProviderReady(first)
  }

  /** All attempts before number `attempt` have failed. */
  ghost predicate LoopSoFar(o: Oracles, a: Moment, s: Moment, first: seq<Event>, at: seq<Event>, attempt: nat) {
    && attempt >= 1 && a.clock <= s.clock && s.calls == a.calls + attempt - 1 && StillWorks(a, s)
    && RenderedTimes(o, a.clock, s.clock, attempt - 1)
    && (if attempt == 1 then s == a && at == first
        else NotAnswered(o, a.clock, s.clock) && !o.provider(a.clock + 1).Answered? && s.log == at)
    && (CalmSince(o, a, s.clock, first) ==> at == Extend(first, Trail(attempt - 1, false)))
  }

  /** How a row of attempts ends. */
  ghost predicate LoopWent(o: Oracles, a: Moment, b: Moment, first: seq<Event>, r: Flow<Option<seq<Body>>>,
                           attempts: nat) {
    && attempts >= 1 && a.clock < b.clock && a.calls <= b.calls && StillWorks(a, b)
    && RenderedTimes(o, a.clock, b.clock, b.calls - a.calls - 1)
    && (CalmSince(o, a, b.clock, first) ==> r.Value?)
    && match r
       case Value(Some(bodies)) =>
         && b.calls == a.calls + attempts && GivenWithin(o, a.clock, b.clock, bodies)
         && (attempts > 1 ==> NotAnswered(o, a.clock, b.clock))
         && (CalmSince(o, a, b.clock, first) ==> b.log == Extend(first, Trail(attempts - 1, false)))
         && (o.provider(a.clock + 1).Answered? ==> attempts == 1 && TryAnswered(o, a, b, first, bodies))
       case Value(None) =>
         && b.calls == a.calls + attempts && NotAnswered(o, a.clock, b.clock) && !o.provider(a.clock + 1).Answered?
         && (CalmSince(o, a, b.clock, first) ==> b.log == Extend(first, Trail(attempts, true)))
       case Error(e) => (IsStale(e) && a.log != first) || CausedBy(e, o, a.clock, b.clock, b.log, b.error)
       case Unwound => HooksUnwound(o, a.clock, b.clock)
  }

  lemma {:induction false} NothingAfterCall(o: Oracles, from: nat, to: nat, tick: nat)
    requires Calm(o, from, to) && from <= tick && tick + TicksOfCall(o, tick) <= to
    ensures AfterCall(o, tick) == []
  {
    assert tick + 1 < to ==> !Appends(o, tick + 1);
  }

  /** In a calm run a failed attempt leaves its record and nothing else. */
  lemma {:induction false} OneMoreRecord(o: Oracles, a: Moment, s: Moment, t: Moment, first: seq<Event>,
                                         at: seq<Event>, attempt: nat, terminal: bool)
    requires LoopSoFar(o, a, s, first, at, attempt) && s.log == at && FailedOnRecord(o, s, t, attempt, terminal)
    requires s.clock + 1 + TicksOfCall(o, s.clock + 1) <= t.clock && CalmSince(o, a, t.clock, first)
    ensures t.log == Extend(first, Trail(attempt, terminal))
  {
    Meanwhile(o, a.clock, t.clock, a.clock, s.clock);
    NothingAfterCall(o, a.clock, t.clock, s.clock + 1);
    var record := [ProviderError(attempt, terminal)];
    assert [] + record == record;
    ExtendTwice(first, Trail(attempt - 1, false), record);
    assert Trail(attempt, terminal) == Trail(attempt - 1, false) + record;
  }

  lemma {:induction false} LoopStarts(o: Oracles, a: Moment, first: seq<Event>)
    ensures LoopSoFar(o, a, a, first, first, 1)
  {
    NoneRendered(o, a.clock, a.clock, 0);
    assert Extend(first, []) == first;
  }

  lemma {:induction false} LoopAgain(o: Oracles, a: Moment, s: Moment, t: Moment, first: seq<Event>, at: seq<Event>,
                                     attempt: nat)
    requires LoopSoFar(o, a, s, first, at, attempt) && s.clock < t.clock && StillWorks(s, t)
    requires TryFailed(o, s, t, at, attempt)
    ensures LoopSoFar(o, a, t, first, t.log, attempt + 1)
  {
    RenderedOnce(o, s.clock, t.clock, t.clock - 1);
    RenderedInAll(o, a.clock, s.clock, t.clock, attempt - 1, 1);
    var n := s.clock + 1;
    assert a.clock <= n < t.clock && Unanswered(o, n);
    if CalmSince(o, a, t.clock, first) {
      OneMoreRecord(o, a, s, t, first, at, attempt, false);
    }
  }

  lemma {:induction false} LoopAnswered(o: Oracles, a: Moment, s: Moment, t: Moment, first: seq<Event>,
                                        at: seq<Event>, attempt: nat, bodies: seq<Body>)
    requires LoopSoFar(o, a, s, first, at, attempt) && s.clock < t.clock && StillWorks(s, t)
    requires TryAnswered(o, s, t, at, bodies) && (t.reliable ==> t.error == None)
    ensures LoopWent(o, a, t, first, Value(Some(bodies)), attempt)
  {
    Meanwhile(o, a.clock, t.clock, a.clock, s.clock);
    Later(o, a.clock, s.clock, t.clock, attempt - 1);
    var n := s.clock + 1;
    assert a.clock <= n < t.clock && o.provider(n) == Answered(bodies);
    if CalmSince(o, a, t.clock, first) {
      assert !Appends(o, s.clock + 2);
      assert Extend(at, []) == at;
    }
  }

  lemma {:induction false} Later(o: Oracles, from: nat, to: nat, later: nat, n: int)
    requires RenderedTimes(o, from, to, n) && to <= later
    ensures RenderedTimes(o, from, later, n)
  {
    var at :| RenderedAt(o, from, to, n, at);
    assert RenderedAt(o, from, later, n, at);
  }

  lemma {:induction false} LoopGaveUp(o: Oracles, a: Moment, s: Moment, t: Moment, first: seq<Event>,
                                      at: seq<Event>, attempt: nat)
    requires LoopSoFar(o, a, s, first, at, attempt) && s.clock < t.clock && StillWorks(s, t)
    requires TryGaveUp(o, s, t, at, attempt)
    ensures LoopWent(o, a, t, first, Value(None), attempt)
  {
    Later(o, a.clock, s.clock, t.clock, attempt - 1);
    var n := s.clock + 1;
    assert a.clock <= n < t.clock && Unanswered(o, n);
    if CalmSince(o, a, t.clock, first) {
      OneMoreRecord(o, a, s, t, first, at, attempt, true);
    }
  }

  /** A broken attempt has its cause, and a calm outside gives none. */
  lemma {:induction false} LoopBroke(o: Oracles, a: Moment, s: Moment, t: Moment, first: seq<Event>, at: seq<Event>,
                                     attempt: nat, e: LoopError)
    requires LoopSoFar(o, a, s, first, at, attempt) && s.clock < t.clock && StillWorks(s, t)
    requires TryBroke(o, s, t, at, attempt, e) && s.calls <= t.calls <= s.calls + 1
    requires t.reliable ==> t.error == None
    ensures LoopWent(o, a, t, first, Error(e), attempt)
  {
    Later(o, a.clock, s.clock, t.clock, attempt - 1);
    RenderedFewer(o, a.clock, t.clock, attempt - 1, t.calls - a.calls - 1);
    Meanwhile(o, a.clock, t.clock, s.clock, t.clock);
    BrokeThoughCalm(o, a, s, t, first, at, attempt, e);
  }

  lemma {:induction false} BrokeThoughCalm(o: Oracles, a: Moment, s: Moment, t: Moment, first: seq<Event>,
                                           at: seq<Event>, attempt: nat, e: LoopError)
    requires LoopSoFar(o, a, s, first, at, attempt) && s.clock < t.clock && StillWorks(s, t)
    requires TryBroke(o, s, t, at, attempt, e)
    requires t.reliable ==> t.error == None
    ensures !CalmSince(o, a, t.clock, first)
  {
    if CalmSince(o, a, t.clock, first) {
      CalmIn(o, a.clock, t.clock, s.clock, t.clock);
      if PreparedInVain(o, s, t, at, attempt) {
        OneMoreRecord(o, a, s, t, first, at, attempt, false);
        TrailIsReady(first, attempt, false);
      }
    }
  }

  lemma {:induction false} CalmIn(o: Oracles, from: nat, to: nat, from': nat, to': nat)
    requires Calm(o, from, to) && from <= from' && to' <= to
    ensures Calm(o, from', to')
  {
    Meanwhile(o, from, to, from', to');
  }

  lemma {:induction false} LoopUnwound(o: Oracles, a: Moment, s: Moment, t: Moment, first: seq<Event>,
                                       at: seq<Event>, attempt: nat)
    requires LoopSoFar(o, a, s, first, at, attempt) && s.clock < t.clock && StillWorks(s, t)
    requires HooksUnwound(o, s.clock, t.clock) && s.calls <= t.calls <= s.calls + 1
    ensures LoopWent(o, a, t, first, Unwound, attempt)
  {
    Later(o, a.clock, s.clock, t.clock, attempt - 1);
    RenderedFewer(o, a.clock, t.clock, attempt - 1, t.calls - a.calls - 1);
    Meanwhile(o, a.clock, t.clock, s.clock, t.clock);
  }

  lemma {:induction false} LoopEnds(o: Oracles, a: Moment, s: Moment, t: Moment, first: seq<Event>, at: seq<Event>,
                                    attempt: nat, step: Try)
    requires LoopSoFar(o, a, s, first, at, attempt) && TryWent(o, s, t, at, attempt, step) && step.Ended?
    requires t.reliable ==> t.error == None
    ensures LoopWent(o, a, t, first, step.flow, attempt)
  {
    match step.flow
    case Value(Some(bodies)) => LoopAnswered(o, a, s, t, first, at, attempt, bodies);
    case Value(None) => LoopGaveUp(o, a, s, t, first, at, attempt);
    case Error(e) => LoopBroke(o, a, s, t, first, at, attempt, e);
    case Unwound => LoopUnwound(o, a, s, t, first, at, attempt);
  }

  /** What one of several attempts adds to the row. */
  ghost predicate LoopStep(o: Oracles, a: Moment, t: Moment, first: seq<Event>, attempt: nat, step: Try) {
    match step
    case Again(_) => LoopSoFar(o, a, t, first, t.log, attempt + 1)
    case Ended(flow) => LoopWent(o, a, t, first, flow, attempt)
  }

  lemma {:induction false} LoopSteps(o: Oracles, a: Moment, s: Moment, t: Moment, first: seq<Event>, at: seq<Event>,
                                     attempt: nat, step: Try)
    requires LoopSoFar(o, a, s, first, at, attempt) && TryWent(o, s, t, at, attempt, step)
    requires t.reliable ==> t.error == None
    ensures LoopStep(o, a, t, first, attempt, step)
  {
    if step.Again? {
      LoopAgain(o, a, s, t, first, at, attempt);
    } else {
      LoopEnds(o, a, s, t, first, at, attempt, step);
    }
  }

  // ---------- One turn ----------

  /** The answer `bodies` was closed as `staged` and entered the log `before`, and `turn` says how it ends. */
  ghost predicate Entered(bodies: seq<Body>, before: seq<Event>, after: seq<Event>, turn: Turn, staged: seq<Body>) {
    && after == Extend(before, staged)
    && WellFormedAnswer(bodies, turn.stopReason) && Closes(bodies, turn.stopReason, staged)
    && turn.reason == if turn.stopReason == "tool_use" || ToolUses(bodies) == [] then Unstated else IncompleteToolBatch
  }

  ghost predicate AnswerEntered(bodies: seq<Body>, before: seq<Event>, after: seq<Event>, turn: Turn) {
    exists staged :: Entered(bodies, before, after, turn, staged)
  }

  predicate IsAnswered(r: Flow<Turn>) { r.Value? && r.value.reason in {Unstated, IncompleteToolBatch} }

  /** An answer is closed and appended, unless it is ill-formed. */
  ghost predicate CloseWent(a: Moment, b: Moment, bodies: seq<Body>, r: Flow<Turn>) {
    && b.clock == a.clock && b.calls == a.calls && StillWorks(a, b)
    && match r
       case Value(turn) =>
         b.error == None && AnswerEntered(bodies, a.log, b.log, turn)
       case Error(e) =>
         || (e.ProviderResponseIntegrityError? && IllFormed(bodies) && b.log == a.log && b.error == a.error)
         || (e.StorageWriteError? && b.error == Some(e.cause))
       case Unwound => false
  }

  /** A calm turn: `k` failed attempts are on record, and then comes the answer, or another failure that is final, or
      the answer was ill-formed and nothing comes. */
  ghost predicate TookCalmly(o: Oracles, from: nat, to: nat, calls: int, first: seq<Event>, after: seq<Event>, k: nat,
                             r: Flow<Turn>) {
    && calls == k + 1 && (k > 0 ==> NotAnswered(o, from, to))
    && match r
       case Value(turn) =>
         if turn.reason == ProviderFailed then NotAnswered(o, from, to) && after == Extend(first, Trail(k + 1, true))
         else exists bodies ::
             GivenWithin(o, from, to, bodies) && AnswerEntered(bodies, Extend(first, Trail(k, false)), after, turn)
       case Error(e) =>
         e.ProviderResponseIntegrityError? && AnsweredBadly(o, from, to) && after == Extend(first, Trail(k, false))
       case Unwound => false
  }

  ghost predicate TookCalmlyAnyway(o: Oracles, from: nat, to: nat, calls: int, first: seq<Event>, after: seq<Event>,
                                   r: Flow<Turn>) {
    exists k :: TookCalmly(o, from, to, calls, first, after, k, r)
  }

  lemma {:induction false} TookInAll(o: Oracles, from: nat, to: nat, earlier: nat, calls: int, first: seq<Event>,
                                     after: seq<Event>, r: Flow<Turn>)
    requires TookCalmlyAnyway(o, from, to, calls, first, after, r) && earlier <= from
    ensures TookCalmlyAnyway(o, earlier, to, calls, first, after, r)
  {
    var k :| TookCalmly(o, from, to, calls, first, after, k, r);
    Meanwhile(o, earlier, to, from, to);
    assert TookCalmly(o, earlier, to, calls, first, after, k, r);
  }

  /** The call of a turn that began at `a` on the log `first`, with all its attempts, and what became of the answer. */
  ghost predicate SentWent(o: Oracles, a: Moment, b: Moment, first: seq<Event>, r: Flow<Turn>) {
    && a.clock < b.clock && a.calls <= b.calls && StillWorks(a, b)
    && RenderedTimes(o, a.clock, b.clock, b.calls - a.calls - 1)
    && (r.Error? ==>
          (IsStale(r.error) && a.log != first) || CausedBy(r.error, o, a.clock, b.clock, b.log, b.error))
    && (r.Unwound? ==> HooksUnwound(o, a.clock, b.clock))
    && (CalmSince(o, a, b.clock, first) ==>
          TookCalmlyAnyway(o, a.clock, b.clock, b.calls - a.calls, first, b.log, r))
    && (o.provider(a.clock + 1).Answered? && IsAnswered(r) ==> AnsweredAtOnce(o, a, b, first, r))
  }

  /** The first call was answered: the hooks before it appended nothing, those after it what they liked. */
  ghost predicate AnsweredAtOnce(o: Oracles, a: Moment, b: Moment, first: seq<Event>, r: Flow<Turn>)
    requires r.Value?
  {
    && a.log == first && b.clock == a.clock + 3 && b.calls == a.calls + 1 && o.hook(a.clock).appends == []
    && o.provider(a.clock + 1).Answered? && b.error == None
    && AnswerEntered(o.provider(a.clock + 1).bodies, Extend(first, o.hook(a.clock + 2).appends), b.log, r.value)
  }

  lemma {:induction false} SentBroke(o: Oracles, a: Moment, b: Moment, first: seq<Event>,
                                     loop: Flow<Option<seq<Body>>>, attempts: nat, r: Flow<Turn>)
    requires LoopWent(o, a, b, first, loop, attempts) && !loop.Value?
    requires r == if loop.Error? then Error(loop.error) else Unwound
    ensures SentWent(o, a, b, first, r)
  {}

  lemma {:induction false} SentLatched(o: Oracles, a: Moment, b: Moment, first: seq<Event>,
                                       loop: Flow<Option<seq<Body>>>, attempts: nat)
    requires LoopWent(o, a, b, first, loop, attempts) && b.error.Some? && (b.reliable ==> b.error == None)
    ensures SentWent(o, a, b, first, Error(StorageWriteError(b.error.value)))
  {}

  lemma {:induction false} SentGaveUp(o: Oracles, a: Moment, b: Moment, first: seq<Event>, attempts: nat)
    requires LoopWent(o, a, b, first, Value(None), attempts)
    ensures SentWent(o, a, b, first, Value(Turn("", ProviderFailed)))
  {
    if CalmSince(o, a, b.clock, first) {
      assert TookCalmly(o, a.clock, b.clock, b.calls - a.calls, first, b.log, attempts - 1,
                        Value(Turn("", ProviderFailed)));
    }
  }

  lemma {:induction false} SentClosed(o: Oracles, a: Moment, m: Moment, b: Moment, first: seq<Event>, attempts: nat,
                                      bodies: seq<Body>, r: Flow<Turn>)
    requires LoopWent(o, a, m, first, Value(Some(bodies)), attempts) && CloseWent(m, b, bodies, r)
    requires b.reliable ==> b.error == None
    ensures SentWent(o, a, b, first, r)
  {
    if IllFormed(bodies) {
      GivenBadly(o, a.clock, b.clock, bodies);
    }
    if CalmSince(o, a, b.clock, first) {
      ClosedCalmly(o, a, m, b, first, attempts, bodies, r);
    }
  }

  lemma {:induction false} GivenBadly(o: Oracles, from: nat, to: nat, bodies: seq<Body>)
    requires GivenWithin(o, from, to, bodies) && IllFormed(bodies)
    ensures AnsweredBadly(o, from, to)
  {
    var n: nat :| from <= n < to && o.provider(n) == Answered(bodies);
    assert BadAnswer(o, n);
  }

  lemma {:induction false} ClosedCalmly(o: Oracles, a: Moment, m: Moment, b: Moment, first: seq<Event>, attempts: nat,
                                        bodies: seq<Body>, r: Flow<Turn>)
    requires LoopWent(o, a, m, first, Value(Some(bodies)), attempts) && CloseWent(m, b, bodies, r)
    requires CalmSince(o, a, b.clock, first) && b.error == None
    ensures TookCalmlyAnyway(o, a.clock, b.clock, b.calls - a.calls, first, b.log, r)
  {
    if r.Value? {
      assert AnswerEntered(bodies, Extend(first, Trail(attempts - 1, false)), b.log, r.value);
    } else {
      GivenBadly(o, a.clock, b.clock, bodies);
    }
    assert TookCalmly(o, a.clock, b.clock, b.calls - a.calls, first, b.log, attempts - 1, r);
  }

  /** The request is rendered, or the turn ends here; the hooks see the request. */
  ghost predicate RenderWent(o: Oracles, a: Moment, b: Moment, stopped: Option<Flow<Turn>>) {
    && b.calls == a.calls && StillWorks(a, b)
    && match o.projection(a.clock)
       case ProjectionError => stopped == Some(Error(ProjectionFailed)) && b.clock == a.clock + 1 && b.log == a.log
       case CapabilityMismatch =>
         && stopped == Some(Value(Turn("", RuntimeFailed))) && b.clock == a.clock + 1
         && (b.error == None ==> b.log == Extend(a.log, [RuntimeError("capability_mismatch", true)]))
       case Projected =>
         && b.clock == a.clock + 2
         && stopped == (if o.hook(a.clock + 1).failTurn then Some(Unwound) else None)
         && (stopped == None && b.error == None ==> b.log == Extend(a.log, o.hook(a.clock + 1).appends))
         && (stopped == None && o.hook(a.clock + 1).appends == [] ==> b.log == a.log && b.error == a.error)
  }

  /** A turn from the moment its transcript was prepared. */
  ghost predicate PreparedWent(o: Oracles, a: Moment, b: Moment, r: Flow<Turn>) {
    && a.clock < b.clock && a.calls <= b.calls && StillWorks(a, b)
    && RenderedTimes(o, a.clock, b.clock, b.calls - a.calls)
    && (b.calls > a.calls ==> o.projection(a.clock) == Projected)
    && (r.Error? ==> CausedBy(r.error, o, a.clock, b.clock, b.log, b.error))
    && (r.Unwound? ==> HooksUnwound(o, a.clock, b.clock))
    && (CalmSince(o, a, b.clock, a.log) ==>
          TookCalmlyAnyway(o, a.clock, b.clock, b.calls - a.calls, a.log, b.log, r))
    && (o.provider(a.clock + 3).Answered? && IsAnswered(r) ==> PreparedAnswered(o, a, b, r))
    && match o.projection(a.clock)
       case ProjectionError => r == Error(ProjectionFailed) && b.log == a.log
       case CapabilityMismatch => r == Value(Turn("", RuntimeFailed))
       case Projected => true
  }

  ghost predicate PreparedAnswered(o: Oracles, a: Moment, b: Moment, r: Flow<Turn>)
    requires r.Value?
  {
    && b.clock == a.clock + 5 && b.calls == a.calls + 1 && b.error == None
    && o.hook(a.clock + 1).appends == [] && o.hook(a.clock + 2).appends == [] && o.provider(a.clock + 3).Answered?
    && AnswerEntered(o.provider(a.clock + 3).bodies, Extend(a.log, o.hook(a.clock + 4).appends), b.log, r.value)
  }

  lemma {:induction false} RenderStopped(o: Oracles, a: Moment, b: Moment, r: Flow<Turn>)
    requires RenderWent(o, a, b, Some(r))
    ensures PreparedWent(o, a, b, r)
  {
    NoneRendered(o, a.clock, b.clock, 0);
    if o.projection(a.clock) != Projected {
      assert Unrendered(o, a.clock);
    } else {
      assert Unwinds(o, a.clock + 1);
    }
  }

  lemma {:induction false} RenderedAndSent(o: Oracles, a: Moment, m: Moment, b: Moment, r: Flow<Turn>)
    requires RenderWent(o, a, m, None) && SentWent(o, m, b, a.log, r)
    ensures PreparedWent(o, a, b, r)
  {
    RenderedOnce(o, a.clock, m.clock, a.clock);
    RenderedInAll(o, a.clock, m.clock, b.clock, 1, b.calls - m.calls - 1);
    Meanwhile(o, a.clock, b.clock, m.clock, b.clock);
    if m.log != a.log {
      assert Appends(o, a.clock + 1);
    }
    if CalmSince(o, a, b.clock, a.log) {
      assert !Appends(o, a.clock + 1);
      TookInAll(o, m.clock, b.clock, a.clock, b.calls - a.calls, a.log, b.log, r);
    }
    if o.provider(a.clock + 3).Answered? && IsAnswered(r) {
      SentAnswered(o, a, m, b, r);
    }
  }

  lemma {:induction false} SentAnswered(o: Oracles, a: Moment, m: Moment, b: Moment, r: Flow<Turn>)
    requires RenderWent(o, a, m, None) && SentWent(o, m, b, a.log, r)
    requires o.provider(a.clock + 3).Answered? && IsAnswered(r)
    ensures PreparedAnswered(o, a, b, r)
  {
    assert m.clock + 1 == a.clock + 3 && m.clock + 2 == a.clock + 4;
    assert AnsweredAtOnce(o, m, b, a.log, r);
    if m.error == None {
      assert |m.log| == |a.log| + |o.hook(a.clock + 1).appends|;
    }
  }

  /** One turn: hooks, preparation, rendering and the call. Every error has its cause, every provider call its own
      rendered request; and what a calm turn comes to, or one whose first call is answered. */
  ghost predicate TurnWent(o: Oracles, a: Moment, b: Moment, r: Flow<Turn>) {
    && a.clock < b.clock && a.calls <= b.calls && StillWorks(a, b)
    && RenderedTimes(o, a.clock, b.clock, b.calls - a.calls)
    && (b.calls > a.calls ==> o.projection(a.clock + 1) == Projected)
    && (r.Error? ==> CausedBy(r.error, o, a.clock, b.clock, b.log, b.error))
    && (r.Unwound? ==> HooksUnwound(o, a.clock, b.clock))
    && (CalmSince(o, a, b.clock, a.log) && !TerminalErrorIn(a.log) ==>
          TookCalmlyAnyway(o, a.clock, b.clock, b.calls - a.calls, a.log, b.log, r))
    && (o.provider(a.clock + 4).Answered? && IsAnswered(r) ==> TurnAnswered(o, a, b, r))
    && (TurnIsReady(o, a) ==>
          match o.projection(a.clock + 1)
          case ProjectionError => r == Error(ProjectionFailed) && b.log == a.log
          case CapabilityMismatch => r == Value(Turn("", RuntimeFailed))
          case Projected => true)
  }

  /** Nothing keeps the turn from rendering its request. */
  ghost predicate TurnIsReady(o: Oracles, a: Moment) {
    o.hook(a.clock).appends == [] && !o.hook(a.clock).failTurn && ProviderReady(a.log) && !TerminalErrorIn(a.log)
  }

  /** The first call of a turn was answered: two of the four hook points in it appended nothing, and what the other two
      appended comes before the answer. */
  ghost predicate TurnAnswered(o: Oracles, a: Moment, b: Moment, r: Flow<Turn>)
    requires r.Value?
  {
    && b.clock == a.clock + 6 && b.calls == a.calls + 1 && b.error == None
    && o.hook(a.clock + 2).appends == [] && o.hook(a.clock + 3).appends == [] && o.provider(a.clock + 4).Answered?
    && AnswerEntered(o.provider(a.clock + 4).bodies,
                     Extend(a.log, o.hook(a.clock).appends + o.hook(a.clock + 5).appends), b.log, r.value)
  }

  /** How a turn ends before it is prepared. */
  ghost predicate EndsEarly(log: seq<Event>, latch: Option<StorageError>, r: Flow<Turn>) {
    match r
    case Value(turn) => turn == Turn("", RuntimeFailed) && TerminalErrorIn(log)
    case Error(e) => e.TranscriptIntegrityError? && !ProviderReady(log)
    case Unwound => TerminalErrorIn(log) || latch.Some?
  }

  lemma {:induction false} TurnEndsEarly(o: Oracles, a: Moment, b: Moment, r: Flow<Turn>)
    requires HooksCalled(o, a, b, r.Unwound?) && EndsEarly(b.log, b.error, r)
    ensures TurnWent(o, a, b, r)
  {
    NoneRendered(o, a.clock, b.clock, 0);
    HooksSeen(o, a, b, r.Unwound?);
  }

  lemma {:induction false} TurnGoesOn(o: Oracles, a: Moment, m: Moment, b: Moment, r: Flow<Turn>)
    requires HooksCalled(o, a, m, false) && PreparedWent(o, m, b, r)
    ensures TurnWent(o, a, b, r)
  {
    NoneRendered(o, a.clock, m.clock, 0);
    RenderedInAll(o, a.clock, m.clock, b.clock, 0, b.calls - m.calls);
    Meanwhile(o, a.clock, b.clock, m.clock, b.clock);
    HooksSeen(o, a, m, false);
    Meanwhile(o, a.clock, b.clock, a.clock, m.clock);
    if CalmSince(o, a, b.clock, a.log) {
      assert !Appends(o, a.clock);
      TookInAll(o, m.clock, b.clock, a.clock, b.calls - a.calls, a.log, b.log, r);
    }
    if o.provider(a.clock + 4).Answered? && IsAnswered(r) {
      PreparedAnsweredInTurn(o, a, m, b, r);
    }
  }

  lemma {:induction false} PreparedAnsweredInTurn(o: Oracles, a: Moment, m: Moment, b: Moment, r: Flow<Turn>)
    requires HooksCalled(o, a, m, false) && PreparedWent(o, m, b, r)
    requires o.provider(a.clock + 4).Answered? && IsAnswered(r)
    ensures TurnAnswered(o, a, b, r)
  {
    assert m.clock + 1 == a.clock + 2 && m.clock + 2 == a.clock + 3 && m.clock + 3 == a.clock + 4;
    assert m.clock + 4 == a.clock + 5;
    assert PreparedAnswered(o, m, b, r);
    var before, after := o.hook(a.clock).appends, o.hook(a.clock + 5).appends;
    assert before + [] == before;
    ExtendTwice(a.log, before, after);
  }

  // ---------- A run ----------

  ghost predicate Says(o: Oracles, n: nat, bodies: seq<Body>) { o.provider(n) == Answered(bodies) }

  /** From `a` on the log is ready and without a terminal error, the outside is calm, storage works, and the provider
      answers `bodies` whenever it is asked, which does not stop for tools. */
  ghost predicate OneAnswer(o: Oracles, a: Moment, to: nat, bodies: seq<Body>, stop: string) {
    && CalmSince(o, a, to, a.log) && !TerminalErrorIn(a.log)
    && (forall n: nat :: a.clock <= n < to ==> Says(o, n, bodies)) && WellFormedAnswer(bodies, stop)
    && stop != "tool_use"
  }

  /** One call was made, its answer entered the log, closed, and the run ended as the answer says. */
  ghost predicate OneCall(a: Moment, b: Moment, bodies: seq<Body>, stop: string, r: Flow<Reason>) {
    && b.calls == a.calls + 1 && r == Value(if ToolUses(bodies) == [] then EndTurn else IncompleteToolBatch)
    && exists staged :: Closes(bodies, stop, staged) && b.log == Extend(a.log, staged)
  }

  /** The end of the run, if the turn is its end. */
  function LastOf(flow: Flow<Turn>): Option<Flow<Reason>> {
    match flow
    case Error(e) => Some(Error(e))
    case Unwound => Some(Value(RuntimeFailed))
    case Value(turn) =>
      if turn.reason != Unstated then Some(Value(turn.reason))
      else if turn.stopReason != "tool_use" then Some(Value(EndTurn))
      else None
  }

  /** A turn and what follows it, up to the end of the run if it ends there. */
  ghost predicate EndWent(o: Oracles, a: Moment, b: Moment, ended: Option<Flow<Reason>>) {
    && a.clock <= b.clock && a.calls <= b.calls && RenderedTimes(o, a.clock, b.clock, b.calls - a.calls)
    && (ended.Some? && ended.value.Error? ==> CausedBy(ended.value.error, o, a.clock, b.clock, b.log, b.error))
    && forall bodies, stop :: OneAnswer(o, a, b.clock, bodies, stop) ==>
           ended.Some? && OneCall(a, b, bodies, stop, ended.value)
  }

  lemma {:induction false} StopIsUnique(bodies: seq<Body>, s: string, t: string)
    requires WellFormedAnswer(bodies, s) && WellFormedAnswer(bodies, t)
    ensures s == t
  {
    var i :| MessageFirst(bodies, s, i);
    var j :| MessageFirst(bodies, t, j);
    assert i == j;
  }

  lemma {:induction false} NeverUnanswered(o: Oracles, a: Moment, to: nat, bodies: seq<Body>, stop: string)
    requires OneAnswer(o, a, to, bodies, stop)
    ensures !NotAnswered(o, a.clock, to) && !AnsweredBadly(o, a.clock, to)
  {
    forall n: nat | a.clock <= n < to
      ensures !Unanswered(o, n) && !BadAnswer(o, n)
    {
      assert Says(o, n, bodies);
    }
  }

  lemma {:induction false} AnsweredAlways(o: Oracles, a: Moment, to: nat, bodies: seq<Body>, stop: string, k: nat,
                                          calls: int, after: seq<Event>, r: Flow<Turn>)
    requires OneAnswer(o, a, to, bodies, stop) && TookCalmly(o, a.clock, to, calls, a.log, after, k, r)
    ensures calls == 1 && r.Value? && r.value.reason != ProviderFailed
    ensures AnswerEntered(bodies, a.log, after, r.value) && r.value.stopReason == stop
  {
    NeverUnanswered(o, a, to, bodies, stop);
    assert Extend(a.log, []) == a.log;
    var given :| GivenWithin(o, a.clock, to, given)
        && AnswerEntered(given, Extend(a.log, Trail(k, false)), after, r.value);
    var n: nat :| a.clock <= n < to && o.provider(n) == Answered(given);
    assert Says(o, n, bodies);
    StopIsUnique(bodies, stop, r.value.stopReason);
  }

  /** The same answer to every call ends the first turn, and with it the run. */
  lemma {:induction false} AnsweredTurn(o: Oracles, a: Moment, b: Moment, to: nat, r: Flow<Turn>, bodies: seq<Body>,
                                        stop: string)
    requires TurnWent(o, a, b, r) && b.clock <= to && OneAnswer(o, a, to, bodies, stop)
    ensures LastOf(r).Some? && OneCall(a, b, bodies, stop, LastOf(r).value)
  {
    Meanwhile(o, a.clock, to, a.clock, b.clock);
    assert OneAnswer(o, a, b.clock, bodies, stop);
    var k :| TookCalmly(o, a.clock, b.clock, b.calls - a.calls, a.log, b.log, k, r);
    AnsweredAlways(o, a, b.clock, bodies, stop, k, b.calls - a.calls, b.log, r);
    var staged :| Entered(bodies, a.log, b.log, r.value, staged);
  }

  lemma {:induction false} TurnIsLast(o: Oracles, a: Moment, b: Moment, r: Flow<Turn>)
    requires TurnWent(o, a, b, r) && LastOf(r).Some?
    ensures EndWent(o, a, b, LastOf(r))
  {
    forall bodies, stop | OneAnswer(o, a, b.clock, bodies, stop)
      ensures OneCall(a, b, bodies, stop, LastOf(r).value)
    {
      AnsweredTurn(o, a, b, b.clock, r, bodies, stop);
    }
  }

  lemma {:induction false} TurnThenTools(o: Oracles, a: Moment, m: Moment, b: Moment, r: Flow<Turn>,
                                         ended: Option<Flow<Reason>>)
    requires TurnWent(o, a, m, r) && LastOf(r) == None && m.clock <= b.clock && b.calls == m.calls
    requires ended.Some? && ended.value.Error? ==>
               CausedBy(ended.value.error, o, b.clock, b.clock, b.log, b.error)
    ensures EndWent(o, a, b, ended)
  {
    Later(o, a.clock, m.clock, b.clock, b.calls - a.calls);
    if ended.Some? && ended.value.Error? {
      CausedEarlier(ended.value.error, o, b.clock, b.clock, b.log, b.error, a.clock);
    }
    forall bodies, stop | OneAnswer(o, a, b.clock, bodies, stop)
      ensures false
    {
      AnsweredTurn(o, a, m, b.clock, r, bodies, stop);
    }
  }

  /** The turns so far did not end the run. */
  ghost predicate TurnsSoFar(o: Oracles, a: Moment, s: Moment, n: nat) {
    && a.clock <= s.clock && a.calls <= s.calls && RenderedTimes(o, a.clock, s.clock, s.calls - a.calls)
    && (if n == 0 then s == a else forall bodies, stop :: !OneAnswer(o, a, s.clock, bodies, stop))
  }

  lemma {:induction false} TurnsStart(o: Oracles, a: Moment)
    ensures TurnsSoFar(o, a, a, 0)
  {
    NoneRendered(o, a.clock, a.clock, 0);
  }

  lemma {:induction false} TurnsGoOn(o: Oracles, a: Moment, s: Moment, t: Moment, n: nat,
                                     ended: Option<Flow<Reason>>)
    requires TurnsSoFar(o, a, s, n) && EndWent(o, s, t, ended)
    ensures ended == None ==> TurnsSoFar(o, a, t, n + 1)
    ensures ended.Some? ==> EndWent(o, a, t, ended)
  {
    RenderedInAll(o, a.clock, s.clock, t.clock, s.calls - a.calls, t.calls - s.calls);
    if ended.Some? && ended.value.Error? {
      CausedEarlier(ended.value.error, o, s.clock, t.clock, t.log, t.error, a.clock);
    }
    if n > 0 {
      forall bodies, stop
        ensures !OneAnswer(o, a, t.clock, bodies, stop)
      {
        if OneAnswer(o, a, t.clock, bodies, stop) {
          Meanwhile(o, a.clock, t.clock, a.clock, s.clock);
          assert OneAnswer(o, a, s.clock, bodies, stop);
        }
      }
    }
  }

  lemma {:induction false} AllTurnsTaken(o: Oracles, a: Moment, s: Moment, n: nat, r: Flow<Reason>)
    requires TurnsSoFar(o, a, s, n) && n > 0 && !r.Error?
    ensures EndWent(o, a, s, Some(r))
  {}

  /** A run: every error has its cause, every provider call its own rendered request; and if nothing is pending and at
      least one turn may be taken, one answer that does not stop for tools ends it after one call. */
  ghost predicate RunWent(o: Oracles, a: Moment, b: Moment, turns: nat, r: Flow<Reason>) {
    && a.clock <= b.clock && a.calls <= b.calls && RenderedTimes(o, a.clock, b.clock, b.calls - a.calls)
    && (r.Error? ==> CausedBy(r.error, o, a.clock, b.clock, b.log, b.error))
    && (NoPending(a.log) && turns > 0 ==>
          forall bodies, stop :: OneAnswer(o, a, b.clock, bodies, stop) ==> OneCall(a, b, bodies, stop, r))
  }

  /** A run that ended before its first turn. */
  lemma {:induction false} RunEndsEarly(o: Oracles, a: Moment, b: Moment, turns: nat, r: Flow<Reason>)
    requires a.clock <= b.clock && b.calls == a.calls && (a.reliable ==> a.error == None)
    requires r.Error? ==> CausedBy(r.error, o, b.clock, b.clock, b.log, b.error)
    requires NoPending(a.log) ==> a.error.Some? || !ReferencesSound(a.log) || TerminalErrorIn(a.log)
    ensures RunWent(o, a, b, turns, r)
  {
    NoneRendered(o, a.clock, b.clock, 0);
    if r.Error? {
      CausedEarlier(r.error, o, b.clock, b.clock, b.log, b.error, a.clock);
    }
  }

  lemma {:induction false} RunTakesTurns(o: Oracles, a: Moment, m: Moment, b: Moment, turns: nat, r: Flow<Reason>)
    requires a.clock <= m.clock && m.calls == a.calls && (NoPending(a.log) ==> m == a)
    requires if turns > 0 then EndWent(o, m, b, Some(r)) else b == m && !r.Error?
    ensures RunWent(o, a, b, turns, r)
  {
    NoneRendered(o, a.clock, m.clock, 0);
    if turns > 0 {
      RenderedInAll(o, a.clock, m.clock, b.clock, 0, b.calls - m.calls);
      if r.Error? {
        CausedEarlier(r.error, o, m.clock, b.clock, b.log, b.error, a.clock);
      }
    }
  }

  // ---------- A log that stays ready ----------

  lemma {:induction false} PairedWithMore(es: seq<Event>, more: seq<Event>)
    requires ExactlyPaired(es) && forall e :: e in more ==> !IsToolEvent(e.body)
    ensures ExactlyPaired(es + more)
  {
    var all := es + more;
    forall i | |es| <= i < |all|
      ensures !IsToolEvent(all[i].body)
    {
      assert all[i] == more[i - |es|] && more[i - |es|] in more;
    }
    QuietAppend(es, all);
    forall i, id | UseAt(all, i, id)
      ensures HasResult(all, id)
    {
      assert UseAt(es, i, id);
      var r :| ResultAt(es, r, id);
      assert ResultAt(all, r, id);
    }
  }

  lemma {:induction false} SameViews(log: seq<Event>, body: Body)
    requires Neutral(body)
    ensures EffectiveUpTo(Extend(log, [body]), |log|) == Effective(log)
  {
    var after := Extend(log, [body]);
    assert after[|log|].body == body;
    SameReverts(log, after);
    assert forall j :: Live(after, j) <==> Live(log, j);
    forall i | 0 <= i < |log|
      ensures View(after, log[i]) == View(log, log[i])
    {
      SameLiveSameView(after, log, log[i]);
    }
    assert after[..|log|] == log[..|log|];
    SameViewsSameTranscript(after, log, |log|);
  }

  lemma {:induction false} QuietView(log: seq<Event>, n: nat)
    requires n < |log| && Neutral(log[n].body)
    ensures forall e :: e in View(log, log[n]) ==> !IsToolEvent(e.body)
  {
    ViewIsContribution(log, n);
  }

  /** An event that concerns neither pairing nor mutation leaves a ready log ready. */
  lemma {:induction false} StaysReady(log: seq<Event>, body: Body)
    requires ProviderReady(log) && Neutral(body)
    ensures ProviderReady(Extend(log, [body]))
  {
    var after, n := Extend(log, [body]), |log|;
    SameViews(log, body);
    assert after[n].body == body;
    QuietView(after, n);
    PairedWithMore(Effective(log), View(after, after[n]));
    assert Effective(after) == EffectiveUpTo(after, n) + View(after, after[n]);
    QuietAppend(log, after);
  }

  lemma {:induction false} TrailIsReady(log: seq<Event>, k: nat, terminal: bool)
    requires ProviderReady(log)
    ensures ProviderReady(Extend(log, Trail(k, terminal)))
  {
    if k == 0 {
      assert Extend(log, Trail(k, terminal)) == log;
    } else {
      var record := ProviderError(k, terminal);
      TrailIsReady(log, k - 1, false);
      StaysReady(Extend(log, Trail(k - 1, false)), record);
      ExtendTwice(log, Trail(k - 1, false), [record]);
    }
  }
}
