/** What lies outside the program, and what the program does to a session between two moments. */
module Environment {
  import opened Events
  import opened Integrity
  import opened Storage
  import opened Compaction
  import opened Protocol
  import opened Retry

  datatype HookDecision = HookDecision(allow: Option<bool>, pendingApproval: bool, reason: string,
                                       arguments: Option<Arguments>)

  /** What the hooks of one point do: events they append, decisions they return, and whether one panics under
      `fail_turn`. */
  datatype HookAnswer = HookAnswer(appends: seq<Body>, decisions: seq<HookDecision>, failTurn: bool)

  /** A failed call, an answer, or an answer that cannot be ingested. */
  datatype ProviderAnswer = Failed(err: ProviderFailure) | Answered(bodies: seq<Body>)
                          | Unreadable(err: ProviderFailure)

  datatype ProjectionAnswer = Projected | CapabilityMismatch | ProjectionError

  datatype HandlerAnswer = HandlerAnswer(appends: seq<Body>, result: Result<string, string>)

  /** Answer `n` is given to the `n`-th call out of the program. */
  datatype Oracles = Oracles(
    hook: nat -> HookAnswer,
    provider: nat -> ProviderAnswer,
    projection: nat -> ProjectionAnswer,
    handler: nat -> HandlerAnswer,
    newID: nat -> string)

  class World {
    const oracles: Oracles
    var clock: nat
    /** The log as it stood at each call of the loop's provider. */
    ghost var calls: seq<seq<Event>>
    /** The tool uses handed to a handler, as they were handed over. */
    ghost var handled: seq<Body>
    /** Something outside appended a tool event or an assistant message, or a provider reused an id. */
    ghost var rogue: bool
    /** Something outside, or an event inside a provider's answer, compacted without regard to pairs or reverted. */
    ghost var reckless: bool

    constructor (oracles: Oracles)
      ensures this.oracles == oracles && calls == [] && handled == [] && !rogue && !reckless
    {
      this.oracles := oracles;
      clock := 0;
      calls, handled, rogue, reckless := [], [], false, false;
    }
  }

  datatype Snapshot = Snapshot(
    log: seq<Event>, latched: bool, calls: seq<seq<Event>>, handled: seq<Body>, rogue: bool, reckless: bool)

  ghost function Snap(log: Log, w: World): Snapshot
    reads log, w
  {
    Snapshot(log.events, log.storageErr.Some?, w.calls, w.handled, w.rogue, w.reckless)
  }

  /** What a moment of a run looks like: the log, its latch, whether storage works, the calls out of the program so far
      and, among these, the calls of the provider. */
  datatype Moment = Moment(log: seq<Event>, error: Option<StorageError>, reliable: bool, clock: nat, calls: nat)

  ghost function Now(log: Log, w: World): (m: Moment)
    reads log, log.Sink(), w
    ensures m.reliable ==> m.error == None
  {
    Moment(log.events, log.storageErr, log.Reliable(), w.clock, |w.calls|)
  }

  /** An append of the program's own: it happens unless the log latches, and the log does not latch if storage works. */
  ghost predicate Put(a: Moment, b: Moment, bodies: seq<Body>) {
    && b.clock == a.clock && b.calls == a.calls && (a.reliable ==> b.reliable) && (b.error == None ==> a.error == None)
    && b.log == if b.error == None then Extend(a.log, bodies) else a.log
  }

  /** The hooks of one point were called. */
  ghost predicate HooksCalled(o: Oracles, a: Moment, b: Moment, unwound: bool) {
    var answer := o.hook(a.clock);
    && b.clock == a.clock + 1 && b.calls == a.calls && unwound == answer.failTurn && (a.reliable ==> b.reliable)
    && (b.error == None ==> b.log == Extend(a.log, answer.appends + if unwound then [HOOK_PANIC] else []))
    && (answer.appends == [] && !unwound ==> b.log == a.log && b.error == a.error)
    && a.log <= b.log && (b.error == None ==> a.error == None)
  }

  /** No tool use was handed out twice, and what was handed out has its result. */
  ghost predicate HandledOnce(s: Snapshot) {
    && IDsDiffer(s.handled)
    && (forall i :: 0 <= i < |s.handled| ==> HasResult(s.log, UseID(s.handled[i])))
  }

  ghost predicate IDsDiffer(handled: seq<Body>) {
    forall j, k :: 0 <= j < k < |handled| ==> UseID(handled[j]) != UseID(handled[k])
  }

  function UseID(b: Body): string { if b.ToolUse? then b.id else "" }

  ghost predicate CallsWereDisciplined(a: Snapshot, b: Snapshot) {
    forall i :: |a.calls| <= i < |b.calls| ==> Disciplined(b.calls[i])
  }

  /** What every operation guarantees: its steps were orderly, and no tool use was handed out twice. */
  ghost predicate Moved(a: Snapshot, b: Snapshot) {
    Stepped(a, b) && StaysOnce(a, b)
  }

  /** Nothing is handed out twice, as long as no id is used again while its use waits for its result. */
  ghost predicate StaysOnce(a: Snapshot, b: Snapshot) {
    !b.latched && UsesInTurn(b.log) && HandledOnce(a) ==> HandledOnce(b)
  }

  /** The log only grows, every provider call saw a ready log, the log moved by enabled steps, and the strict discipline
      held at every provider call. */
  ghost predicate Stepped(a: Snapshot, b: Snapshot) {
    && a.log <= b.log && a.calls <= b.calls && a.handled <= b.handled
    && (a.rogue ==> b.rogue) && (a.reckless ==> b.reckless)
    && (a.latched ==> b.latched && b.log == a.log)
    && (forall i :: |a.calls| <= i < |b.calls| ==> ProviderReady(b.calls[i]))
    && (!b.rogue && Sound(a.log) ==> Leads(a.log, b.log, false))
    && (!b.rogue && !b.reckless && Disciplined(a.log) ==> Leads(a.log, b.log, true) && CallsWereDisciplined(a, b))
  }

  lemma {:induction false} MovedNowhere(a: Snapshot)
    ensures Moved(a, a)
  {
    LeadsNowhere(a.log, false);
    LeadsNowhere(a.log, true);
  }

  lemma {:induction false} MovedOn(a: Snapshot, b: Snapshot, c: Snapshot)
    requires Moved(a, b) && Moved(b, c)
    ensures Moved(a, c)
  {
    SteppedOn(a, b, c);
    if UsesInTurn(c.log) {
      InTurnBefore(b.log, c.log);
    }
  }

  lemma {:induction false} SteppedOn(a: Snapshot, b: Snapshot, c: Snapshot)
    requires Stepped(a, b) && Stepped(b, c)
    ensures Stepped(a, c)
  {
    if !c.rogue && Sound(a.log) {
      ReachableLogsAreSound(a.log, b.log, false);
      LeadsOn(a.log, b.log, c.log, false);
    }
    if !c.rogue && !c.reckless && Disciplined(a.log) {
      ReachableLogsAreDisciplined(a.log, b.log);
      LeadsOn(a.log, b.log, c.log, true);
    }
  }

  lemma {:induction false} ResultsRemain(log: seq<Event>, after: seq<Event>)
    requires log <= after
    ensures forall id :: HasResult(log, id) ==> HasResult(after, id)
    ensures forall id :: HasUse(log, id) ==> HasUse(after, id)
  {
    forall id | HasResult(log, id)
      ensures HasResult(after, id)
    {
      var r :| ResultAt(log, r, id);
      assert ResultAt(after, r, id);
    }
    forall id | HasUse(log, id)
      ensures HasUse(after, id)
    {
      var u :| UseAt(log, u, id);
      assert UseAt(after, u, id);
    }
  }

  /** An append that amounts to one enabled step, or that the latch swallowed. */
  lemma {:induction false} MovedByStep(a: Snapshot, b: Snapshot, step: Step)
    requires b.log == if b.latched then a.log else Extend(a.log, Appends(step))
    requires a.latched ==> b.latched
    requires b.calls == a.calls && b.handled == a.handled && (a.rogue ==> b.rogue) && (a.reckless ==> b.reckless)
    requires !b.rogue && Sound(a.log) ==> Enabled(a.log, step, false)
    requires !b.rogue && !b.reckless && Disciplined(a.log) ==> Enabled(a.log, step, true)
    ensures Moved(a, b)
  {
    LeadsNowhere(a.log, false);
    LeadsNowhere(a.log, true);
    if !b.latched {
      if !b.rogue && Sound(a.log) {
        LeadsOnce(a.log, step, false);
      }
      if !b.rogue && !b.reckless && Disciplined(a.log) {
        LeadsOnce(a.log, step, true);
      }
      ResultsRemain(a.log, b.log);
    }
  }

  /** The same tool ids are used and answered in both logs. */
  ghost predicate SameTools(a: seq<Event>, b: seq<Event>) {
    && (forall id :: HasUse(a, id) <==> HasUse(b, id))
    && (forall id :: HasResult(a, id) <==> HasResult(b, id))
  }

  lemma {:induction false} SameToolsOn(a: seq<Event>, b: seq<Event>, c: seq<Event>)
    requires SameTools(a, b) && SameTools(b, c)
    ensures SameTools(a, c)
  {}

  lemma {:induction false} QuietKeepsTools(log: seq<Event>, after: seq<Event>)
    requires log <= after
    requires forall i :: |log| <= i < |after| ==> !IsToolEvent(after[i].body)
    ensures SameTools(log, after)
  {
    QuietAppend(log, after);
    ResultsRemain(log, after);
    forall id | HasResult(after, id)
      ensures HasResult(log, id)
    {
      var r :| ResultAt(after, r, id);
      assert ResultAt(log, r, id);
    }
    forall id | HasUse(after, id)
      ensures HasUse(log, id)
    {
      var r :| UseAt(after, r, id);
      assert UseAt(log, r, id);
    }
  }

  /** A move that runs no tool, calls no provider and uses or answers no tool id. */
  ghost predicate Quietly(a: Snapshot, b: Snapshot) {
    Moved(a, b) && b.calls == a.calls && b.handled == a.handled && (!b.rogue ==> SameTools(a.log, b.log))
  }

  lemma {:induction false} QuietlyOn(a: Snapshot, b: Snapshot, c: Snapshot)
    requires Quietly(a, b) && Quietly(b, c)
    ensures Quietly(a, c)
  {
    MovedOn(a, b, c);
  }

  lemma {:induction false} QuietlyNowhere(a: Snapshot)
    ensures Quietly(a, a)
  {
    MovedNowhere(a);
  }

  // ---------- Appends from outside ----------

  /** One event a hook or a handler appends on its own. */
  method AppendFromOutside(log: Log, w: World, body: Body)
    modifies log`events, log`storageErr, log.Sink(), w`rogue, w`reckless
    ensures Quietly(old(Snap(log, w)), Snap(log, w))
    ensures log.storageErr == None ==> log.events == Extend(old(log.events), [body])
    ensures log.storageErr.Some? ==> log.events == old(log.events)
    ensures old(log.Reliable()) ==> log.Reliable()
  {
    ghost var a := Snap(log, w);
    w.rogue := w.rogue || !Enabled(log.events, OutsideStep(body), false);
    w.reckless := w.reckless || !Enabled(log.events, OutsideStep(body), true);
    log.Append(body);
    OutsideIsQuiet(a, Snap(log, w), body);
  }

  /** How an event from outside would be appended, if it is one the program allows. */
  function OutsideStep(body: Body): Step {
    if body.Compact? || body.Revert? then Mutate(body) else Append(body)
  }

  lemma {:induction false} OutsideIsQuiet(a: Snapshot, b: Snapshot, body: Body)
    requires b.log == if b.latched then a.log else Extend(a.log, [body])
    requires a.latched ==> b.latched
    requires b.calls == a.calls && b.handled == a.handled
    requires b.rogue == (a.rogue || !Enabled(a.log, OutsideStep(body), false))
    requires b.reckless == (a.reckless || !Enabled(a.log, OutsideStep(body), true))
    ensures Quietly(a, b)
  {
    MovedByStep(a, b, OutsideStep(body));
    if !b.rogue {
      QuietKeepsTools(a.log, b.log);
    }
  }

  method AppendAllFromOutside(log: Log, w: World, bodies: seq<Body>)
    modifies log`events, log`storageErr, log.Sink(), w`rogue, w`reckless
    ensures Quietly(old(Snap(log, w)), Snap(log, w))
    ensures log.storageErr == None ==> log.events == Extend(old(log.events), bodies)
    ensures old(log.Reliable()) ==> log.Reliable()
    ensures bodies == [] ==> log.events == old(log.events) && log.storageErr == old(log.storageErr)
  {
    ghost var a := Snap(log, w);
    QuietlyNowhere(a);
    assert Extend(log.events, bodies[..0]) == log.events;
    for i := 0 to |bodies|
      invariant Quietly(a, Snap(log, w)) && (old(log.Reliable()) ==> log.Reliable())
      invariant log.storageErr == None ==> log.events == Extend(a.log, bodies[..i])
      invariant i == 0 ==> log.events == old(log.events) && log.storageErr == old(log.storageErr)
    {
      ghost var b := Snap(log, w);
      AppendFromOutside(log, w, bodies[i]);
      QuietlyOn(a, b, Snap(log, w));
      ExtendTwice(a.log, bodies[..i], [bodies[i]]);
      assert bodies[..i] + [bodies[i]] == bodies[..i + 1];
    }
    assert bodies[..|bodies|] == bodies;
  }

  ghost predicate TerminalErrorIn(log: seq<Event>) {
    exists i :: 0 <= i < |log| && log[i].body.RuntimeError? && log[i].body.terminal
  }

  /** The session has failed, or its log has latched before it could say so. */
  ghost predicate Failing(log: Log)
    reads log
  {
    TerminalErrorIn(log.events) || log.storageErr.Some?
  }

  lemma {:induction false} NowFailing(log: seq<Event>, error: Body)
    requires error.RuntimeError? && error.terminal
    ensures TerminalErrorIn(Extend(log, [error]))
  {
    assert Extend(log, [error])[|log|].body == error;
  }

  const HOOK_PANIC := RuntimeError("hook handler failed", true)

  /** All handlers registered at one hook point. A `fail_turn` panic is recorded and unwinds the turn. */
  method Invoke(log: Log, w: World) returns (decisions: seq<HookDecision>, unwound: bool)
    modifies log`events, log`storageErr, log.Sink(), w`rogue, w`reckless, w`clock
    ensures Quietly(old(Snap(log, w)), Snap(log, w))
    ensures !unwound ==> decisions == w.oracles.hook(old(w.clock)).decisions
    ensures HooksCalled(w.oracles, old(Now(log, w)), Now(log, w), unwound)
    ensures unwound ==> Failing(log)
  {
    var answer := w.oracles.hook(w.clock);
    w.clock := w.clock + 1;
    ghost var a := Snap(log, w);
    AppendAllFromOutside(log, w, answer.appends);
    unwound, decisions := answer.failTurn, answer.decisions;
    if unwound {
      ghost var b := Snap(log, w);
      AppendFromOutside(log, w, HOOK_PANIC);
      QuietlyOn(a, b, Snap(log, w));
      decisions := [];
      ExtendTwice(a.log, answer.appends, [HOOK_PANIC]);
      NowFailing(b.log, HOOK_PANIC);
    } else {
      assert answer.appends + [] == answer.appends;
    }
  }

  /** Several events of the program's own, all or none. */
  method AppendGroup(log: Log, bodies: seq<Body>)
    modifies log`events, log`storageErr, log.Sink()
    ensures log.events == if log.storageErr == None then Extend(old(log.events), bodies) else old(log.events)
    ensures old(log.storageErr.Some?) ==> log.storageErr.Some?
    ensures old(log.Reliable()) ==> log.Reliable()
  {
    var _ := log.AppendBatch(bodies);
  }

  /** A neutral event of the program's own. */
  method AppendNeutral(log: Log, w: World, body: Body)
    requires Neutral(body)
    modifies log`events, log`storageErr, log.Sink()
    ensures Quietly(old(Snap(log, w)), Snap(log, w))
    ensures log.storageErr == None ==> log.events == Extend(old(log.events), [body])
    ensures log.storageErr.Some? ==> log.events == old(log.events)
    ensures Put(old(Now(log, w)), Now(log, w), [body])
  {
    ghost var a := Snap(log, w);
    log.Append(body);
    MovedByStep(a, Snap(log, w), Append(body));
    QuietKeepsTools(a.log, log.events);
  }

  /** A use of the log that still waits for its result, unless something outside has broken the rules. */
  ghost predicate Waiting(log: Log, w: World, id: string)
    reads log, w
  {
    !w.rogue && Sound(log.events) ==> HasUse(log.events, id) && !HasResult(log.events, id)
  }

  /** A tool result of the program's own, for a use that has none. */
  method AppendResult(log: Log, w: World, id: string, output: string, error: string)
    requires Waiting(log, w, id)
    modifies log`events, log`storageErr, log.Sink()
    ensures Moved(old(Snap(log, w)), Snap(log, w))
    ensures log.storageErr == None ==> log.events == Extend(old(log.events), [ToolResult(id, output, error)])
    ensures log.storageErr.Some? ==> log.events == old(log.events)
  {
    ghost var a := Snap(log, w);
    log.Append(ToolResult(id, output, error));
    MovedByStep(a, Snap(log, w), Result(id, output, error));
  }
}
