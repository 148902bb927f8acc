/** Running one tool use: tools.go. */
module Tools {
  import opened Events
  import opened Integrity
  import opened Storage
  import opened Protocol
  import opened Environment

  /** What is registered under a name. */
  datatype Tool = SpawnAgent | RaiseError | EchoConfig(config: string) | Callable | WithoutHandler(handler: string)

  ghost predicate EndsWithResult(before: seq<Event>, after: seq<Event>, id: string) {
    |after| > |before| && ResultAt(after, |after| - 1, id)
  }

  /** One tool use was run: unless the log latched, its one result is the last event, and nothing
      before that result used or answered any tool id. */
  ghost predicate Ran(a: Snapshot, b: Snapshot, use: Body, handled: bool) {
    && Stepped(a, b) && b.calls == a.calls && use.ToolUse?
    && b.handled == (if handled then a.handled + [use] else a.handled)
    && (!b.latched ==> EndsWithResult(a.log, b.log, use.id) && (!b.rogue ==> SameTools(a.log, b.log[..|b.log| - 1])))
    && (b.latched && !b.rogue ==> SameTools(a.log, b.log))
  }

  /** What a run reports: output and error. */
  datatype Outcome = Outcome(output: string, error: string)

  ghost predicate Reports(log: seq<Event>, use: Body, outcome: Outcome) {
    use.ToolUse? && log != [] && log[|log| - 1].body == ToolResult(use.id, outcome.output, outcome.error)
  }

  datatype Runner = Runner(registry: map<string, Tool>) {

    /** Whether a use of this name reaches a handler. */
    predicate Calls(name: string) { name in registry && registry[name].Callable? }

    /** Whether a use spawns a child: only with a task. */
    predicate Spawns(use: Body)
      requires use.ToolUse?
    {
      use.name in registry && registry[use.name].SpawnAgent? && "task" in use.arguments && use.arguments["task"] != ""
    }

    /** What becomes of a use when the outside is asked from moment `tick` on. */
    function OutcomeOf(use: Body, o: Oracles, tick: nat): (r: Outcome)
      requires use.ToolUse?
      ensures use.name !in registry ==> r.error == "unknown tool: " + use.name
      ensures Calls(use.name) ==>
              r.error == ErrorOf(o.handler(tick)) && r.output == OutputOf(o.handler(tick))
      ensures r.error == "" <==>
              || Spawns(use) || (use.name in registry && registry[use.name].EchoConfig?)
              || (Calls(use.name) && ErrorOf(o.handler(tick)) == "")
      ensures r.error != "" ==> r.output == ""
    {
      if use.name !in registry then Outcome("", "unknown tool: " + use.name)
      else match registry[use.name]
        case SpawnAgent =>
          if Spawns(use) then Spawned("spn_" + o.newID(tick), "ses_" + o.newID(tick + 1))
          else Outcome("", "missing required argument: task")
        case RaiseError => Outcome("", "RuntimeError: conformance tool error")
        case EchoConfig(config) => Outcome("[conformance config: " + config + "]", "")
        case WithoutHandler(handler) => Outcome("", "unresolved tool handler: " + handler)
        case Callable => Reported(o.handler(tick))
    }

    /** What a run appends before its result: the child it spawns, or whatever the handler appends. */
    function Before(use: Body, o: Oracles, tick: nat): (r: seq<Body>)
      requires use.ToolUse?
      ensures r == [] || Calls(use.name) || Spawns(use)
    {
      if Spawns(use) then [AgentSpawn("spn_" + o.newID(tick), "ses_" + o.newID(tick + 1))]
      else if Calls(use.name) then o.handler(tick).appends
      else []
    }

    /** The log after the run of a use: what comes before the result, and the result. */
    ghost predicate Wrote(before: seq<Event>, after: seq<Event>, use: Body, o: Oracles, tick: nat)
      requires use.ToolUse?
    {
      var outcome := OutcomeOf(use, o, tick);
      after == Extend(before, Before(use, o, tick) + [ToolResult(use.id, outcome.output, outcome.error)])
    }

    /** What that is: the record of a child and both its ids; the handler's own events and its output or its error; or
        just why no handler was asked. */
    lemma {:induction false} WroteMeans(before: seq<Event>, after: seq<Event>, use: Body, o: Oracles, tick: nat)
      requires use.ToolUse? && Wrote(before, after, use, o, tick)
      ensures Calls(use.name) ==>
                var answer := o.handler(tick);
                after == Extend(before, answer.appends + [
                  if answer.result.Success? then ToolResult(use.id, answer.result.value, "")
                  else ToolResult(use.id, "", answer.result.error)])
      ensures Spawns(use) ==> SpawnedAt(before, after, use, "spn_" + o.newID(tick), "ses_" + o.newID(tick + 1))
      ensures !Calls(use.name) && !Spawns(use) ==>
                var outcome := OutcomeOf(use, o, tick);
                after == Extend(before, [ToolResult(use.id, outcome.output, outcome.error)])
    {
      var outcome := OutcomeOf(use, o, tick);
      var result := ToolResult(use.id, outcome.output, outcome.error);
      if Spawns(use) {
        assert Before(use, o, tick) + [result] == [Before(use, o, tick)[0], result];
      } else if !Calls(use.name) {
        assert [] + [result] == [result];
      }
    }

    /** Whatever is registered, the run ends with exactly one result for the use, unless the log has latched. */
    method Run(use: Body, log: Log, w: World)
      requires use.ToolUse? && Waiting(log, w, use.id)
      modifies log`events, log`storageErr, log.Sink(), w`rogue, w`reckless, w`clock, w`handled
      ensures Ran(old(Snap(log, w)), Snap(log, w), use, Calls(use.name))
      ensures log.storageErr == None ==> Wrote(old(log.events), log.events, use, w.oracles, old(w.clock))
      ensures log.storageErr == None ==> Reports(log.events, use, OutcomeOf(use, w.oracles, old(w.clock)))
      ensures w.clock >= old(w.clock)
    {
      if use.name !in registry {
        Finish(use, log, w, Outcome("", "unknown tool: " + use.name), false);
        return;
      }
      var tool := registry[use.name];
      if tool.SpawnAgent? {
        Spawn(use, log, w);
      } else if tool.Callable? {
        Call(use, log, w);
      } else if tool.RaiseError? {
        Finish(use, log, w, Outcome("", "RuntimeError: conformance tool error"), false);
      } else if tool.EchoConfig? {
        Finish(use, log, w, Outcome("[conformance config: " + tool.config + "]", ""), false);
      } else {
        Finish(use, log, w, Outcome("", "unresolved tool handler: " + tool.handler), false);
      }
    }

    method Call(use: Body, log: Log, w: World)
      requires use.ToolUse? && Waiting(log, w, use.id) && Calls(use.name)
      modifies log`events, log`storageErr, log.Sink(), w`rogue, w`reckless, w`clock, w`handled
      ensures Ran(old(Snap(log, w)), Snap(log, w), use, true)
      ensures log.storageErr == None ==> Wrote(old(log.events), log.events, use, w.oracles, old(w.clock))
      ensures log.storageErr == None ==> Reports(log.events, use, OutcomeOf(use, w.oracles, old(w.clock)))
      ensures w.clock >= old(w.clock)
    {
      ghost var a := Snap(log, w);
      var outcome := AskHandler(log, w);
      ghost var b := Snap(log, w);
      StillWaiting(a, b, use.id);
      Finish(use, log, w, outcome, true);
      RanAfterQuiet(a, b, Snap(log, w), use, true);
      ExtendTwice(a.log, w.oracles.handler(old(w.clock)).appends, [ToolResult(use.id, outcome.output, outcome.error)]);
    }

    /** The handler appends what it likes and answers. */
    method AskHandler(log: Log, w: World) returns (outcome: Outcome)
      modifies log`events, log`storageErr, log.Sink(), w`rogue, w`reckless, w`clock
      ensures Quietly(old(Snap(log, w)), Snap(log, w))
      ensures log.storageErr == None ==> log.events == Extend(old(log.events), w.oracles.handler(old(w.clock)).appends)
      ensures outcome == Reported(w.oracles.handler(old(w.clock)))
      ensures w.clock >= old(w.clock)
    {
      var answer := w.oracles.handler(w.clock);
      w.clock := w.clock + 1;
      AppendAllFromOutside(log, w, answer.appends);
      outcome := Outcome(OutputOf(answer), ErrorOf(answer));
    }

    /** A child session is recorded before the result. Its own log is not part of this model. */
    method Spawn(use: Body, log: Log, w: World)
      requires use.ToolUse? && Waiting(log, w, use.id) && use.name in registry && registry[use.name].SpawnAgent?
      modifies log`events, log`storageErr, log.Sink(), w`clock, w`handled
      ensures Ran(old(Snap(log, w)), Snap(log, w), use, false)
      ensures log.storageErr == None ==> Wrote(old(log.events), log.events, use, w.oracles, old(w.clock))
      ensures log.storageErr == None ==> Reports(log.events, use, OutcomeOf(use, w.oracles, old(w.clock)))
      ensures log.storageErr == None ==>
                if "task" in use.arguments && use.arguments["task"] != "" then
                  SpawnedAt(old(log.events), log.events, use, "spn_" + w.oracles.newID(old(w.clock)),
                            "ses_" + w.oracles.newID(old(w.clock) + 1))
                else log.events == Extend(old(log.events),
                                          [ToolResult(use.id, "", "missing required argument: task")])
      ensures w.clock >= old(w.clock)
    {
      if "task" !in use.arguments || use.arguments["task"] == "" {
        Finish(use, log, w, Outcome("", "missing required argument: task"), false);
        return;
      }
      var spawnID, childID := "spn_" + w.oracles.newID(w.clock), "ses_" + w.oracles.newID(w.clock + 1);
      w.clock := w.clock + 2;
      RecordSpawn(use, log, w, spawnID, childID);
    }

    method RecordSpawn(use: Body, log: Log, w: World, spawnID: string, childID: string)
      requires use.ToolUse? && Waiting(log, w, use.id)
      modifies log`events, log`storageErr, log.Sink(), w`handled
      ensures Ran(old(Snap(log, w)), Snap(log, w), use, false)
      ensures log.storageErr == None ==> SpawnedAt(old(log.events), log.events, use, spawnID, childID)
      ensures log.storageErr == None ==> Reports(log.events, use, Spawned(spawnID, childID))
    {
      ghost var a := Snap(log, w);
      AppendNeutral(log, w, AgentSpawn(spawnID, childID));
      ghost var b := Snap(log, w);
      StillWaiting(a, b, use.id);
      Finish(use, log, w, Spawned(spawnID, childID), false);
      RanAfterQuiet(a, b, Snap(log, w), use, false);
      if log.storageErr == None {
        SpawnThenResult(a.log, b.log, log.events, use, spawnID, childID);
      }
    }

    /** Appends the one result of `use`. */
    method Finish(use: Body, log: Log, w: World, outcome: Outcome, handled: bool)
      requires use.ToolUse? && Waiting(log, w, use.id)
      modifies log`events, log`storageErr, log.Sink(), w`handled
      ensures Ran(old(Snap(log, w)), Snap(log, w), use, handled)
      ensures log.storageErr == None ==>
              log.events == Extend(old(log.events), [ToolResult(use.id, outcome.output, outcome.error)])
      ensures log.storageErr == None ==> Reports(log.events, use, outcome)
    {
      ghost var a := Snap(log, w);
      AppendResult(log, w, use.id, outcome.output, outcome.error);
      FinishedIsRan(a, Snap(log, w), use, outcome, handled);
      if handled {
        w.handled := w.handled + [use];
      }
    }
  }

  function OutputOf(answer: HandlerAnswer): string {
    if answer.result.Success? then answer.result.value else ""
  }

  function ErrorOf(answer: HandlerAnswer): string {
    if answer.result.Failure? then answer.result.error else ""
  }

  /** What a handler's answer reports: its output and no error, or its error and no output. */
  function Reported(answer: HandlerAnswer): (r: Outcome)
    ensures answer.result.Success? ==> answer.result.value == r.output && r.error == ""
    ensures answer.result.Failure? ==> answer.result.error == r.error && r.output == ""
  {
    Outcome(OutputOf(answer), ErrorOf(answer))
  }

  /** The child is recorded, and then the use is answered with both ids. */
  ghost predicate SpawnedAt(before: seq<Event>, after: seq<Event>, use: Body, spawnID: string, childID: string)
    requires use.ToolUse?
  {
    after == Extend(before, [AgentSpawn(spawnID, childID),
                             ToolResult(use.id, spawnID + " " + childID + " spawned", "")])
  }

  lemma {:induction false} SpawnThenResult(before: seq<Event>, mid: seq<Event>, after: seq<Event>, use: Body,
                                           spawnID: string, childID: string)
    requires use.ToolUse? && mid == Extend(before, [AgentSpawn(spawnID, childID)])
    requires var outcome := Spawned(spawnID, childID);
             after == Extend(mid, [ToolResult(use.id, outcome.output, outcome.error)])
    ensures SpawnedAt(before, after, use, spawnID, childID)
  {
    ExtendOneByOne(before, mid, after, AgentSpawn(spawnID, childID),
                   ToolResult(use.id, spawnID + " " + childID + " spawned", ""));
  }

  /** What spawning reports. */
  function Spawned(spawnID: string, childID: string): Outcome {
    Outcome(spawnID + " " + childID + " spawned", "")
  }

  lemma {:induction false} FinishedIsRan(a: Snapshot, b: Snapshot, use: Body, outcome: Outcome, handled: bool)
    requires Stepped(a, b) && b.calls == a.calls && b.handled == a.handled && b.rogue == a.rogue && use.ToolUse?
    requires b.log == if b.latched then a.log else Extend(a.log, [ToolResult(use.id, outcome.output, outcome.error)])
    ensures Ran(a, if handled then b.(handled := a.handled + [use]) else b, use, handled)
    ensures !b.latched ==> Reports(b.log, use, outcome)
  {
    if !b.latched {
      assert b.log[..|b.log| - 1] == a.log;
      assert ResultAt(b.log, |a.log|, use.id);
    }
  }

  lemma {:induction false} StillWaiting(a: Snapshot, b: Snapshot, id: string)
    requires Quietly(a, b)
    requires !a.rogue && Sound(a.log) ==> HasUse(a.log, id) && !HasResult(a.log, id)
    ensures !b.rogue && Sound(b.log) ==> HasUse(b.log, id) && !HasResult(b.log, id)
  {
    if Sound(b.log) {
      ForksAreSound(b.log, |a.log|);
      assert b.log[..|a.log|] == a.log;
    }
  }

  /** Quiet appends before a run belong to the run. */
  lemma {:induction false} RanAfterQuiet(a: Snapshot, b: Snapshot, c: Snapshot, use: Body, handled: bool)
    requires Quietly(a, b)
    requires Ran(b, c, use, handled)
    ensures Ran(a, c, use, handled)
  {
    SteppedOn(a, b, c);
  }
}
