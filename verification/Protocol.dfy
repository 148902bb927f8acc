/** The session log as a state machine: which appends the program makes, and what every reachable log satisfies. */
module Protocol {
  import opened Events
  import opened Mutations
  import opened Integrity
  import opened Visibility
  import opened Compaction
  import opened Storage

  // ---------- A provider's step, closed ----------

  /** Kinds that concern neither pairing nor mutation. */
  predicate Neutral(b: Body) {
    !b.AssistantMessage? && !IsToolEvent(b) && !b.Compact? && !b.Revert?
  }

  function ToolUses(bodies: seq<Body>): (r: seq<Body>)
    ensures forall b :: b in r <==> b in bodies && b.ToolUse?
  {
    if bodies == [] then []
    else ToolUses(bodies[..|bodies| - 1]) + if bodies[|bodies| - 1].ToolUse? then [bodies[|bodies| - 1]] else []
  }

  predicate IncompleteResult(result: Body, use: Body) {
    use.ToolUse? && result.ToolResult? && result.id == use.id && result.output == "" && result.error != ""
  }

  /** The answer as it is appended: unless the model stopped for its tools, each use is answered by an error result. */
  ghost predicate Closes(bodies: seq<Body>, stop: string, staged: seq<Body>) {
    var uses := ToolUses(bodies);
    && bodies <= staged
    && if stop == "tool_use" then staged == bodies
       else |staged| == |bodies| + |uses| && forall i :: 0 <= i < |uses| ==>
           IncompleteResult(staged[|bodies| + i], uses[i])
  }

  ghost predicate UseIn(bodies: seq<Body>, i: int, id: string) {
    0 <= i < |bodies| && bodies[i].ToolUse? && bodies[i].id == id
  }

  /** What a provider's answer must be to enter the log: exactly one assistant message, which names a stop reason and
      precedes every tool use; uses with names and distinct non-empty ids; no results. */
  ghost predicate WellFormedAnswer(bodies: seq<Body>, stop: string) {
    && (exists a :: MessageFirst(bodies, stop, a))
    && (forall i, id :: UseIn(bodies, i, id) ==> id != "" && bodies[i].name != "")
    && (forall i, j, id :: UseIn(bodies, i, id) && UseIn(bodies, j, id) ==> i == j)
    && (forall b :: b in bodies ==> !b.ToolResult?)
    && stop != ""
    && (stop == "tool_use" ==> ToolUses(bodies) != [])
  }

  /** The one assistant message is at `a`, before every use, and names the stop reason. */
  ghost predicate MessageFirst(bodies: seq<Body>, stop: string, a: int) {
    && IsOnlyAssistant(bodies, a) && bodies[a].stopReason == stop
    && forall i, id :: UseIn(bodies, i, id) ==> a < i
  }

  ghost predicate IsOnlyAssistant(bodies: seq<Body>, a: int) {
    && 0 <= a < |bodies| && bodies[a].AssistantMessage?
    && forall i :: 0 <= i < |bodies| && bodies[i].AssistantMessage? ==> i == a
  }

  /** No id the answer uses is in the log already. */
  ghost predicate FreshIDs(log: seq<Event>, bodies: seq<Body>) {
    forall i, id :: UseIn(bodies, i, id) ==> !HasUse(log, id)
  }

  /** The shape every built-in provider produces: the assistant message, then its tool uses. */
  ghost predicate Builtin(bodies: seq<Body>) {
    && bodies != [] && bodies[0].AssistantMessage?
    && forall i :: 1 <= i < |bodies| ==> bodies[i].ToolUse?
  }

  // ---------- Steps ----------

  ghost predicate NoPending(log: seq<Event>) {
    forall u, id :: UseAt(log, u, id) ==> HasResult(log, id)
  }

  ghost predicate SafeCompact(log: seq<Event>, covers: seq<int>) {
    && covers != [] && PairSafe(log, SetOf(covers))
    && forall x :: x in covers ==> 0 <= x < |log|
  }

  /** Nothing in the answer reverts, or compacts a tool pair apart. */
  ghost predicate RespectsPairs(log: seq<Event>, bodies: seq<Body>) {
    forall b :: b in bodies ==> !b.Revert? && (b.Compact? && b.covers != [] ==> SafeCompact(log, b.covers))
  }

  datatype Step =
    | Append(body: Body)                       // a user message, an error, an approval event, an annotation, ...
    | Mutate(body: Body)                       // a compact or a revert
    | Result(id: string, output: string, error: string)
    | ProviderStep(bodies: seq<Body>, stop: string, staged: seq<Body>)

  /** The events a step appends. */
  function Appends(step: Step): seq<Body> {
    match step
    case Append(b) => [b]
    case Mutate(b) => [b]
    case Result(id, output, error) => [ToolResult(id, output, error)]
    case ProviderStep(_, _, staged) => staged
  }

  /** When a step may be taken. The strict discipline also asks that compactions come from a pair-safe strategy
      and that the provider was called with nothing pending. */
  ghost predicate Enabled(log: seq<Event>, step: Step, strict: bool) {
    match step
    case Append(b) => Neutral(b)
    case Mutate(b) => (b.Compact? || b.Revert?) && (strict ==> b.Compact? && SafeCompact(log, b.covers))
    case Result(id, _, _) => HasUse(log, id) && !HasResult(log, id)
    case ProviderStep(bodies, stop, staged) =>
      && WellFormedAnswer(bodies, stop) && Closes(bodies, stop, staged) && FreshIDs(log, bodies)
      && (strict ==> RespectsPairs(log, bodies) && NoPending(log))
  }

  /** Some sequence of enabled steps leads from one log to the other. */
  ghost predicate Leads(before: seq<Event>, after: seq<Event>, strict: bool) {
    exists steps :: LeadsBy(before, steps, after, Rule(strict))
  }

  /** The rule that says which steps may be taken from which log. */
  ghost function Rule(strict: bool): (seq<Event>, Step) -> bool {
    (log, step) => Enabled(log, step, strict)
  }

  /** The steps, each allowed by the rule, lead from one log to the other. */
  ghost predicate LeadsBy(before: seq<Event>, steps: seq<Step>, after: seq<Event>,
                          allowed: (seq<Event>, Step) -> bool)
    decreases |steps|
  {
    if steps == [] then before == after
    else allowed(before, steps[0]) && LeadsBy(Extend(before, Appends(steps[0])), steps[1..], after, allowed)
  }

  lemma {:induction false} LeadsNowhere(log: seq<Event>, strict: bool)
    ensures Leads(log, log, strict)
  {
    assert LeadsBy(log, [], log, Rule(strict));
  }

  lemma {:induction false} LeadsOnce(log: seq<Event>, step: Step, strict: bool)
    requires Enabled(log, step, strict)
    ensures Leads(log, Extend(log, Appends(step)), strict)
  {
    var after := Extend(log, Appends(step));
    assert LeadsBy(after, [], after, Rule(strict)) && [step][1..] == [];
    assert LeadsBy(log, [step], after, Rule(strict));
  }

  lemma {:induction false} LeadsOn(a: seq<Event>, b: seq<Event>, c: seq<Event>, strict: bool)
    requires Leads(a, b, strict) && Leads(b, c, strict)
    ensures Leads(a, c, strict)
  {
    var first :| LeadsBy(a, first, b, Rule(strict));
    var second :| LeadsBy(b, second, c, Rule(strict));
    Concatenate(a, first, b, second, c, Rule(strict));
  }

  lemma {:induction false} Concatenate(a: seq<Event>, first: seq<Step>, b: seq<Event>, second: seq<Step>,
                                       c: seq<Event>, allowed: (seq<Event>, Step) -> bool)
    requires LeadsBy(a, first, b, allowed) && LeadsBy(b, second, c, allowed)
    ensures LeadsBy(a, first + second, c, allowed)
    decreases |first|
  {
    if first == [] {
      assert first + second == second;
    } else {
      Concatenate(Extend(a, Appends(first[0])), first[1..], b, second, c, allowed);
      assert (first + second)[0] == first[0] && (first + second)[1..] == first[1..] + second;
    }
  }

  // ---------- What a step adds ----------

  lemma {:induction false} WhereUsesAre(bodies: seq<Body>) returns (at: seq<nat>)
    ensures |at| == |ToolUses(bodies)|
    ensures forall k :: 0 <= k < |at| ==>
            at[k] < |bodies| && ToolUses(bodies)[k] == bodies[at[k]] && bodies[at[k]].ToolUse?
    ensures forall j, k :: 0 <= j < k < |at| ==> at[j] < at[k]
    ensures forall i :: 0 <= i < |bodies| && bodies[i].ToolUse? ==> i in at
  {
    if bodies == [] {
      at := [];
    } else {
      assert bodies == bodies[..|bodies| - 1] + [bodies[|bodies| - 1]];
      at := WhereUsesAre(bodies[..|bodies| - 1]);
      if bodies[|bodies| - 1].ToolUse? {
        at := at + [|bodies| - 1];
      }
    }
  }

  /** The tool events of the log after a provider's step are those of the log, the answer's uses, and one error
      result per use unless the model stopped for its tools. */
  ghost predicate Added(log: seq<Event>, bodies: seq<Body>, answered: bool, after: seq<Event>) {
    && log <= after
    && (forall i, id :: UseAt(after, i, id) <==> UseAt(log, i, id) || UseIn(bodies, i - |log|, id))
    && (forall i, id :: ResultAt(after, i, id) ==> ResultAt(log, i, id) || i >= |log| + |bodies|)
    && (forall i, id :: ResultAt(log, i, id) ==> ResultAt(after, i, id))
    && (forall i, id :: ResultAt(after, i, id) && i >= |log| ==> answered && exists k :: UseIn(bodies, k, id))
    && (forall i, j, id :: ResultAt(after, i, id) && ResultAt(after, j, id) && |log| <= i && |log| <= j ==> i == j)
    && (answered ==> forall k, id :: UseIn(bodies, k, id) ==> exists i :: ResultAt(after, i, id) && i >= |log|)
  }

  /** Behind the answer itself stand only error results: the `k`-th for the use at `at[k]`. */
  ghost predicate Layout(bodies: seq<Body>, at: seq<nat>, answered: bool, staged: seq<Body>) {
    && bodies <= staged
    && |staged| == |bodies| + (if answered then |at| else 0)
    && (forall k :: 0 <= k < |at| ==> at[k] < |bodies| && bodies[at[k]].ToolUse?)
    && (forall j, k :: 0 <= j < k < |at| ==> at[j] < at[k])
    && (forall i :: 0 <= i < |bodies| && bodies[i].ToolUse? ==> i in at)
    && (forall i :: |bodies| <= i < |staged| ==> IncompleteResult(staged[i], bodies[at[i - |bodies|]]))
  }

  lemma {:induction false} LayoutOf(bodies: seq<Body>, stop: string, staged: seq<Body>) returns (at: seq<nat>)
    requires Closes(bodies, stop, staged)
    ensures Layout(bodies, at, stop != "tool_use", staged)
  {
    at := WhereUsesAre(bodies);
    forall i | |bodies| <= i < |staged|
      ensures IncompleteResult(staged[i], bodies[at[i - |bodies|]])
    {
      var k := i - |bodies|;
      assert staged[|bodies| + k] == staged[i];
    }
  }

  lemma {:induction false} ProviderStepAdds(log: seq<Event>, bodies: seq<Body>, stop: string, staged: seq<Body>)
    requires WellFormedAnswer(bodies, stop) && Closes(bodies, stop, staged)
    ensures Added(log, bodies, stop != "tool_use", Extend(log, staged))
  {
    var at := LayoutOf(bodies, stop, staged);
    LayoutAddsUses(log, bodies, at, stop != "tool_use", staged);
    LayoutAddsResults(log, bodies, stop, at, staged);
  }

  lemma {:induction false} LayoutAddsUses(log: seq<Event>, bodies: seq<Body>, at: seq<nat>, answered: bool,
                                          staged: seq<Body>)
    requires Layout(bodies, at, answered, staged)
    ensures var after := Extend(log, staged);
            forall i, id :: UseAt(after, i, id) <==> UseAt(log, i, id) || UseIn(bodies, i - |log|, id)
  {
    var after := Extend(log, staged);
    forall i, id
      ensures UseAt(after, i, id) <==> UseAt(log, i, id) || UseIn(bodies, i - |log|, id)
    {
      if |log| <= i < |after| {
        assert after[i].body == staged[i - |log|];
        assert i - |log| < |bodies| ==> staged[i - |log|] == bodies[i - |log|];
      }
    }
  }

  lemma {:induction false} LayoutAddsResults(log: seq<Event>, bodies: seq<Body>, stop: string, at: seq<nat>,
                                             staged: seq<Body>)
    requires WellFormedAnswer(bodies, stop) && Layout(bodies, at, stop != "tool_use", staged)
    ensures var after := Extend(log, staged);
            && (forall i, id :: ResultAt(log, i, id) ==> ResultAt(after, i, id))
            && (forall i, id :: ResultAt(after, i, id) && i < |log| ==> ResultAt(log, i, id))
            && (forall i, id :: ResultAt(after, i, id) && i >= |log| ==>
                  stop != "tool_use" && i >= |log| + |bodies| && UseIn(bodies, at[i - |log| - |bodies|], id))
            && (forall i, j, id :: ResultAt(after, i, id) && ResultAt(after, j, id) && |log| <= i && |log| <= j ==>
              i == j)
            && (stop != "tool_use" ==>
              forall k, id :: UseIn(bodies, k, id) ==> exists i :: ResultAt(after, i, id) && i >= |log|)
  {
    var after := Extend(log, staged);
    assert forall k :: 0 <= k < |bodies| ==> staged[k] == bodies[k] && bodies[k] in bodies;
    forall i, id | ResultAt(after, i, id) && i >= |log|
      ensures stop != "tool_use" && i >= |log| + |bodies| && UseIn(bodies, at[i - |log| - |bodies|], id)
    {
      assert after[i].body == staged[i - |log|];
    }
    if stop != "tool_use" {
      forall k, id | UseIn(bodies, k, id)
        ensures exists i :: ResultAt(after, i, id) && i >= |log|
      {
        var j :| 0 <= j < |at| && at[j] == k;
        assert after[|log| + |bodies| + j].body == staged[|bodies| + j];
        assert ResultAt(after, |log| + |bodies| + j, id);
      }
    }
  }

  // ---------- Referential integrity of every reachable log ----------

  ghost predicate Sound(log: seq<Event>) {
    Dense(log) && ReferencesSound(log)
  }

  /** An id is used again only after its earlier use has its result. */
  ghost predicate UsesInTurn(log: seq<Event>) {
    forall i, j, id :: UseAt(log, i, id) && UseAt(log, j, id) && i < j ==> EarlierResult(log, j, id)
  }

  lemma {:induction false} InTurnBefore(log: seq<Event>, after: seq<Event>)
    requires log <= after && UsesInTurn(after)
    ensures UsesInTurn(log)
  {
    forall i, j, id | UseAt(log, i, id) && UseAt(log, j, id) && i < j
      ensures EarlierResult(log, j, id)
    {
      assert UseAt(after, i, id) && UseAt(after, j, id);
      var r :| r < j && ResultAt(after, r, id);
      assert ResultAt(log, r, id);
    }
  }

  lemma {:induction false} AddedIsSound(log: seq<Event>, bodies: seq<Body>, stop: string, answered: bool,
                                        after: seq<Event>)
    requires Sound(log) && Dense(after)
    requires WellFormedAnswer(bodies, stop) && FreshIDs(log, bodies)
    requires Added(log, bodies, answered, after)
    ensures Sound(after)
  {
    assert forall i, id :: ResultAt(log, i, id) ==> HasUse(log, id);
    forall i, id | ResultAt(after, i, id)
      ensures UsedBefore(after, i, id)
    {
      if i < |log| {
        var u :| UseAt(log, u, id) && log[u].seqNo < log[i].seqNo;
        assert UseAt(after, u, id);
      } else {
        var k :| UseIn(bodies, k, id);
        assert UseAt(after, |log| + k, id);
      }
    }
    forall i, j, id | UseAt(after, i, id) && UseAt(after, j, id)
      ensures i == j
    {
      if UseIn(bodies, i - |log|, id) || UseIn(bodies, j - |log|, id) {
        assert !HasUse(log, id);
      }
    }
  }

  /** An answer keeps a sound log sound exactly when it reuses no id of the log. */
  lemma {:induction false} SoundIffFresh(log: seq<Event>, bodies: seq<Body>, stop: string, staged: seq<Body>)
    requires Sound(log) && WellFormedAnswer(bodies, stop) && Closes(bodies, stop, staged)
    ensures Sound(Extend(log, staged)) <==> FreshIDs(log, bodies)
  {
    var after := Extend(log, staged);
    ProviderStepAdds(log, bodies, stop, staged);
    if FreshIDs(log, bodies) {
      AddedIsSound(log, bodies, stop, stop != "tool_use", after);
    }
    if Sound(after) {
      forall i, id | UseIn(bodies, i, id)
        ensures !HasUse(log, id)
      {
        assert UseAt(after, |log| + i, id);
      }
    }
  }

  lemma {:induction false} ResultIsSound(log: seq<Event>, id: string, output: string, error: string)
    requires Sound(log) && HasUse(log, id) && !HasResult(log, id)
    ensures Sound(Extend(log, [ToolResult(id, output, error)]))
  {
    var after := Extend(log, [ToolResult(id, output, error)]);
    assert forall i :: 0 <= i < |log| ==> after[i] == log[i];
    assert forall i, x :: UseAt(after, i, x) <==> UseAt(log, i, x);
    assert forall i, x :: ResultAt(after, i, x) <==> ResultAt(log, i, x) || (i == |log| && x == id);
    forall i, x | ResultAt(after, i, x)
      ensures UsedBefore(after, i, x)
    {
      var u :| UseAt(log, u, x) && (i < |log| ==> log[u].seqNo < log[i].seqNo);
      assert UseAt(after, u, x);
    }
  }

  lemma {:induction false} StepKeepsSound(log: seq<Event>, step: Step)
    requires Sound(log) && Enabled(log, step, false)
    ensures Sound(Extend(log, Appends(step)))
  {
    var after := Extend(log, Appends(step));
    match step
    case Append(_) => QuietAppend(log, after);
    case Mutate(_) => QuietAppend(log, after);
    case Result(id, output, error) => ResultIsSound(log, id, output, error);
    case ProviderStep(bodies, stop, staged) =>
      ProviderStepAdds(log, bodies, stop, staged);
      AddedIsSound(log, bodies, stop, stop != "tool_use", after);
  }

  lemma {:induction false} StrictIsLax(log: seq<Event>, step: Step)
    requires Enabled(log, step, true)
    ensures Enabled(log, step, false)
  {}

  lemma {:induction false} StrictRunIsLax(before: seq<Event>, steps: seq<Step>, after: seq<Event>)
    requires LeadsBy(before, steps, after, Rule(true))
    ensures LeadsBy(before, steps, after, Rule(false))
    decreases |steps|
  {
    if steps != [] {
      StrictIsLax(before, steps[0]);
      StrictRunIsLax(Extend(before, Appends(steps[0])), steps[1..], after);
    }
  }

  /** With fresh provider ids, no run of the program ever makes the raw log referentially unsound,
      whatever the host compacts and reverts. */
  lemma {:induction false} ReachableLogsAreSound(before: seq<Event>, after: seq<Event>, strict: bool)
    requires Sound(before) && Leads(before, after, strict)
    ensures Sound(after) && before <= after
  {
    var steps :| LeadsBy(before, steps, after, Rule(strict));
    RunKeepsSound(before, steps, after, strict);
  }

  lemma {:induction false} RunKeepsSound(before: seq<Event>, steps: seq<Step>, after: seq<Event>, strict: bool)
    requires Sound(before) && LeadsBy(before, steps, after, Rule(strict))
    ensures Sound(after) && before <= after
    decreases |steps|
  {
    if steps != [] {
      if strict {
        StrictIsLax(before, steps[0]);
      }
      StepKeepsSound(before, steps[0]);
      RunKeepsSound(Extend(before, Appends(steps[0])), steps[1..], after, strict);
    }
  }

  /** A fork's log, being a prefix, is sound too. */
  lemma {:induction false} ForksAreSound(log: seq<Event>, n: nat)
    requires Sound(log) && n <= |log|
    ensures Sound(log[..n])
  {
    var fork := log[..n];
    assert forall i, id :: UseAt(fork, i, id) <==> i < n && UseAt(log, i, id);
    assert forall i, id :: ResultAt(fork, i, id) <==> i < n && ResultAt(log, i, id);
    forall i, id | ResultAt(fork, i, id)
      ensures UsedBefore(fork, i, id)
    {
      var u :| UseAt(log, u, id) && log[u].seqNo < log[i].seqNo;
      assert UseAt(fork, u, id);
    }
  }

  // ---------- The strict discipline ----------

  predicate AssistantRole(b: Body) { b.AssistantMessage? || b.ToolUse? }

  predicate UserRole(b: Body) { b.UserMessage? || b.Summary? || b.ToolResult? }

  ghost predicate StopsForTools(log: seq<Event>, a: int) {
    LastAssistantAt(log, a) && log[a].body.stopReason == "tool_use"
  }

  /** Every pending use comes after the last assistant message, which stopped for its tools. */
  ghost predicate PendingAtTheEnd(log: seq<Event>) {
    forall u, id :: UseAt(log, u, id) && !HasResult(log, id) ==> exists a :: a < u && StopsForTools(log, a)
  }

  ghost predicate MessageAt(log: seq<Event>, a: int) {
    0 <= a < |log| && log[a].body.AssistantMessage?
  }

  ghost predicate MessageBetween(log: seq<Event>, i: int, j: int) {
    exists a :: i < a < j && MessageAt(log, a)
  }

  /** No answer begins before every earlier use has its result. */
  ghost predicate AnswersInTurn(log: seq<Event>) {
    forall u, a, id :: UseAt(log, u, id) && MessageAt(log, a) && u < a ==> EarlierResult(log, a, id)
  }

  /** Results come after their whole answer: a use after a result belongs to a later answer. */
  ghost predicate ResultsAfterAnswers(log: seq<Event>) {
    forall r, u, x, id :: ResultAt(log, r, x) && UseAt(log, u, id) && r < u ==> MessageBetween(log, r, u)
  }

  ghost predicate Disciplined(log: seq<Event>) {
    && Sound(log)
    && (forall j :: 0 <= j < |log| ==> !log[j].body.Revert?)
    && (forall j :: 0 <= j < |log| && log[j].body.Compact? && log[j].body.covers != [] ==>
      SafeCompact(log, log[j].body.covers))
    && PendingAtTheEnd(log)
    && AnswersInTurn(log)
    && ResultsAfterAnswers(log)
  }

  lemma {:induction false} NothingIsDisciplined()
    ensures Disciplined([])
  {}

  /** Tool events before position `|log|` are untouched, so what was safe to compact stays so. */
  lemma {:induction false} SafeCompactsStay(log: seq<Event>, after: seq<Event>, covers: seq<int>)
    requires log <= after && SafeCompact(log, covers)
    ensures SafeCompact(after, covers)
  {
    assert forall i, id :: i < |log| ==> (UseAt(after, i, id) <==> UseAt(log, i, id));
    assert forall i, id :: i < |log| ==> (ResultAt(after, i, id) <==> ResultAt(log, i, id));
    forall u, id | UseAt(after, u, id) && u in covers
      ensures ResultWithin(after, SetOf(covers), id)
    {
      var r :| ResultAt(log, r, id) && r in covers;
      assert ResultAt(after, r, id);
    }
    forall r, id | ResultAt(after, r, id) && r in covers
      ensures UseWithin(after, SetOf(covers), id)
    {
      var u :| UseAt(log, u, id) && u in covers;
      assert UseAt(after, u, id);
    }
  }

  lemma {:induction false} CompactsStaySafe(log: seq<Event>, after: seq<Event>)
    requires Disciplined(log) && log <= after
    requires forall i :: |log| <= i < |after| ==> !after[i].body.Revert?
    requires forall i :: |log| <= i < |after| && after[i].body.Compact? && after[i].body.covers != [] ==>
               SafeCompact(log, after[i].body.covers)
    ensures forall j :: 0 <= j < |after| ==> !after[j].body.Revert?
    ensures forall j :: 0 <= j < |after| && after[j].body.Compact? && after[j].body.covers != [] ==>
            SafeCompact(after, after[j].body.covers)
  {
    forall j | 0 <= j < |after| && after[j].body.Compact? && after[j].body.covers != []
      ensures SafeCompact(after, after[j].body.covers)
    {
      assert j < |log| ==> log[j] == after[j];
      SafeCompactsStay(log, after, after[j].body.covers);
    }
    assert forall j :: 0 <= j < |log| ==> log[j] == after[j];
  }

  /** What holds of earlier positions holds of them in the longer log. */
  lemma {:induction false} EarlierStays(log: seq<Event>, after: seq<Event>)
    requires log <= after
    ensures forall a, id :: EarlierResult(log, a, id) ==> EarlierResult(after, a, id)
    ensures forall i, j :: MessageBetween(log, i, j) ==> MessageBetween(after, i, j)
  {
    forall a, id | EarlierResult(log, a, id)
      ensures EarlierResult(after, a, id)
    {
      var r :| r < a && ResultAt(log, r, id);
      assert ResultAt(after, r, id);
    }
    forall i, j | MessageBetween(log, i, j)
      ensures MessageBetween(after, i, j)
    {
      var a :| i < a < j && MessageAt(log, a);
      assert MessageAt(after, a);
    }
  }

  /** An event that is neither the assistant's nor a new use disturbs neither the pending uses nor the turns. */
  lemma {:induction false} UserSideKeepsTurns(log: seq<Event>, body: Body)
    requires Disciplined(log) && !AssistantRole(body)
    ensures PendingAtTheEnd(Extend(log, [body])) && AnswersInTurn(Extend(log, [body]))
            && ResultsAfterAnswers(Extend(log, [body]))
  {
    var after := Extend(log, [body]);
    assert forall i :: 0 <= i < |log| ==> after[i] == log[i];
    assert forall a :: LastAssistantAt(log, a) ==> LastAssistantAt(after, a);
    assert forall i, id :: UseAt(after, i, id) <==> UseAt(log, i, id);
    assert forall i, id :: ResultAt(log, i, id) ==> ResultAt(after, i, id);
    forall u, id | UseAt(after, u, id) && !HasResult(after, id)
      ensures exists a :: a < u && StopsForTools(after, a)
    {
      assert !HasResult(log, id);
      var a :| a < u && StopsForTools(log, a);
      assert StopsForTools(after, a);
    }
    EarlierStays(log, after);
    assert forall a :: MessageAt(after, a) ==> MessageAt(log, a);
    assert forall r, id :: r < |log| ==> (ResultAt(after, r, id) ==> ResultAt(log, r, id));
  }

  /** Where the one message of an answer is, once the answer is in the log. */
  ghost predicate OneMessage(log: seq<Event>, bodies: seq<Body>, stop: string, after: seq<Event>, m: int) {
    && log <= after && |log| <= m && MessageAt(after, m) && after[m].body.stopReason == stop
    && (forall a :: MessageAt(after, a) && a >= |log| ==> a == m)
    && (forall i, id :: UseIn(bodies, i, id) ==> m < |log| + i)
  }

  /** Behind the answer stand results only. */
  lemma {:induction false} StagedAt(log: seq<Event>, bodies: seq<Body>, at: seq<nat>, answered: bool,
                                    staged: seq<Body>, k: int)
    requires Layout(bodies, at, answered, staged) && |log| <= k < |Extend(log, staged)|
    ensures var b := Extend(log, staged)[k].body; if k < |log| + |bodies| then b == bodies[k - |log|] else b.ToolResult?
  {
    assert Extend(log, staged)[k].body == staged[k - |log|];
  }

  lemma {:induction false} AnswerHasOneMessage(log: seq<Event>, bodies: seq<Body>, stop: string,
                                               staged: seq<Body>) returns (m: int)
    requires WellFormedAnswer(bodies, stop) && Closes(bodies, stop, staged)
    ensures OneMessage(log, bodies, stop, Extend(log, staged), m)
  {
    var a :| MessageFirst(bodies, stop, a);
    m := |log| + a;
    var at := LayoutOf(bodies, stop, staged);
    MessageIsAt(log, bodies, stop, at, stop != "tool_use", staged, a);
  }

  lemma {:induction false} MessageIsAt(log: seq<Event>, bodies: seq<Body>, stop: string, at: seq<nat>, answered: bool,
                                       staged: seq<Body>, a: int)
    requires Layout(bodies, at, answered, staged) && MessageFirst(bodies, stop, a)
    ensures OneMessage(log, bodies, stop, Extend(log, staged), |log| + a)
  {
    var after, m := Extend(log, staged), |log| + a;
    StagedAt(log, bodies, at, answered, staged, m);
    forall k | MessageAt(after, k) && k >= |log|
      ensures k == m
    {
      StagedAt(log, bodies, at, answered, staged, k);
    }
  }

  lemma {:induction false} AnswerKeepsPending(log: seq<Event>, bodies: seq<Body>, stop: string, after: seq<Event>,
                                              m: int)
    requires NoPending(log) && Added(log, bodies, stop != "tool_use", after) && OneMessage(log, bodies, stop, after, m)
    ensures PendingAtTheEnd(after)
  {
    forall u, id | UseAt(after, u, id) && !HasResult(after, id)
      ensures exists a :: a < u && StopsForTools(after, a)
    {
      assert UseAt(log, u, id) ==> HasResult(log, id);
      assert UseIn(bodies, u - |log|, id);
      forall k | m < k < |after|
        ensures !after[k].body.AssistantMessage?
      {
        assert MessageAt(after, k) ==> k == m;
      }
      assert StopsForTools(after, m);
    }
  }

  lemma {:induction false} AnswerKeepsTurns(log: seq<Event>, bodies: seq<Body>, stop: string, after: seq<Event>, m: int)
    requires AnswersInTurn(log) && ResultsAfterAnswers(log) && NoPending(log)
    requires Added(log, bodies, stop != "tool_use", after) && OneMessage(log, bodies, stop, after, m)
    ensures AnswersInTurn(after) && ResultsAfterAnswers(after)
  {
    EarlierStays(log, after);
    forall u, a, id | UseAt(after, u, id) && MessageAt(after, a) && u < a
      ensures EarlierResult(after, a, id)
    {
      if a < |log| {
        assert MessageAt(log, a) && UseAt(log, u, id);
      } else {
        assert UseAt(log, u, id);
        var r :| ResultAt(log, r, id);
        assert ResultAt(after, r, id);
      }
    }
    forall r, u, x, id | ResultAt(after, r, x) && UseAt(after, u, id) && r < u
      ensures MessageBetween(after, r, u)
    {
      if UseAt(log, u, id) {
        assert ResultAt(log, r, x);
      } else {
        assert UseIn(bodies, u - |log|, id);
        assert r < m < u;
      }
    }
  }

  lemma {:induction false} AnswerKeepsCompactsSafe(log: seq<Event>, bodies: seq<Body>, at: seq<nat>, answered: bool,
                                                   staged: seq<Body>)
    requires RespectsPairs(log, bodies) && Layout(bodies, at, answered, staged)
    ensures var after := Extend(log, staged);
            forall i :: |log| <= i < |after| ==>
              !after[i].body.Revert? && (after[i].body.Compact? && after[i].body.covers != [] ==>
                SafeCompact(log, after[i].body.covers))
  {
    var after := Extend(log, staged);
    forall i | |log| <= i < |after|
      ensures !after[i].body.Revert?
      ensures after[i].body.Compact? && after[i].body.covers != [] ==> SafeCompact(log, after[i].body.covers)
    {
      var k := i - |log|;
      assert after[i].body == staged[k];
      assert k < |bodies| ==> staged[k] == bodies[k] && bodies[k] in bodies;
    }
  }

  lemma {:induction false} AnswerKeepsDiscipline(log: seq<Event>, bodies: seq<Body>, stop: string, staged: seq<Body>)
    requires Disciplined(log) && Enabled(log, ProviderStep(bodies, stop, staged), true)
    ensures Disciplined(Extend(log, staged))
  {
    var after := Extend(log, staged);
    StepKeepsSound(log, ProviderStep(bodies, stop, staged));
    ProviderStepAdds(log, bodies, stop, staged);
    var at := LayoutOf(bodies, stop, staged);
    AnswerKeepsCompactsSafe(log, bodies, at, stop != "tool_use", staged);
    CompactsStaySafe(log, after);
    var m := AnswerHasOneMessage(log, bodies, stop, staged);
    AnswerKeepsPending(log, bodies, stop, after, m);
    AnswerKeepsTurns(log, bodies, stop, after, m);
  }

  lemma {:induction false} StepKeepsDiscipline(log: seq<Event>, step: Step)
    requires Disciplined(log) && Enabled(log, step, true)
    ensures Disciplined(Extend(log, Appends(step)))
  {
    if step.ProviderStep? {
      AnswerKeepsDiscipline(log, step.bodies, step.stop, step.staged);
    } else {
      StepKeepsSound(log, step);
      assert |Appends(step)| == 1;
      UserSideKeepsTurns(log, Appends(step)[0]);
      CompactsStaySafe(log, Extend(log, Appends(step)));
    }
  }

  /** Under the strict discipline every reachable log keeps it: pair-safe compactions only, pending uses only behind
      a last assistant message that stopped for its tools, and no assistant turn before the results are in. */
  lemma {:induction false} ReachableLogsAreDisciplined(before: seq<Event>, after: seq<Event>)
    requires Disciplined(before) && Leads(before, after, true)
    ensures Disciplined(after) && before <= after
  {
    var steps :| LeadsBy(before, steps, after, Rule(true));
    RunKeepsDiscipline(before, steps, after);
  }

  lemma {:induction false} RunKeepsDiscipline(before: seq<Event>, steps: seq<Step>, after: seq<Event>)
    requires Disciplined(before) && LeadsBy(before, steps, after, Rule(true))
    ensures Disciplined(after) && before <= after
    decreases |steps|
  {
    if steps != [] {
      StepKeepsDiscipline(before, steps[0]);
      RunKeepsDiscipline(Extend(before, Appends(steps[0])), steps[1..], after);
    }
  }

  lemma {:induction false} PairsHideTogether(log: seq<Event>, u: int, r: int, id: string)
    requires Disciplined(log) && UseAt(log, u, id) && ResultAt(log, r, id)
    ensures Shadowed(log, u) <==> Shadowed(log, r)
  {
    if j :| Shadows(log, j, u) {
      assert SafeCompact(log, log[j].body.covers);
      var v :| ResultAt(log, v, id) && v in log[j].body.covers;
      assert Shadows(log, j, r);
    }
    if j :| Shadows(log, j, r) {
      assert SafeCompact(log, log[j].body.covers);
      var v :| UseAt(log, v, id) && v in log[j].body.covers;
      assert Shadows(log, j, u);
    }
  }

  /** In a disciplined log nothing pending is hidden: the provider may be called exactly when no use is pending. */
  lemma {:induction false} ReadyIffNothingPending(log: seq<Event>)
    requires Disciplined(log)
    ensures ProviderReady(log) <==> NoPending(log)
  {
    PairedIffVisiblePaired(log);
    if VisiblePaired(log) {
      forall u, id | UseAt(log, u, id)
        ensures HasResult(log, id)
      {
        if j :| Shadows(log, j, u) {
          assert SafeCompact(log, log[j].body.covers);
        }
      }
    }
    if NoPending(log) {
      forall u, id | UseAt(log, u, id) && !Shadowed(log, u)
        ensures VisibleResult(log, id)
      {
        var r :| ResultAt(log, r, id);
        PairsHideTogether(log, u, r, id);
      }
      forall r, id | ResultAt(log, r, id) && !Shadowed(log, r)
        ensures VisibleUse(log, id)
      {
        var u :| UseAt(log, u, id) && log[u].seqNo < log[r].seqNo;
        PairsHideTogether(log, u, r, id);
      }
    }
  }

  // ---------- Interrupted answers ----------

  /** The user's side speaks between two uses of one answer. */
  ghost predicate InterruptedAt(log: seq<Event>, u: int, i: int, j: int) {
    && 0 <= u < i < j < |log| && log[u].body.ToolUse? && UserRole(log[i].body) && log[j].body.ToolUse?
    && !MessageBetween(log, u, j)
  }

  ghost predicate Interrupted(log: seq<Event>) {
    exists u, i, j :: InterruptedAt(log, u, i, j)
  }

  ghost predicate InterruptedIn(bodies: seq<Body>, u: int, i: int, j: int) {
    0 <= u < i < j < |bodies| && bodies[u].ToolUse? && UserRole(bodies[i]) && bodies[j].ToolUse?
  }

  /** An answer in the shape of the built-in providers neither tears pairs apart nor is interrupted. */
  lemma {:induction false} BuiltinIsOrderly(log: seq<Event>, bodies: seq<Body>)
    requires Builtin(bodies)
    ensures RespectsPairs(log, bodies) && !exists u, i, j :: InterruptedIn(bodies, u, i, j)
  {
    forall b | b in bodies
      ensures b.AssistantMessage? || b.ToolUse?
    {
      var k :| 0 <= k < |bodies| && bodies[k] == b;
    }
  }

  /** Only a provider whose answer holds a user-side event between two of its uses ever interrupts an answer. */
  lemma {:induction false} InterruptedIff(log: seq<Event>, step: Step)
    requires Disciplined(log) && Enabled(log, step, true)
    ensures Interrupted(Extend(log, Appends(step))) <==>
              Interrupted(log) || (step.ProviderStep? && exists u, i, j :: InterruptedIn(step.bodies, u, i, j))
  {
    var after := Extend(log, Appends(step));
    assert forall k :: |log| <= k < |after| ==> after[k].body == Appends(step)[k - |log|];
    assert forall i, j :: j <= |log| ==> (MessageBetween(after, i, j) <==> MessageBetween(log, i, j)) by {
      EarlierStays(log, after);
      assert forall a :: a < |log| && MessageAt(after, a) ==> MessageAt(log, a);
    }
    if u, i, j :| InterruptedAt(log, u, i, j) {
      assert InterruptedAt(after, u, i, j);
    }
    if step.ProviderStep? {
      AnswerInterrupts(log, step.bodies, step.stop, step.staged);
    } else if u, i, j :| InterruptedAt(after, u, i, j) {
      assert j < |log|;
      assert InterruptedAt(log, u, i, j);
    }
  }

  lemma {:induction false} AnswerInterrupts(log: seq<Event>, bodies: seq<Body>, stop: string, staged: seq<Body>)
    requires WellFormedAnswer(bodies, stop) && Closes(bodies, stop, staged)
    ensures (exists u, i, j :: InterruptedIn(bodies, u, i, j)) ==> Interrupted(Extend(log, staged))
    ensures Interrupted(Extend(log, staged)) ==> Interrupted(log) || exists u, i, j :: InterruptedIn(bodies, u, i, j)
  {
    var after := Extend(log, staged);
    var m := AnswerHasOneMessage(log, bodies, stop, staged);
    var at := LayoutOf(bodies, stop, staged);
    assert forall k :: |log| <= k < |log| + |bodies| ==> after[k].body == bodies[k - |log|] by {
      assert forall k :: |log| <= k < |after| ==> after[k].body == staged[k - |log|];
    }
    if u, i, j :| InterruptedIn(bodies, u, i, j) {
      InterruptedThere(log, bodies, stop, after, m, u, i, j);
    }
    if u, i, j :| InterruptedAt(after, u, i, j) {
      if j < |log| {
        EarlierStays(log, after);
        assert InterruptedAt(log, u, i, j);
      } else {
        StagedAt(log, bodies, at, stop != "tool_use", staged, j);
        InterruptedInside(log, bodies, stop, after, m, u, i, j);
      }
    }
  }

  lemma {:induction false} InterruptedThere(log: seq<Event>, bodies: seq<Body>, stop: string, after: seq<Event>,
                                            m: int, u: int, i: int, j: int)
    requires OneMessage(log, bodies, stop, after, m) && InterruptedIn(bodies, u, i, j)
    requires |log| + |bodies| <= |after|
    requires forall k :: |log| <= k < |log| + |bodies| ==> after[k].body == bodies[k - |log|]
    ensures InterruptedAt(after, |log| + u, |log| + i, |log| + j)
  {
    assert UseIn(bodies, u, bodies[u].id);
  }

  /** An interruption whose second use is in the answer lies in the answer. */
  lemma {:induction false} InterruptedInside(log: seq<Event>, bodies: seq<Body>, stop: string, after: seq<Event>,
                                             m: int, u: int, i: int, j: int)
    requires OneMessage(log, bodies, stop, after, m) && InterruptedAt(after, u, i, j)
    requires |log| <= j < |log| + |bodies| <= |after|
    requires forall k :: |log| <= k < |log| + |bodies| ==> after[k].body == bodies[k - |log|]
    ensures InterruptedIn(bodies, u - |log|, i - |log|, j - |log|)
  {
    assert UseIn(bodies, j - |log|, bodies[j - |log|].id);
    assert u < m ==> MessageBetween(after, u, j);
  }
}
