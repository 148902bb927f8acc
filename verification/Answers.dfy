/** Checking and closing a provider's answer before it enters the log: agent_loop.go, closeProviderStep. */
module Answers {
  import opened Events
  import opened Protocol

  /** How a turn ended: the model's stop reason, and the run reason if the run must stop here. */
  datatype Turn = Turn(stopReason: string, reason: Reason)

  /** Why a run ends. `Unstated` is the empty reason: the run goes on, or, as the reason of a run, nothing is said. */
  datatype Reason =
    | Unstated
    | EndTurn
    | Awaiting
    | IncompleteToolBatch
    | NoPendingTools
    | MaxTurnsReached
    | RuntimeFailed
    | ProviderFailed

  datatype AnswerFault =
    | UseBeforeAssistant
    | MissingUseID
    | DuplicateUseID(id: string)
    | MissingToolName(id: string)
    | UnexpectedResult
    | AssistantCount(n: nat)
    | MissingStopReason
    | MissingToolUse

  ghost predicate AssistantAt(bodies: seq<Body>, i: int) {
    0 <= i < |bodies| && bodies[i].AssistantMessage?
  }

  ghost predicate AssistantBefore(bodies: seq<Body>, i: int) {
    exists a :: a < i && AssistantAt(bodies, a)
  }

  /** What the checking loop knows of the first `i` events; `last` is the last assistant message among them. */
  ghost predicate Checked(bodies: seq<Body>, i: int, count: nat, last: int, stop: string, ids: set<string>) {
    && 0 <= i <= |bodies|
    && (count == 0 ==> !AssistantBefore(bodies, i))
    && (count >= 1 ==> last < i && AssistantAt(bodies, last) && bodies[last].stopReason == stop)
    && (count == 1 ==> forall k :: k < i && AssistantAt(bodies, k) ==> k == last)
    && (count >= 2 ==> AssistantBefore(bodies, last))
    && (forall id :: id in ids <==> exists k :: k < i && UseIn(bodies, k, id))
    && (forall k, id :: k < i && UseIn(bodies, k, id) ==>
      id != "" && bodies[k].name != "" && AssistantBefore(bodies, k))
    && (forall j, k, id :: j < i && k < i && UseIn(bodies, j, id) && UseIn(bodies, k, id) ==> j == k)
    && (forall k :: 0 <= k < i ==> !bodies[k].ToolResult?)
  }

  lemma {:induction false} CheckedAssistant(bodies: seq<Body>, i: int, count: nat, last: int, stop: string,
                                            ids: set<string>)
    requires Checked(bodies, i, count, last, stop, ids) && i < |bodies| && bodies[i].AssistantMessage?
    ensures Checked(bodies, i + 1, count + 1, i, bodies[i].stopReason, ids)
  {
    assert AssistantAt(bodies, i);
    if count >= 1 {
      assert AssistantBefore(bodies, i);
    }
  }

  lemma {:induction false} CheckedUse(bodies: seq<Body>, i: int, count: nat, last: int, stop: string, ids: set<string>)
    requires Checked(bodies, i, count, last, stop, ids) && i < |bodies| && bodies[i].ToolUse?
    requires count > 0 && bodies[i].id != "" && bodies[i].id !in ids && bodies[i].name != ""
    ensures Checked(bodies, i + 1, count, last, stop, ids + {bodies[i].id})
  {
    assert UseIn(bodies, i, bodies[i].id) && AssistantBefore(bodies, i);
  }

  lemma {:induction false} CheckedOther(bodies: seq<Body>, i: int, count: nat, last: int, stop: string,
                                        ids: set<string>)
    requires Checked(bodies, i, count, last, stop, ids) && i < |bodies|
    requires !bodies[i].AssistantMessage? && !IsToolEvent(bodies[i])
    ensures Checked(bodies, i + 1, count, last, stop, ids)
  {}

  /** A use, an id or a result the loop refuses rules the answer out. */
  lemma {:induction false} RefusedIsIllFormed(bodies: seq<Body>, i: int, count: nat, last: int, stop: string,
                                              ids: set<string>)
    requires Checked(bodies, i, count, last, stop, ids) && i < |bodies|
    requires bodies[i].ToolResult?
             || (bodies[i].ToolUse? && (count == 0 || bodies[i].id == "" || bodies[i].id in ids
               || bodies[i].name == ""))
    ensures forall s :: !WellFormedAnswer(bodies, s)
  {
    assert bodies[i] in bodies;
    assert bodies[i].ToolUse? ==> UseIn(bodies, i, bodies[i].id);
    forall s
      ensures !WellFormedAnswer(bodies, s)
    {
      if a :| MessageFirst(bodies, s, a) {
        assert AssistantAt(bodies, a);
      }
    }
  }

  lemma {:induction false} CheckedToTheEnd(bodies: seq<Body>, count: nat, last: int, stop: string, ids: set<string>)
    requires Checked(bodies, |bodies|, count, last, stop, ids)
    ensures count != 1 || stop == "" || (stop == "tool_use" && ToolUses(bodies) == []) ==>
            forall s :: !WellFormedAnswer(bodies, s)
    ensures count == 1 && stop != "" && (stop == "tool_use" ==> ToolUses(bodies) != []) ==>
            WellFormedAnswer(bodies, stop)
  {
    forall a | IsOnlyAssistant(bodies, a)
      ensures count == 1 && bodies[a].stopReason == stop
    {
      assert AssistantAt(bodies, a);
    }
    if count == 1 {
      assert forall k :: 0 <= k < |bodies| && bodies[k].AssistantMessage? ==> AssistantAt(bodies, k);
      assert IsOnlyAssistant(bodies, last);
      assert bodies[last].stopReason == stop ==> MessageFirst(bodies, stop, last);
    }
  }

  function IncompleteText(name: string, stop: string): (r: string)
    ensures r != ""
  {
    "tool " + name + " did not complete: assistant turn ended with stop_reason " + stop
      + " before a tool result was recorded"
  }

  /** The error says which tool did not complete, and why the turn ended. */
  ghost predicate NamesUseAndStop(result: Body, use: Body, stop: string) {
    && use.ToolUse? && result.ToolResult?
    && result.error == "tool " + use.name + " did not complete: assistant turn ended with stop_reason " + stop
      + " before a tool result was recorded"
  }

  /** One error result per use, in order. */
  method IncompleteResults(uses: seq<Body>, stop: string) returns (results: seq<Body>)
    requires forall u :: u in uses ==> u.ToolUse?
    ensures |results| == |uses| && forall k :: 0 <= k < |uses| ==> IncompleteResult(results[k], uses[k])
    ensures forall k :: 0 <= k < |uses| ==> NamesUseAndStop(results[k], uses[k], stop)
  {
    results := [];
    for i := 0 to |uses|
      invariant |results| == i && forall k :: 0 <= k < i ==> IncompleteResult(results[k], uses[k])
      invariant forall k :: 0 <= k < i ==> NamesUseAndStop(results[k], uses[k], stop)
    {
      assert uses[i] in uses;
      results := results + [ToolResult(uses[i].id, "", IncompleteText(uses[i].name, stop))];
    }
  }

  /** The uses among the first `n` events. */
  function UsesAmong(bodies: seq<Body>, n: nat): seq<Body>
    requires n <= |bodies|
  {
    if n == 0 then [] else UsesAmong(bodies, n - 1) + if bodies[n - 1].ToolUse? then [bodies[n - 1]] else []
  }

  lemma {:induction false} UsesAmongFirst(bodies: seq<Body>, n: nat)
    requires n <= |bodies|
    ensures UsesAmong(bodies, n) == ToolUses(bodies[..n])
  {
    if n > 0 {
      var first := bodies[..n];
      assert first[..n - 1] == bodies[..n - 1] && first[n - 1] == bodies[n - 1];
      UsesAmongFirst(bodies, n - 1);
    }
  }

  /** What each fault says about the answer. */
  ghost predicate FaultFits(bodies: seq<Body>, fault: AnswerFault) {
    match fault
    case UseBeforeAssistant => exists i :: UseAlone(bodies, i)
    case MissingUseID => exists i :: UseIn(bodies, i, "")
    case DuplicateUseID(id) => exists i, j :: i < j && UseIn(bodies, i, id) && UseIn(bodies, j, id)
    case MissingToolName(id) => exists i :: UseIn(bodies, i, id) && bodies[i].name == ""
    case UnexpectedResult => exists b :: b in bodies && b.ToolResult?
    case AssistantCount(n) => n != 1 && forall a :: !IsOnlyAssistant(bodies, a)
    case MissingStopReason => exists a :: IsOnlyAssistant(bodies, a) && bodies[a].stopReason == ""
    case MissingToolUse =>
      ToolUses(bodies) == [] && exists a :: IsOnlyAssistant(bodies, a) && bodies[a].stopReason == "tool_use"
  }

  /** A use that no assistant message precedes. */
  ghost predicate UseAlone(bodies: seq<Body>, i: int) {
    0 <= i < |bodies| && bodies[i].ToolUse? && !AssistantBefore(bodies, i)
  }

  lemma {:induction false} LoopFaultFits(bodies: seq<Body>, i: int, count: nat, last: int, stop: string,
                                         ids: set<string>)
    requires Checked(bodies, i, count, last, stop, ids) && i < |bodies| && FaultOf(bodies[i], count, ids).Some?
    ensures FaultFits(bodies, FaultOf(bodies[i], count, ids).value)
  {
    assert bodies[i] in bodies;
    if bodies[i].ToolUse? {
      assert UseIn(bodies, i, bodies[i].id);
      if count == 0 {
        assert UseAlone(bodies, i);
      }
    }
  }

  lemma {:induction false} EndFaultFits(bodies: seq<Body>, count: nat, last: int, stop: string, ids: set<string>)
    requires Checked(bodies, |bodies|, count, last, stop, ids)
    ensures count != 1 ==> FaultFits(bodies, AssistantCount(count))
    ensures count == 1 && stop == "" ==> FaultFits(bodies, MissingStopReason)
    ensures count == 1 && stop == "tool_use" && ToolUses(bodies) == [] ==> FaultFits(bodies, MissingToolUse)
  {
    forall a | IsOnlyAssistant(bodies, a)
      ensures count == 1
    {
      assert AssistantAt(bodies, a);
    }
    if count == 1 {
      assert forall k :: 0 <= k < |bodies| && bodies[k].AssistantMessage? ==> AssistantAt(bodies, k);
      assert IsOnlyAssistant(bodies, last);
    }
  }

  /** Why an event is refused, given how many assistant messages and which ids came before it. */
  function FaultOf(body: Body, count: nat, ids: set<string>): (r: Option<AnswerFault>)
    ensures r.Some? <==>
            body.ToolResult? || (body.ToolUse? && (count == 0 || body.id == "" || body.id in ids || body.name == ""))
  {
    if body.ToolResult? then Some(UnexpectedResult)
    else if !body.ToolUse? then None
    else if count == 0 then Some(UseBeforeAssistant)
    else if body.id == "" then Some(MissingUseID)
    else if body.id in ids then Some(DuplicateUseID(body.id))
    else if body.name == "" then Some(MissingToolName(body.id))
    else None
  }

  lemma {:induction false} CheckedNext(bodies: seq<Body>, i: int, count: nat, last: int, stop: string, ids: set<string>)
    requires Checked(bodies, i, count, last, stop, ids) && i < |bodies| && FaultOf(bodies[i], count, ids) == None
    ensures var b := bodies[i];
            if b.AssistantMessage? then Checked(bodies, i + 1, count + 1, i, b.stopReason, ids)
            else Checked(bodies, i + 1, count, last, stop, if b.ToolUse? then ids + {b.id} else ids)
  {
    if bodies[i].AssistantMessage? {
      CheckedAssistant(bodies, i, count, last, stop, ids);
    } else if bodies[i].ToolUse? {
      CheckedUse(bodies, i, count, last, stop, ids);
    } else {
      CheckedOther(bodies, i, count, last, stop, ids);
    }
  }

  /** The checking loop: refuses an answer, or returns what it found. */
  method CheckAnswer(bodies: seq<Body>) returns (r: Result<(nat, string, seq<Body>), AnswerFault>)
    ensures r.Failure? ==> FaultFits(bodies, r.error) && forall s :: !WellFormedAnswer(bodies, s)
    ensures r.Success? ==>
              var (count, stop, uses) := r.value;
              uses == ToolUses(bodies) && exists last, ids :: Checked(bodies, |bodies|, count, last, stop, ids)
  {
    var uses: seq<Body> := [];
    var ids: set<string> := {};
    var count := 0;
    var stop := "";
    ghost var last := -1;
    for i := 0 to |bodies|
      invariant uses == UsesAmong(bodies, i)
      invariant Checked(bodies, i, count, last, stop, ids)
    {
      var body := bodies[i];
      var fault := FaultOf(body, count, ids);
      if fault.Some? {
        RefusedIsIllFormed(bodies, i, count, last, stop, ids);
        LoopFaultFits(bodies, i, count, last, stop, ids);
        return Failure(fault.value);
      }
      CheckedNext(bodies, i, count, last, stop, ids);
      if body.AssistantMessage? {
        count, stop, last := count + 1, body.stopReason, i;
      } else if body.ToolUse? {
        ids := ids + {body.id};
        uses := uses + [body];
      }
    }
    UsesAmongFirst(bodies, |bodies|);
    assert bodies[..|bodies|] == bodies;
    return Success((count, stop, uses));
  }

  /** Refuses an answer exactly when it is ill-formed; otherwise returns it closed. */
  method CloseProviderStep(bodies: seq<Body>) returns (r: Result<(Turn, seq<Body>), AnswerFault>)
    ensures r.Failure? <==> forall s :: !WellFormedAnswer(bodies, s)
    ensures r.Failure? ==> FaultFits(bodies, r.error)
    ensures r.Success? ==>
              var (turn, staged) := r.value;
              && WellFormedAnswer(bodies, turn.stopReason) && Closes(bodies, turn.stopReason, staged)
              && turn.reason == (if turn.stopReason == "tool_use" || ToolUses(bodies) == [] then Unstated
                else IncompleteToolBatch)
              && (turn.reason == IncompleteToolBatch ==> forall k :: 0 <= k < |ToolUses(bodies)| ==>
                NamesUseAndStop(staged[|bodies| + k], ToolUses(bodies)[k], turn.stopReason))
  {
    var checked := CheckAnswer(bodies);
    if checked.Failure? {
      return Failure(checked.error);
    }
    var (count, stop, uses) := checked.value;
    ghost var last, ids :| Checked(bodies, |bodies|, count, last, stop, ids);
    CheckedToTheEnd(bodies, count, last, stop, ids);
    EndFaultFits(bodies, count, last, stop, ids);
    if count != 1 {
      return Failure(AssistantCount(count));
    }
    if stop == "" {
      return Failure(MissingStopReason);
    }
    if stop == "tool_use" && uses == [] {
      return Failure(MissingToolUse);
    }
    if uses == [] || stop == "tool_use" {
      return Success((Turn(stop, Unstated), bodies));
    }
    var results := IncompleteResults(uses, stop);
    return Success((Turn(stop, IncompleteToolBatch), bodies + results));
  }
}
