/** Dispatching the pending tool uses of a log as one batch: agent_loop.go, approval.go. */
module Dispatch {
  import opened Events
  import opened Integrity
  import opened Storage
  import opened Protocol
  import opened Environment
  import opened Tools
  import opened Sequences

  // ---------- Decisions ----------

  /** The reason of the first decision that refuses, if one does. */
  function Denial(decisions: seq<HookDecision>): (r: Option<string>)
    ensures r.Some? <==> exists d :: d in decisions && d.allow == Some(false)
    ensures r.Some? ==> exists k :: FirstRefusal(decisions, k) && r.value == decisions[k].reason
  {
    if decisions == [] then None
    else if decisions[0].allow == Some(false) then
      assert FirstRefusal(decisions, 0);
      Some(decisions[0].reason)
    else
      assert decisions == [decisions[0]] + decisions[1..];
      assert forall k :: FirstRefusal(decisions[1..], k) ==> FirstRefusal(decisions, k + 1);
      Denial(decisions[1..])
  }

  predicate FirstRefusal(decisions: seq<HookDecision>, k: int) {
    && 0 <= k < |decisions| && decisions[k].allow == Some(false)
    && forall j :: 0 <= j < k ==> decisions[j].allow != Some(false)
  }

  predicate Held(decisions: seq<HookDecision>) {
    exists d :: d in decisions && d.pendingApproval
  }

  /** Refusal outranks a request for approval, which outranks consent. */
  predicate MustAsk(decisions: seq<HookDecision>) {
    Denial(decisions) == None && Held(decisions)
  }

  predicate FirstOverride(decisions: seq<HookDecision>, k: int) {
    && 0 <= k < |decisions| && decisions[k].arguments.Some?
    && forall j :: 0 <= j < k ==> decisions[j].arguments == None
  }

  /** `r` is the use under the decisions: its arguments are those of the first decision that gives any, or else its
      own. */
  ghost predicate RunsAs(use: Body, decisions: seq<HookDecision>, r: Body) {
    && use.ToolUse? && r.ToolUse? && r.id == use.id && r.name == use.name
    && (forall k :: FirstOverride(decisions, k) ==> r.arguments == decisions[k].arguments.value)
    && ((forall k :: !FirstOverride(decisions, k)) ==>
          r.arguments == use.arguments && forall d :: d in decisions ==> d.arguments == None)
  }

  /** The first decision that replaces the arguments wins. */
  function Overridden(use: Body, decisions: seq<HookDecision>): (r: Body)
    requires use.ToolUse?
    ensures r.ToolUse? && r.id == use.id && r.name == use.name
    ensures RunsAs(use, decisions, r)
  {
    if decisions == [] then use
    else if decisions[0].arguments.Some? then
      assert FirstOverride(decisions, 0);
      use.(arguments := decisions[0].arguments.value)
    else
      var r := Overridden(use, decisions[1..]);
      OverrideLater(use, decisions, r);
      r
  }

  lemma {:induction false} OverrideLater(use: Body, decisions: seq<HookDecision>, r: Body)
    requires decisions != [] && decisions[0].arguments == None && RunsAs(use, decisions[1..], r)
    ensures RunsAs(use, decisions, r)
  {
    var rest := decisions[1..];
    assert decisions == [decisions[0]] + rest;
    forall k | FirstOverride(decisions, k)
      ensures FirstOverride(rest, k - 1)
    {
      assert forall j :: 0 <= j < k - 1 ==> rest[j] == decisions[j + 1];
    }
    forall k | FirstOverride(rest, k)
      ensures FirstOverride(decisions, k + 1)
    {
      assert forall j :: 1 <= j < k + 1 ==> decisions[j] == rest[j - 1];
    }
  }

  // ---------- Pending uses ----------

  /** `e` is a use among the first `n` events, and has no result. */
  ghost predicate OpenUse(log: seq<Event>, n: nat, e: Event)
    requires n <= |log|
  {
    e in log[..n] && e.body.ToolUse? && !HasResult(log, e.body.id)
  }

  ghost function Pending(log: seq<Event>, n: nat): (r: seq<Event>)
    requires n <= |log|
    ensures forall e :: e in r <==> OpenUse(log, n, e)
  {
    if n == 0 then []
    else Pending(log, n - 1) + if log[n - 1].body.ToolUse?
        && !HasResult(log, log[n - 1].body.id) then [log[n - 1]] else []
  }

  /** Position `i` of the log holds a use without a result. */
  ghost function OpenUsesOf(log: seq<Event>): (int, Event) -> bool {
    (i, e) => 0 <= i < |log| && e == log[i] && e.body.ToolUse? && !HasResult(log, e.body.id)
  }

  /** Exactly these are pending, in log order. */
  lemma {:induction false} PendingInOrder(log: seq<Event>, n: nat) returns (at: seq<nat>)
    requires n <= |log|
    ensures Placed(n, Pending(log, n), at, OpenUsesOf(log))
  {
    if n == 0 {
      at := [];
    } else {
      var k := n - 1;
      at := PendingInOrder(log, k);
      if log[k].body.ToolUse? && !HasResult(log, log[k].body.id) {
        PlaceOne(k, Pending(log, k), at, OpenUsesOf(log), log[k]);
        at := at + [k];
      } else {
        PlaceNone(k, Pending(log, k), at, OpenUsesOf(log));
        assert Pending(log, n) == Pending(log, k);
      }
    }
  }

  method PendingToolUses(log: seq<Event>) returns (pending: seq<Event>)
    ensures pending == Pending(log, |log|)
    ensures pending == [] <==> NoPending(log)
  {
    var fulfilled: set<string> := {};
    for i := 0 to |log|
      invariant forall id :: id in fulfilled <==> EarlierResult(log, i, id)
    {
      if log[i].body.ToolResult? {
        assert ResultAt(log, i, log[i].body.id);
        fulfilled := fulfilled + {log[i].body.id};
      }
    }
    assert forall id :: HasResult(log, id) <==> EarlierResult(log, |log|, id);
    pending := [];
    for i := 0 to |log|
      invariant pending == Pending(log, i)
    {
      if log[i].body.ToolUse? && log[i].body.id !in fulfilled {
        pending := pending + [log[i]];
      }
    }
    NothingPending(log);
  }

  lemma {:induction false} NothingPending(log: seq<Event>)
    ensures Pending(log, |log|) == [] <==> NoPending(log)
  {
    if Pending(log, |log|) == [] {
      forall u, id | UseAt(log, u, id)
        ensures HasResult(log, id)
      {
        assert log[u] !in Pending(log, |log|);
      }
    } else {
      var e := Pending(log, |log|)[0];
      assert e in Pending(log, |log|);
      var i :| 0 <= i < |log| && log[i] == e && e.body.ToolUse? && !HasResult(log, e.body.id);
      assert UseAt(log, i, e.body.id);
    }
  }

  ghost predicate DistinctIDs(uses: seq<Event>) {
    && (forall e :: e in uses ==> e.body.ToolUse?)
    && (forall j, k :: 0 <= j < k < |uses| ==> uses[j].body.id != uses[k].body.id)
  }

  lemma {:induction false} PendingBefore(log: seq<Event>, n: nat, e: Event)
    requires UsesInTurn(log) && n < |log| && e in Pending(log, n) && log[n].body.ToolUse?
    requires !HasResult(log, log[n].body.id)
    ensures e.body.ToolUse? && e.body.id != log[n].body.id
  {
    var i :| 0 <= i < n && log[i] == e && e.body.ToolUse?;
    assert UseAt(log, i, e.body.id) && UseAt(log, n, log[n].body.id);
  }

  lemma {:induction false} DistinctOneMore(uses: seq<Event>, e: Event)
    requires DistinctIDs(uses) && e.body.ToolUse? && forall x :: x in uses ==> x.body.ToolUse? && x.body.id != e.body.id
    ensures DistinctIDs(uses + [e])
  {
    assert forall j :: 0 <= j < |uses| ==> uses[j] in uses;
  }

  /** No id is pending twice, as long as none is used again while it is pending. */
  lemma {:induction false} PendingIsDistinct(log: seq<Event>, n: nat)
    requires UsesInTurn(log) && n <= |log|
    ensures DistinctIDs(Pending(log, n))
  {
    if n > 0 {
      var k := n - 1;
      PendingIsDistinct(log, k);
      if log[k].body.ToolUse? && !HasResult(log, log[k].body.id) {
        forall e | e in Pending(log, k)
          ensures e.body.ToolUse? && e.body.id != log[k].body.id
        {
          PendingBefore(log, k, e);
        }
        DistinctOneMore(Pending(log, k), log[k]);
      }
    }
  }

  lemma {:induction false} PendingAreDistinct(log: seq<Event>, n: nat)
    requires ReferencesSound(log) && n <= |log|
    ensures forall e :: e in Pending(log, n) ==> HasUse(log, e.body.id) && !HasResult(log, e.body.id)
    ensures DistinctIDs(Pending(log, n))
  {
    assert UsesInTurn(log);
    PendingIsDistinct(log, n);
    forall e | e in Pending(log, n)
      ensures HasUse(log, e.body.id)
    {
      var i :| 0 <= i < n && log[i] == e;
      assert UseAt(log, i, e.body.id);
    }
  }

  // ---------- One batch ----------

  /** The uses of a batch, each waiting for its result and none twice, unless something outside broke the rules. */
  ghost predicate Batch(log: seq<Event>, rogue: bool, uses: seq<Event>) {
    && (forall e :: e in uses ==> e.body.ToolUse?)
    && (!rogue && Sound(log) ==>
          DistinctIDs(uses) && forall e :: e in uses ==> HasUse(log, e.body.id) && !HasResult(log, e.body.id))
  }

  /** One request per held use, in order. */
  function Requests(uses: seq<Event>, verdicts: seq<seq<HookDecision>>): (r: seq<Body>)
    requires |uses| == |verdicts| && forall e :: e in uses ==> e.body.ToolUse?
    ensures r == [] <==> forall i :: 0 <= i < |verdicts| ==> !MustAsk(verdicts[i])
    ensures forall b :: b in r ==> b.ApprovalRequested?
  {
    AreRequests(uses, verdicts, |uses|);
    RequestsUpTo(uses, verdicts, |uses|)
  }

  lemma {:induction false} AreRequests(uses: seq<Event>, verdicts: seq<seq<HookDecision>>, n: nat)
    requires n <= |uses| && n <= |verdicts| && forall e :: e in uses ==> e.body.ToolUse?
    ensures RequestsUpTo(uses, verdicts, n) == [] <==> forall i :: 0 <= i < n ==> !MustAsk(verdicts[i])
    ensures forall b :: b in RequestsUpTo(uses, verdicts, n) ==> b.ApprovalRequested?
  {
    if n > 0 {
      AreRequests(uses, verdicts, n - 1);
    }
  }

  function RequestsUpTo(uses: seq<Event>, verdicts: seq<seq<HookDecision>>, n: nat): (r: seq<Body>)
    requires n <= |uses| && n <= |verdicts| && forall e :: e in uses ==> e.body.ToolUse?
  {
    if n == 0 then []
    else
      RequestsUpTo(uses, verdicts, n - 1)
      + if MustAsk(verdicts[n - 1]) then assert uses[n - 1] in uses; [ApprovalRequested(uses[n - 1].body.id)] else []
  }

  /** The decisions are what the hooks answered, use by use. */
  ghost predicate AreAnswers(verdicts: seq<seq<HookDecision>>, o: Oracles, tick: nat) {
    forall k :: 0 <= k < |verdicts| ==> verdicts[k] == o.hook(tick + k).decisions
  }

  /** The first pass: every use's hooks are asked before anything runs. */
  method AskHooks(log: Log, w: World, uses: seq<Event>) returns (verdicts: seq<seq<HookDecision>>, unwound: bool)
    modifies log`events, log`storageErr, log.Sink(), w`rogue, w`reckless, w`clock
    ensures Quietly(old(Snap(log, w)), Snap(log, w))
    ensures !unwound ==> |verdicts| == |uses| && AreAnswers(verdicts, w.oracles, old(w.clock))
    ensures unwound ==> Failing(log)
    ensures w.clock >= old(w.clock)
  {
    ghost var a := Snap(log, w);
    verdicts := [];
    QuietlyNowhere(a);
    for i := 0 to |uses|
      invariant Quietly(a, Snap(log, w)) && |verdicts| == i
      invariant w.clock == old(w.clock) + i && AreAnswers(verdicts, w.oracles, old(w.clock))
    {
      ghost var b := Snap(log, w);
      var decisions;
      decisions, unwound := Invoke(log, w);
      QuietlyOn(a, b, Snap(log, w));
      if unwound {
        return;
      }
      verdicts := verdicts + [decisions];
    }
    unwound := false;
  }

  method RequestApprovals(log: Log, w: World, requests: seq<Body>)
    requires forall b :: b in requests ==> b.ApprovalRequested?
    modifies log`events, log`storageErr, log.Sink()
    ensures Quietly(old(Snap(log, w)), Snap(log, w))
    ensures log.storageErr == None ==> log.events == Extend(old(log.events), requests)
  {
    ghost var a := Snap(log, w);
    QuietlyNowhere(a);
    assert Extend(a.log, requests[..0]) == a.log;
    for i := 0 to |requests|
      invariant Quietly(a, Snap(log, w))
      invariant log.storageErr == None ==> log.events == Extend(a.log, requests[..i])
    {
      ghost var b := Snap(log, w);
      assert requests[i] in requests;
      AppendNeutral(log, w, requests[i]);
      QuietlyOn(a, b, Snap(log, w));
      ExtendTwice(a.log, requests[..i], [requests[i]]);
      assert requests[..i] + [requests[i]] == requests[..i + 1];
    }
    assert requests[..|requests|] == requests;
  }

  function DenialOutcome(reason: string): Outcome {
    Outcome("", "denied by hook: " + if reason == "" then "no reason given" else reason)
  }

  /** What becomes of one use of a batch: it is refused, or run from moment `tick` on. */
  function Verdict(runner: Runner, use: Body, decisions: seq<HookDecision>, o: Oracles, tick: nat): Outcome
    requires use.ToolUse?
  {
    if Denial(decisions).Some? then DenialOutcome(Denial(decisions).value)
    else runner.OutcomeOf(Overridden(use, decisions), o, tick)
  }

  ghost predicate SaysAt(log: seq<Event>, r: int, use: Body, outcome: Outcome)
    requires use.ToolUse?
  {
    0 <= r < |log| && log[r].body == ToolResult(use.id, outcome.output, outcome.error)
  }

  /** The log says what became of a use. */
  ghost predicate Settled(log: seq<Event>, runner: Runner, use: Body, decisions: seq<HookDecision>, o: Oracles) {
    use.ToolUse? && exists r, tick :: SaysAt(log, r, use, Verdict(runner, use, decisions, o, tick))
  }

  lemma {:induction false} SettledRemains(log: seq<Event>, after: seq<Event>, runner: Runner, use: Body,
                                          decisions: seq<HookDecision>, o: Oracles)
    requires log <= after && Settled(log, runner, use, decisions, o)
    ensures Settled(after, runner, use, decisions, o) && HasResult(after, use.id)
  {
    var r, tick :| SaysAt(log, r, use, Verdict(runner, use, decisions, o, tick));
    assert SaysAt(after, r, use, Verdict(runner, use, decisions, o, tick));
    assert ResultAt(after, r, use.id);
  }

  /** One use of a batch: refused, or run. Either way it gets its result. */
  method Settle(log: Log, w: World, runner: Runner, use: Body, decisions: seq<HookDecision>)
    requires use.ToolUse? && Waiting(log, w, use.id)
    modifies log`events, log`storageErr, log.Sink(), w`rogue, w`reckless, w`clock, w`handled
    ensures Ran(old(Snap(log, w)), Snap(log, w), Overridden(use, decisions), Denial(decisions) == None
            && runner.Calls(use.name))
    ensures log.storageErr == None ==>
              if Denial(decisions).Some? then
                log.events == Extend(old(log.events), [ToolResult(use.id, "", "denied by hook: "
                  + if Denial(decisions) == Some("") then "no reason given" else Denial(decisions).value)])
              else runner.Wrote(old(log.events), log.events, Overridden(use, decisions), w.oracles, old(w.clock))
    ensures log.storageErr == None ==> Settled(log.events, runner, use, decisions, w.oracles)
    ensures w.clock >= old(w.clock)
  {
    var denial := Denial(decisions);
    if denial.Some? {
      runner.Finish(use, log, w, DenialOutcome(denial.value), false);
    } else {
      runner.Run(Overridden(use, decisions), log, w);
    }
    assert log.storageErr == None ==>
        SaysAt(log.events, |log.events| - 1, use, Verdict(runner, use, decisions, w.oracles, old(w.clock)));
  }

  /** After a run, the ids with results are those from before and the one that ran. */
  lemma {:induction false} RanAnswersOne(a: Snapshot, b: Snapshot, use: Body, handled: bool)
    requires Ran(a, b, use, handled) && !b.latched && !b.rogue
    ensures forall x :: HasResult(b.log, x) <==> HasResult(a.log, x) || x == use.id
    ensures forall x :: HasUse(b.log, x) <==> HasUse(a.log, x)
  {
    var most := b.log[..|b.log| - 1];
    assert ResultAt(b.log, |b.log| - 1, use.id);
    forall x
      ensures HasResult(b.log, x) <==> HasResult(most, x) || x == use.id
    {
      if r :| ResultAt(b.log, r, x) {
        assert r < |most| ==> ResultAt(most, r, x);
      }
      if r :| ResultAt(most, r, x) {
        assert ResultAt(b.log, r, x);
      }
    }
    forall x
      ensures HasUse(b.log, x) <==> HasUse(most, x)
    {
      if u :| UseAt(b.log, u, x) {
        assert UseAt(most, u, x);
      }
      if u :| UseAt(most, u, x) {
        assert UseAt(b.log, u, x);
      }
    }
  }

  lemma {:induction false} SoundBefore(a: Snapshot, b: Snapshot)
    requires a.log <= b.log && Sound(b.log)
    ensures Sound(a.log)
  {
    ForksAreSound(b.log, |a.log|);
    assert b.log[..|a.log|] == a.log;
  }

  lemma {:induction false} BatchAfterQuiet(a: Snapshot, b: Snapshot, uses: seq<Event>)
    requires Quietly(a, b) && Batch(a.log, a.rogue, uses)
    ensures Batch(b.log, b.rogue, uses)
  {
    if !b.rogue && Sound(b.log) {
      SoundBefore(a, b);
    }
  }

  lemma {:induction false} BatchAfterRun(a: Snapshot, b: Snapshot, uses: seq<Event>, use: Body, handled: bool)
    requires uses != [] && Batch(a.log, a.rogue, uses) && uses[0].body.ToolUse?
    requires Ran(a, b, use, handled) && use.id == uses[0].body.id
    ensures Batch(b.log, b.rogue, uses[1..])
  {
    if !b.latched && !b.rogue {
      RanAnswersOne(a, b, use, handled);
    }
    if !b.rogue && Sound(b.log) {
      SoundBefore(a, b);
      forall k | 0 <= k < |uses[1..]|
        ensures HasUse(b.log, uses[1..][k].body.id) && !HasResult(b.log, uses[1..][k].body.id)
      {
        assert uses[1..][k] == uses[k + 1] && uses[k + 1] in uses;
      }
    }
  }

  /** What the first `n` uses of a batch hand to handlers: every use that is not denied and has a handler, in order,
      with the arguments the hooks left it. */
  ghost function HandedOut(runner: Runner, uses: seq<Event>, verdicts: seq<seq<HookDecision>>, n: nat): seq<Body>
    requires n <= |uses| && n <= |verdicts| && forall e :: e in uses ==> e.body.ToolUse?
  {
    if n == 0 then []
    else
      var use, decisions := uses[n - 1].body, verdicts[n - 1];
      HandedOut(runner, uses, verdicts, n - 1)
      + if uses[n - 1] in uses && Denial(decisions) == None
        && runner.Calls(use.name) then [Overridden(use, decisions)] else []
  }

  /** Some first part of the batch was handed out, in order: each use that no hook refuses and that has a handler, with
      the arguments of the first decision that gives any, or else its own. All of the batch, if nothing unwound the
      turn. */
  ghost predicate HandedUpTo(runner: Runner, uses: seq<Event>, verdicts: seq<seq<HookDecision>>, before: seq<Body>,
                             after: seq<Body>, all: bool)
  {
    exists i, more, at :: HandedFrom(runner, uses, verdicts, before, after, i, more, at) && (all ==> i == |uses|)
  }

  ghost predicate HandedFrom(runner: Runner, uses: seq<Event>, verdicts: seq<seq<HookDecision>>, before: seq<Body>,
                             after: seq<Body>, i: nat, more: seq<Body>, at: seq<nat>) {
    i <= |uses| && after == before + more && Placed(i, more, at, HandsOf(runner, uses, verdicts))
  }

  /** The same, under the decisions the hooks answered. */
  ghost predicate HandedAsAnswered(runner: Runner, uses: seq<Event>, o: Oracles, tick: nat, before: seq<Body>,
                                   after: seq<Body>, all: bool) {
    exists verdicts :: |verdicts| == |uses| && AreAnswers(verdicts, o, tick)
        && HandedUpTo(runner, uses, verdicts, before, after, all)
  }

  /** How far a batch has come: `i` uses are settled, the others still wait. */
  ghost predicate Progress(a: Snapshot, s: Snapshot, runner: Runner, uses: seq<Event>,
                           verdicts: seq<seq<HookDecision>>, o: Oracles, i: int) {
    && 0 <= i <= |uses| && i <= |verdicts| && (forall e :: e in uses ==> e.body.ToolUse?)
    && Stepped(a, s) && s.calls == a.calls
    && Batch(s.log, s.rogue, uses[i..])
    && SettledUpTo(s, runner, uses, verdicts, o, i)
    && s.handled == a.handled + HandedOut(runner, uses, verdicts, i)
    && UsesNothingNew(a, s)
  }

  /** Unless the outside broke the rules, no id has come into use. */
  ghost predicate UsesNothingNew(a: Snapshot, s: Snapshot) {
    !s.latched && !s.rogue ==> forall x :: HasUse(s.log, x) ==> HasUse(a.log, x)
  }

  /** Unless the log latched, it says what became of the first `i` uses. */
  ghost predicate SettledUpTo(s: Snapshot, runner: Runner, uses: seq<Event>, verdicts: seq<seq<HookDecision>>,
                              o: Oracles, i: int)
    requires 0 <= i <= |uses| && i <= |verdicts|
  {
    !s.latched ==> forall k :: 0 <= k < i ==> Settled(s.log, runner, uses[k].body, verdicts[k], o)
  }

  lemma {:induction false} AllRemainSettled(b: Snapshot, c: Snapshot, runner: Runner, uses: seq<Event>,
                                            verdicts: seq<seq<HookDecision>>, o: Oracles, i: int)
    requires b.log <= c.log && (b.latched ==> c.latched) && 0 <= i <= |uses| && i <= |verdicts|
    requires SettledUpTo(b, runner, uses, verdicts, o, i)
    ensures SettledUpTo(c, runner, uses, verdicts, o, i)
    ensures i < |uses| && i < |verdicts| && (!c.latched ==> Settled(c.log, runner, uses[i].body, verdicts[i], o)) ==>
              SettledUpTo(c, runner, uses, verdicts, o, i + 1)
  {
    if !c.latched {
      forall k | 0 <= k < i
        ensures Settled(c.log, runner, uses[k].body, verdicts[k], o)
      {
        SettledRemains(b.log, c.log, runner, uses[k].body, verdicts[k], o);
      }
    }
  }

  lemma {:induction false} HandedOneMore(runner: Runner, uses: seq<Event>, verdicts: seq<seq<HookDecision>>, i: nat,
                                         before: seq<Body>, handled: seq<Body>, more: seq<Body>)
    requires i < |uses| && i < |verdicts| && forall e :: e in uses ==> e.body.ToolUse?
    requires handled == before + HandedOut(runner, uses, verdicts, i)
    requires var use, decisions := uses[i].body, verdicts[i];
             more == if uses[i] in uses && Denial(decisions) == None
               && runner.Calls(use.name) then [Overridden(use, decisions)] else []
    ensures handled + more == before + HandedOut(runner, uses, verdicts, i + 1)
  {
    assert HandedOut(runner, uses, verdicts, i + 1) == HandedOut(runner, uses, verdicts, i) + more;
  }

  lemma {:induction false} RanUsesNothingNew(a: Snapshot, b: Snapshot, c: Snapshot, use: Body, handled: bool)
    requires UsesNothingNew(a, b) && Ran(b, c, use, handled)
    ensures UsesNothingNew(a, c)
  {
    if !c.latched && !c.rogue {
      RanAnswersOne(b, c, use, handled);
    }
  }

  lemma {:induction false} ProgressStarts(a: Snapshot, runner: Runner, uses: seq<Event>,
                                          verdicts: seq<seq<HookDecision>>, o: Oracles)
    requires Batch(a.log, a.rogue, uses)
    ensures Progress(a, a, runner, uses, verdicts, o, 0)
  {
    MovedNowhere(a);
    assert uses[0..] == uses && a.handled + [] == a.handled;
  }

  lemma {:induction false} ProgressByRun(a: Snapshot, b: Snapshot, c: Snapshot, runner: Runner, uses: seq<Event>,
                                         verdicts: seq<seq<HookDecision>>, o: Oracles, i: int)
    requires Progress(a, b, runner, uses, verdicts, o, i) && i < |uses| && i < |verdicts| && uses[i].body.ToolUse?
    requires Ran(b, c, Overridden(uses[i].body, verdicts[i]), Denial(verdicts[i]) == None
             && runner.Calls(uses[i].body.name))
    requires !c.latched ==> Settled(c.log, runner, uses[i].body, verdicts[i], o)
    ensures Progress(a, c, runner, uses, verdicts, o, i + 1)
  {
    var use, handled := Overridden(uses[i].body, verdicts[i]), Denial(verdicts[i]) == None
        && runner.Calls(uses[i].body.name);
    var left, next := uses[i..], uses[i + 1..];
    assert left[0] == uses[i] && left[1..] == next;
    BatchAfterRun(b, c, left, use, handled);
    SteppedOn(a, b, c);
    RanUsesNothingNew(a, b, c, use, handled);
    AllRemainSettled(b, c, runner, uses, verdicts, o, i);
    var more := if handled then [use] else [];
    assert c.handled == b.handled + more;
    HandedOneMore(runner, uses, verdicts, i, a.handled, b.handled, more);
  }

  lemma {:induction false} ProgressByQuiet(a: Snapshot, b: Snapshot, c: Snapshot, runner: Runner, uses: seq<Event>,
                                           verdicts: seq<seq<HookDecision>>, o: Oracles, i: int)
    requires Progress(a, b, runner, uses, verdicts, o, i) && Quietly(b, c)
    ensures Progress(a, c, runner, uses, verdicts, o, i)
  {
    BatchAfterQuiet(b, c, uses[i..]);
    SteppedOn(a, b, c);
    AllRemainSettled(b, c, runner, uses, verdicts, o, i);
  }

  /** Every use of the batch has its result, which says what became of it. */
  ghost predicate AllSettled(log: seq<Event>, runner: Runner, uses: seq<Event>, verdicts: seq<seq<HookDecision>>,
                             o: Oracles)
    requires |uses| == |verdicts|
  {
    forall k :: 0 <= k < |uses| ==> Settled(log, runner, uses[k].body, verdicts[k], o)
  }

  /** How far the batch came: to its end, if nothing unwound the turn. */
  ghost predicate Reached(a: Snapshot, s: Snapshot, runner: Runner, uses: seq<Event>, verdicts: seq<seq<HookDecision>>,
                          o: Oracles, all: bool) {
    exists i :: Progress(a, s, runner, uses, verdicts, o, i) && (all ==> i == |uses|)
  }

  /** The second pass: the batch runs in order, each use once. */
  method RunBatch(log: Log, w: World, runner: Runner, uses: seq<Event>, verdicts: seq<seq<HookDecision>>)
    returns (unwound: bool)
    requires |uses| == |verdicts| && Batch(log.events, w.rogue, uses)
    modifies log`events, log`storageErr, log.Sink(), w`rogue, w`reckless, w`clock, w`handled
    ensures Reached(old(Snap(log, w)), Snap(log, w), runner, uses, verdicts, w.oracles, !unwound)
    ensures HandedUpTo(runner, uses, verdicts, old(w.handled), w.handled, !unwound)
    ensures unwound ==> Failing(log)
    ensures w.clock >= old(w.clock)
  {
    ghost var a := Snap(log, w);
    ProgressStarts(a, runner, uses, verdicts, w.oracles);
    for i := 0 to |uses|
      invariant Progress(a, Snap(log, w), runner, uses, verdicts, w.oracles, i) && w.clock >= old(w.clock)
    {
      ghost var b := Snap(log, w);
      NextIsWaiting(a, b, runner, uses, verdicts, w.oracles, i);
      var stop := RunNext(log, w, runner, uses[i].body, verdicts[i]);
      ProgressByNext(a, b, Snap(log, w), runner, uses, verdicts, w.oracles, i);
      if stop {
        HandedByProgress(a, Snap(log, w), runner, uses, verdicts, w.oracles, i + 1, false);
        return true;
      }
    }
    HandedByProgress(a, Snap(log, w), runner, uses, verdicts, w.oracles, |uses|, true);
    unwound := false;
  }

  lemma {:induction false} HandedByProgress(a: Snapshot, s: Snapshot, runner: Runner, uses: seq<Event>,
                                            verdicts: seq<seq<HookDecision>>, o: Oracles, i: nat, all: bool)
    requires Progress(a, s, runner, uses, verdicts, o, i) && (all ==> i == |uses|)
    ensures HandedUpTo(runner, uses, verdicts, a.handled, s.handled, all)
  {
    var at := WhereHanded(runner, uses, verdicts, i);
    assert HandedFrom(runner, uses, verdicts, a.handled, s.handled, i, HandedOut(runner, uses, verdicts, i), at);
  }

  /** A use was settled, and then the hooks saw it. */
  ghost predicate SettledNext(b: Snapshot, d: Snapshot, runner: Runner, use: Body, decisions: seq<HookDecision>,
                              o: Oracles) {
    use.ToolUse? && exists c :: SettledThen(b, c, d, runner, use, decisions, o)
  }

  ghost predicate SettledThen(b: Snapshot, c: Snapshot, d: Snapshot, runner: Runner, use: Body,
                              decisions: seq<HookDecision>, o: Oracles)
    requires use.ToolUse?
  {
    && Ran(b, c, Overridden(use, decisions), Denial(decisions) == None && runner.Calls(use.name))
    && (!c.latched ==> Settled(c.log, runner, use, decisions, o))
    && Quietly(c, d)
  }

  lemma {:induction false} NextIsWaiting(a: Snapshot, b: Snapshot, runner: Runner, uses: seq<Event>,
                                         verdicts: seq<seq<HookDecision>>,
                                         o: Oracles, i: int)
    requires Progress(a, b, runner, uses, verdicts, o, i) && i < |uses|
    ensures uses[i].body.ToolUse?
    ensures !b.rogue && Sound(b.log) ==> HasUse(b.log, uses[i].body.id) && !HasResult(b.log, uses[i].body.id)
  {
    assert uses[i..][0] == uses[i] && uses[i] in uses[i..] && uses[i] in uses;
  }

  lemma {:induction false} ProgressByNext(a: Snapshot, b: Snapshot, d: Snapshot, runner: Runner, uses: seq<Event>,
                                          verdicts: seq<seq<HookDecision>>, o: Oracles, i: int)
    requires Progress(a, b, runner, uses, verdicts, o, i) && i < |uses| && i < |verdicts|
    requires SettledNext(b, d, runner, uses[i].body, verdicts[i], o)
    ensures Progress(a, d, runner, uses, verdicts, o, i + 1)
  {
    var c :| SettledThen(b, c, d, runner, uses[i].body, verdicts[i], o);
    ProgressByRun(a, b, c, runner, uses, verdicts, o, i);
    ProgressByQuiet(a, c, d, runner, uses, verdicts, o, i + 1);
  }

  /** One use of the batch, and the hooks that see its result. */
  method RunNext(log: Log, w: World, runner: Runner, use: Body, decisions: seq<HookDecision>) returns (unwound: bool)
    requires use.ToolUse? && Waiting(log, w, use.id)
    modifies log`events, log`storageErr, log.Sink(), w`rogue, w`reckless, w`clock, w`handled
    ensures SettledNext(old(Snap(log, w)), Snap(log, w), runner, use, decisions, w.oracles)
    ensures unwound ==> Failing(log)
    ensures w.clock >= old(w.clock)
  {
    ghost var b := Snap(log, w);
    Settle(log, w, runner, use, decisions);
    ghost var c := Snap(log, w);
    var _, stop := Invoke(log, w);
    unwound := stop;
    assert SettledThen(b, c, Snap(log, w), runner, use, decisions, w.oracles);
  }

  // ---------- Dispatch ----------

  /** The batch pending in `a` was dispatched: the hooks held none of it, and each use was settled as they and the
      runner say. */
  ghost predicate SettledBy(a: Snapshot, b: Snapshot, runner: Runner, o: Oracles, tick: nat,
                            verdicts: seq<seq<HookDecision>>) {
    var pending := Pending(a.log, |a.log|);
    && |verdicts| == |pending| && AreAnswers(verdicts, o, tick) && (forall e :: e in pending ==> e.body.ToolUse?)
    && Requests(pending, verdicts) == []
    && AllSettled(b.log, runner, pending, verdicts, o)
    && HandedUpTo(runner, pending, verdicts, a.handled, b.handled, true)
  }

  ghost predicate BatchSettled(a: Snapshot, b: Snapshot, runner: Runner, o: Oracles, tick: nat) {
    exists verdicts :: SettledBy(a, b, runner, o, tick, verdicts)
  }

  /** The batch pending in `a` was held: exactly the requests for it end the log, and nothing ran. */
  ghost predicate HeldBy(a: Snapshot, b: Snapshot, o: Oracles, tick: nat, verdicts: seq<seq<HookDecision>>,
                         mid: seq<Event>) {
    var pending := Pending(a.log, |a.log|);
    && |verdicts| == |pending| && AreAnswers(verdicts, o, tick) && (forall e :: e in pending ==> e.body.ToolUse?)
    && Requests(pending, verdicts) != []
    && a.log <= mid && b.log == Extend(mid, Requests(pending, verdicts))
    && b.handled == a.handled
  }

  ghost predicate BatchHeld(a: Snapshot, b: Snapshot, o: Oracles, tick: nat) {
    exists verdicts, mid :: HeldBy(a, b, o, tick, verdicts, mid)
  }

  /** Once everything pending is settled and no id has come into use, nothing is pending. */
  lemma {:induction false} SettledLeavesNothing(a: Snapshot, b: Snapshot, runner: Runner,
                                                verdicts: seq<seq<HookDecision>>, o: Oracles)
    requires a.log <= b.log && |verdicts| == |Pending(a.log, |a.log|)|
    requires AllSettled(b.log, runner, Pending(a.log, |a.log|), verdicts, o)
    requires forall x :: HasUse(b.log, x) ==> HasUse(a.log, x)
    ensures NoPending(b.log)
  {
    forall u, id | UseAt(b.log, u, id)
      ensures HasResult(b.log, id)
    {
      assert HasUse(b.log, id);
      UseGetsResult(a, b, runner, verdicts, o, id);
    }
  }

  lemma {:induction false} UseGetsResult(a: Snapshot, b: Snapshot, runner: Runner, verdicts: seq<seq<HookDecision>>,
                                         o: Oracles, id: string)
    requires a.log <= b.log && |verdicts| == |Pending(a.log, |a.log|)|
    requires AllSettled(b.log, runner, Pending(a.log, |a.log|), verdicts, o) && HasUse(a.log, id)
    ensures HasResult(b.log, id)
  {
    var pending := Pending(a.log, |a.log|);
    if r :| ResultAt(a.log, r, id) {
      assert ResultAt(b.log, r, id);
    } else {
      var v :| UseAt(a.log, v, id);
      assert a.log[v] in pending;
      var k :| 0 <= k < |pending| && pending[k] == a.log[v];
      SettledRemains(b.log, b.log, runner, pending[k].body, verdicts[k], o);
    }
  }

  ghost predicate RequestAt(log: seq<Event>, k: int, id: string) {
    0 <= k < |log| && log[k].body == ApprovalRequested(id)
  }

  ghost predicate ResolutionAt(log: seq<Event>, k: int, id: string) {
    0 <= k < |log| && log[k].body.ApprovalResolved? && log[k].body.id == id
  }

  /** An approval for `id` was requested at `k` and has not been resolved since. */
  ghost predicate OpenRequest(log: seq<Event>, k: int, id: string) {
    RequestAt(log, k, id) && forall l :: k < l ==> !ResolutionAt(log, l, id)
  }

  ghost predicate IsPending(log: seq<Event>, id: string) {
    HasUse(log, id) && !HasResult(log, id)
  }

  ghost predicate AwaitingApproval(log: seq<Event>) {
    exists k, id :: OpenRequest(log, k, id) && IsPending(log, id)
  }

  /** An approval was resolved, yet its use has no result. */
  ghost predicate ResolvedWithoutResult(log: seq<Event>) {
    exists k, id :: ResolutionAt(log, k, id) && IsPending(log, id)
  }

  /** What is asked about use `k` of a batch: exactly if hooks held it and none refused it. */
  ghost function AsksOf(uses: seq<Event>, verdicts: seq<seq<HookDecision>>): (int, Body) -> bool {
    (k, request) =>
      && 0 <= k < |uses| && k < |verdicts| && uses[k].body.ToolUse? && request == ApprovalRequested(uses[k].body.id)
      && (exists d :: d in verdicts[k] && d.pendingApproval) && forall d :: d in verdicts[k] ==> d.allow != Some(false)
  }

  lemma {:induction false} AsksIff(uses: seq<Event>, verdicts: seq<seq<HookDecision>>, k: nat)
    requires k < |uses| && k < |verdicts| && uses[k].body.ToolUse?
    ensures MustAsk(verdicts[k]) ==> AsksOf(uses, verdicts)(k, ApprovalRequested(uses[k].body.id))
    ensures !MustAsk(verdicts[k]) ==> forall b :: !AsksOf(uses, verdicts)(k, b)
  {}

  lemma {:induction false} RequestsInOrder(uses: seq<Event>, verdicts: seq<seq<HookDecision>>, n: nat)
    returns (at: seq<nat>)
    requires n <= |uses| && n <= |verdicts| && forall e :: e in uses ==> e.body.ToolUse?
    ensures Placed(n, RequestsUpTo(uses, verdicts, n), at, AsksOf(uses, verdicts))
  {
    if n == 0 {
      at := [];
    } else {
      var k := n - 1;
      at := RequestsInOrder(uses, verdicts, k);
      assert uses[k] in uses;
      at := PlaceRequest(uses, verdicts, k, RequestsUpTo(uses, verdicts, k), at);
    }
  }

  lemma {:induction false} PlaceRequest(uses: seq<Event>, verdicts: seq<seq<HookDecision>>, k: nat,
                                        before: seq<Body>, at: seq<nat>)
    returns (next: seq<nat>)
    requires k < |uses| && k < |verdicts| && forall e :: e in uses ==> e.body.ToolUse?
    requires before == RequestsUpTo(uses, verdicts, k) && Placed(k, before, at, AsksOf(uses, verdicts))
    ensures Placed(k + 1, RequestsUpTo(uses, verdicts, k + 1), next, AsksOf(uses, verdicts))
  {
    assert uses[k] in uses;
    AsksIff(uses, verdicts, k);
    if MustAsk(verdicts[k]) {
      PlaceOne(k, before, at, AsksOf(uses, verdicts), ApprovalRequested(uses[k].body.id));
      next := at + [k];
    } else {
      PlaceNone(k, before, at, AsksOf(uses, verdicts));
      assert RequestsUpTo(uses, verdicts, k + 1) == before;
      next := at;
    }
  }

  lemma {:induction false} FirstRequestIsPending(before: seq<Event>, uses: seq<Event>,
                                                 verdicts: seq<seq<HookDecision>>) returns (id: string)
    requires uses == Pending(before, |before|) && |uses| == |verdicts| && Requests(uses, verdicts) != []
    ensures Requests(uses, verdicts)[0] == ApprovalRequested(id) && IsPending(before, id)
  {
    var requests := Requests(uses, verdicts);
    var at := RequestsInOrder(uses, verdicts, |uses|);
    assert AsksOf(uses, verdicts)(at[0], requests[0]);
    var i := at[0];
    id := uses[i].body.id;
    assert uses[i] in uses;
    var p :| 0 <= p < |before| && before[p] == uses[i] && before[p].body.ToolUse? && !HasResult(before, id);
    assert UseAt(before, p, id);
  }

  lemma {:induction false} LastRequestIsOpen(mid: seq<Event>, requests: seq<Body>, id: string)
    requires requests != [] && requests[0] == ApprovalRequested(id)
    requires forall b :: b in requests ==> b.ApprovalRequested?
    ensures OpenRequest(Extend(mid, requests), |mid|, id)
    ensures SameTools(mid, Extend(mid, requests))
  {
    var after := Extend(mid, requests);
    assert forall k :: |mid| <= k < |after| ==> after[k].body == requests[k - |mid|] && requests[k - |mid|] in requests;
    QuietKeepsTools(mid, after);
  }

  /** After its requests are appended, the log awaits approval. */
  lemma {:induction false} RequestedIsAwaiting(before: seq<Event>, mid: seq<Event>, uses: seq<Event>,
                                               verdicts: seq<seq<HookDecision>>)
    requires uses == Pending(before, |before|) && |uses| == |verdicts|
    requires SameTools(before, mid) && Requests(uses, verdicts) != []
    ensures AwaitingApproval(Extend(mid, Requests(uses, verdicts)))
  {
    var id := FirstRequestIsPending(before, uses, verdicts);
    LastRequestIsOpen(mid, Requests(uses, verdicts), id);
  }

  /** Asks for approval when the hooks hold a use; runs the batch when they hold none. */
  method AskOrRun(log: Log, w: World, runner: Runner, uses: seq<Event>, verdicts: seq<seq<HookDecision>>)
    returns (awaiting: bool, unwound: bool)
    requires |uses| == |verdicts| && Batch(log.events, w.rogue, uses)
    modifies log`events, log`storageErr, log.Sink(), w`rogue, w`reckless, w`clock, w`handled
    ensures awaiting <==> Requests(uses, verdicts) != []
    ensures awaiting ==>
              && !unwound && Quietly(old(Snap(log, w)), Snap(log, w)) && w.rogue == old(w.rogue)
              && (log.storageErr == None ==> log.events == Extend(old(log.events), Requests(uses, verdicts)))
    ensures !awaiting ==> Reached(old(Snap(log, w)), Snap(log, w), runner, uses, verdicts, w.oracles, !unwound)
    ensures unwound ==> Failing(log)
    ensures w.clock >= old(w.clock)
  {
    var requests := Requests(uses, verdicts);
    if requests != [] {
      RequestApprovals(log, w, requests);
      return true, false;
    }
    unwound := RunBatch(log, w, runner, uses, verdicts);
    awaiting := false;
  }

  method DispatchPendingTools(log: Log, w: World, runner: Option<Runner>)
    returns (pending: seq<Event>, awaiting: bool, unwound: bool)
    modifies log`events, log`storageErr, log.Sink(), w`rogue, w`reckless, w`clock, w`handled
    ensures Moved(old(Snap(log, w)), Snap(log, w)) && w.calls == old(w.calls)
    ensures pending == Pending(old(log.events), |old(log.events)|)
    ensures runner == None ==> !awaiting && !unwound && Snap(log, w) == old(Snap(log, w))
    ensures unwound ==> Failing(log) && !awaiting
    ensures awaiting ==> w.handled == old(w.handled)
    ensures awaiting && log.storageErr == None ==>
              && BatchHeld(old(Snap(log, w)), Snap(log, w), w.oracles, old(w.clock))
              && (!w.rogue ==> AwaitingApproval(log.events))
    ensures !awaiting && !unwound && runner.Some? && log.storageErr == None ==>
              && BatchSettled(old(Snap(log, w)), Snap(log, w), runner.value, w.oracles, old(w.clock))
              && (!w.rogue ==> NoPending(log.events))
    ensures runner.Some? && !awaiting ==>
              || w.handled == old(w.handled)
              || HandedAsAnswered(runner.value, pending, w.oracles, old(w.clock), old(w.handled), w.handled, !unwound)
    ensures w.clock >= old(w.clock)
  {
    MovedNowhere(Snap(log, w));
    pending := PendingToolUses(log.events);
    awaiting, unwound := false, false;
    if runner.Some? {
      awaiting, unwound := DispatchBatch(log, w, runner.value, pending);
    }
  }

  /** Every use's hooks are asked; then the batch is held, or run. */
  method DispatchBatch(log: Log, w: World, runner: Runner, pending: seq<Event>) returns (awaiting: bool, unwound: bool)
    requires pending == Pending(log.events, |log.events|)
    modifies log`events, log`storageErr, log.Sink(), w`rogue, w`reckless, w`clock, w`handled
    ensures Moved(old(Snap(log, w)), Snap(log, w)) && w.calls == old(w.calls)
    ensures unwound ==> Failing(log) && !awaiting
    ensures awaiting ==> w.handled == old(w.handled)
    ensures awaiting && log.storageErr == None ==>
              && BatchHeld(old(Snap(log, w)), Snap(log, w), w.oracles, old(w.clock))
              && (!w.rogue ==> AwaitingApproval(log.events))
    ensures !awaiting && !unwound && log.storageErr == None ==>
              && BatchSettled(old(Snap(log, w)), Snap(log, w), runner, w.oracles, old(w.clock))
              && (!w.rogue ==> NoPending(log.events))
    ensures !awaiting ==>
              || w.handled == old(w.handled)
              || HandedAsAnswered(runner, pending, w.oracles, old(w.clock), old(w.handled), w.handled, !unwound)
    ensures w.clock >= old(w.clock)
  {
    ghost var a := Snap(log, w);
    var verdicts;
    verdicts, unwound := AskHooks(log, w, pending);
    if unwound {
      return false, true;
    }
    ghost var b := Snap(log, w);
    BatchAfterHooks(a, b);
    awaiting, unwound := AskOrRun(log, w, runner, pending, verdicts);
    ghost var c := Snap(log, w);
    if awaiting {
      QuietlyOn(a, b, c);
      HeldBatch(a, b, c, verdicts, w.oracles, old(w.clock));
    } else {
      BatchMoves(a, b, c, runner, pending, verdicts, w.oracles, old(w.clock), !unwound);
      if !unwound {
        SettledBatch(a, b, c, runner, verdicts, w.oracles, old(w.clock));
      }
    }
  }

  /** A use of a batch that reaches its handler. */
  ghost predicate Handed(runner: Runner, uses: seq<Event>, verdicts: seq<seq<HookDecision>>, k: int) {
    && 0 <= k < |uses| && k < |verdicts| && uses[k].body.ToolUse?
    && Denial(verdicts[k]) == None && runner.Calls(uses[k].body.name)
  }

  /** What use `k` of a batch hands to its handler. */
  ghost function HandsOf(runner: Runner, uses: seq<Event>, verdicts: seq<seq<HookDecision>>): (int, Body) -> bool {
    (k, use) => Handed(runner, uses, verdicts, k) && RunsAs(uses[k].body, verdicts[k], use)
  }

  lemma {:induction false} WhereHanded(runner: Runner, uses: seq<Event>, verdicts: seq<seq<HookDecision>>, n: nat)
    returns (at: seq<nat>)
    requires n <= |uses| && n <= |verdicts| && forall e :: e in uses ==> e.body.ToolUse?
    ensures Placed(n, HandedOut(runner, uses, verdicts, n), at, HandsOf(runner, uses, verdicts))
  {
    if n == 0 {
      at := [];
    } else {
      at := WhereHanded(runner, uses, verdicts, n - 1);
      assert uses[n - 1] in uses;
      var before := HandedOut(runner, uses, verdicts, n - 1);
      if Handed(runner, uses, verdicts, n - 1) {
        var use := Overridden(uses[n - 1].body, verdicts[n - 1]);
        PlaceOne(n - 1, before, at, HandsOf(runner, uses, verdicts), use);
        at := at + [n - 1];
      } else {
        PlaceNone(n - 1, before, at, HandsOf(runner, uses, verdicts));
        assert HandedOut(runner, uses, verdicts, n) == before;
      }
    }
  }

  /** Of the first `n` uses, no two that reach a handler have the same id. */
  ghost predicate HandedDiffer(runner: Runner, uses: seq<Event>, verdicts: seq<seq<HookDecision>>, n: nat) {
    forall j, k :: 0 <= j < k < n && Handed(runner, uses, verdicts, j) && Handed(runner, uses, verdicts, k) ==>
      uses[j].body.id != uses[k].body.id
  }

  lemma {:induction false} PlacesOfHanded(runner: Runner, uses: seq<Event>, verdicts: seq<seq<HookDecision>>, n: nat,
                                          handed: seq<Body>, at: seq<nat>, k: int)
    requires Placed(n, handed, at, HandsOf(runner, uses, verdicts)) && 0 <= k < n && Handed(runner, uses, verdicts, k)
    ensures k in at
  {
    assert HandsOf(runner, uses, verdicts)(k, Overridden(uses[k].body, verdicts[k]));
  }

  lemma {:induction false} HandedDifferIff(runner: Runner, uses: seq<Event>, verdicts: seq<seq<HookDecision>>, n: nat,
                                           handed: seq<Body>, at: seq<nat>)
    requires Placed(n, handed, at, HandsOf(runner, uses, verdicts))
    ensures IDsDiffer(handed) <==> HandedDiffer(runner, uses, verdicts, n)
  {
    if IDsDiffer(handed) {
      forall j, k | 0 <= j < k < n && Handed(runner, uses, verdicts, j) && Handed(runner, uses, verdicts, k)
        ensures uses[j].body.id != uses[k].body.id
      {
        TwoHanded(runner, uses, verdicts, n, handed, at, j, k);
      }
    }
    if HandedDiffer(runner, uses, verdicts, n) {
      forall j, k | 0 <= j < k < |handed|
        ensures UseID(handed[j]) != UseID(handed[k])
      {
        assert HandsOf(runner, uses, verdicts)(at[j], handed[j]) && HandsOf(runner, uses, verdicts)(at[k], handed[k]);
        assert at[j] < at[k];
      }
    }
  }

  lemma {:induction false} TwoHanded(runner: Runner, uses: seq<Event>, verdicts: seq<seq<HookDecision>>, n: nat,
                                     handed: seq<Body>, at: seq<nat>, j: int, k: int)
    requires Placed(n, handed, at, HandsOf(runner, uses, verdicts)) && IDsDiffer(handed) && 0 <= j < k < n
    requires Handed(runner, uses, verdicts, j) && Handed(runner, uses, verdicts, k)
    ensures uses[j].body.id != uses[k].body.id
  {
    PlacesOfHanded(runner, uses, verdicts, n, handed, at, j);
    PlacesOfHanded(runner, uses, verdicts, n, handed, at, k);
    var x :| 0 <= x < |at| && at[x] == j;
    var y :| 0 <= y < |at| && at[y] == k;
    assert HandsOf(runner, uses, verdicts)(at[x], handed[x]) && HandsOf(runner, uses, verdicts)(at[y], handed[y]);
    assert x < y;
  }

  /** A batch hands no id out twice exactly if no two of the uses that reach a handler have the same id. */
  lemma {:induction false} HandedOnceIff(runner: Runner, uses: seq<Event>, verdicts: seq<seq<HookDecision>>, n: nat)
    requires n <= |uses| && n <= |verdicts| && forall e :: e in uses ==> e.body.ToolUse?
    ensures IDsDiffer(HandedOut(runner, uses, verdicts, n)) <==> HandedDiffer(runner, uses, verdicts, n)
  {
    var at := WhereHanded(runner, uses, verdicts, n);
    HandedDifferIff(runner, uses, verdicts, n, HandedOut(runner, uses, verdicts, n), at);
  }

  /** Every use that was handed out has its result, and is one of the batch. */
  lemma {:induction false} HandedAreAnswered(c: Snapshot, runner: Runner, uses: seq<Event>,
                                             verdicts: seq<seq<HookDecision>>,
                                             o: Oracles, i: nat, k: nat)
    requires i <= |uses| && i <= |verdicts| && forall e :: e in uses ==> e.body.ToolUse?
    requires SettledUpTo(c, runner, uses, verdicts, o, i) && !c.latched && k < |HandedOut(runner, uses, verdicts, i)|
    ensures var id := UseID(HandedOut(runner, uses, verdicts, i)[k]);
            HasResult(c.log, id) && exists e :: e in uses && e.body.id == id
  {
    var at := WhereHanded(runner, uses, verdicts, i);
    assert HandsOf(runner, uses, verdicts)(at[k], HandedOut(runner, uses, verdicts, i)[k]);
    var use := uses[at[k]];
    SettledRemains(c.log, c.log, runner, use.body, verdicts[at[k]], o);
    assert use in uses;
  }

  /** What was handed out before has its result and is not handed out again. */
  lemma {:induction false} OnceMore(a: Snapshot, c: Snapshot, more: seq<Body>)
    requires HandledOnce(a) && IDsDiffer(more) && a.log <= c.log && c.handled == a.handled + more
    requires forall k :: 0 <= k < |more| ==> HasResult(c.log, UseID(more[k])) && !HasResult(a.log, UseID(more[k]))
    ensures HandledOnce(c)
  {
    ResultsRemain(a.log, c.log);
    assert forall k :: 0 <= k < |c.handled| ==>
        c.handled[k] == if k < |a.handled| then a.handled[k] else more[k - |a.handled|];
  }

  /** Dispatching what is pending hands nothing out twice, as long as no id is used again while it is pending. */
  lemma {:induction false} BatchStaysOnce(a: Snapshot, c: Snapshot, runner: Runner, uses: seq<Event>,
                                          verdicts: seq<seq<HookDecision>>, o: Oracles, i: nat)
    requires a.log <= c.log && uses == Pending(a.log, |a.log|) && i <= |uses| && i <= |verdicts|
    requires forall e :: e in uses ==> e.body.ToolUse?
    requires SettledUpTo(c, runner, uses, verdicts, o, i)
             && c.handled == a.handled + HandedOut(runner, uses, verdicts, i)
    ensures StaysOnce(a, c)
  {
    if !c.latched && UsesInTurn(c.log) && HandledOnce(a) {
      InTurnBefore(a.log, c.log);
      PendingIsDistinct(a.log, |a.log|);
      HandedOnceIff(runner, uses, verdicts, i);
      var more := HandedOut(runner, uses, verdicts, i);
      forall k | 0 <= k < |more|
        ensures HasResult(c.log, UseID(more[k])) && !HasResult(a.log, UseID(more[k]))
      {
        HandedAreAnswered(c, runner, uses, verdicts, o, i, k);
      }
      OnceMore(a, c, more);
    }
  }

  lemma {:induction false} BatchMoves(a: Snapshot, b: Snapshot, c: Snapshot, runner: Runner, uses: seq<Event>,
                                      verdicts: seq<seq<HookDecision>>, o: Oracles, tick: nat, all: bool)
    requires Quietly(a, b) && uses == Pending(a.log, |a.log|) && |verdicts| == |uses|
    requires Reached(b, c, runner, uses, verdicts, o, all)
    requires AreAnswers(verdicts, o, tick)
    ensures Moved(a, c) && c.calls == a.calls
    ensures HandedAsAnswered(runner, uses, o, tick, a.handled, c.handled, all)
    ensures all ==> Progress(b, c, runner, uses, verdicts, o, |uses|)
  {
    var i :| Progress(b, c, runner, uses, verdicts, o, i) && (all ==> i == |uses|);
    SteppedOn(a, b, c);
    BatchStaysOnce(a, c, runner, uses, verdicts, o, i);
    HandedByProgress(b, c, runner, uses, verdicts, o, i, all);
  }

  lemma {:induction false} HeldBatch(a: Snapshot, b: Snapshot, c: Snapshot, verdicts: seq<seq<HookDecision>>,
                                     o: Oracles, tick: nat)
    requires var pending := Pending(a.log, |a.log|);
             && |verdicts| == |pending| && AreAnswers(verdicts, o, tick) && Requests(pending, verdicts) != []
             && (!c.latched ==> c.log == Extend(b.log, Requests(pending, verdicts)))
    requires Quietly(a, b) && c.handled == a.handled && (b.rogue ==> c.rogue)
    ensures !c.latched ==> BatchHeld(a, c, o, tick) && (!c.rogue ==> AwaitingApproval(c.log))
  {
    if !c.latched {
      assert HeldBy(a, c, o, tick, verdicts, b.log);
      if !c.rogue {
        RequestedIsAwaiting(a.log, b.log, Pending(a.log, |a.log|), verdicts);
      }
    }
  }

  lemma {:induction false} SettledBatch(a: Snapshot, b: Snapshot, c: Snapshot, runner: Runner,
                                        verdicts: seq<seq<HookDecision>>, o: Oracles, tick: nat)
    requires var pending := Pending(a.log, |a.log|);
             && |verdicts| == |pending| && AreAnswers(verdicts, o, tick) && Requests(pending, verdicts) == []
             && Progress(b, c, runner, pending, verdicts, o, |pending|)
    requires Quietly(a, b)
    ensures !c.latched ==> BatchSettled(a, c, runner, o, tick) && (!c.rogue ==> NoPending(c.log))
  {
    HandedByProgress(b, c, runner, Pending(a.log, |a.log|), verdicts, o, |Pending(a.log, |a.log|)|, true);
    if !c.latched {
      assert SettledBy(a, c, runner, o, tick, verdicts);
      if !c.rogue {
        SettledLeavesNothing(a, c, runner, verdicts, o);
      }
    }
  }

  lemma {:induction false} BatchAfterHooks(a: Snapshot, b: Snapshot)
    requires Quietly(a, b)
    ensures Batch(b.log, b.rogue, Pending(a.log, |a.log|))
  {
    PendingIsBatch(a.log, a.rogue);
    BatchAfterQuiet(a, b, Pending(a.log, |a.log|));
  }

  lemma {:induction false} PendingIsBatch(log: seq<Event>, rogue: bool)
    ensures Batch(log, rogue, Pending(log, |log|))
  {
    if Sound(log) {
      PendingAreDistinct(log, |log|);
    }
  }
}
