/** Pairing of tool uses with tool results, before any provider call: integrity.go. */
module Integrity {
  import opened Events
  import opened Mutations

  datatype Code =
    | MissingToolUseID
    | DuplicateToolUseID
    | MissingToolResultID
    | OrphanToolResult
    | ToolResultBeforeUse
    | DuplicateToolResult
    | UnresolvedToolUse
    | ResolvedApprovalOpen
    | PreparedTranscriptStale

  datatype Violation = Violation(code: Code, eventSeq: int, toolUseID: string)

  // ---------- The declarative rules ----------

  ghost predicate UseAt(es: seq<Event>, i: int, id: string) {
    0 <= i < |es| && es[i].body.ToolUse? && es[i].body.id == id
  }

  ghost predicate ResultAt(es: seq<Event>, i: int, id: string) {
    0 <= i < |es| && es[i].body.ToolResult? && es[i].body.id == id
  }

  ghost predicate HasResult(es: seq<Event>, id: string) {
    exists j :: ResultAt(es, j, id)
  }

  ghost predicate HasUse(es: seq<Event>, id: string) {
    exists j :: UseAt(es, j, id)
  }

  /** The use of `id` comes before event `i`. */
  ghost predicate UsedBefore(es: seq<Event>, i: int, id: string) {
    0 <= i < |es| && exists u :: UseAt(es, u, id) && es[u].seqNo < es[i].seqNo
  }

  /** Tool ids are present and unique, and every result has an earlier use. */
  ghost predicate ReferencesSound(es: seq<Event>) {
    && (forall i :: !UseAt(es, i, "") && !ResultAt(es, i, ""))
    && (forall i, j, id :: UseAt(es, i, id) && UseAt(es, j, id) ==> i == j)
    && (forall i, j, id :: ResultAt(es, i, id) && ResultAt(es, j, id) ==> i == j)
    && (forall i, id :: ResultAt(es, i, id) ==> UsedBefore(es, i, id))
  }

  /** Every use has a result. */
  ghost predicate Resolved(es: seq<Event>) {
    forall i, id :: UseAt(es, i, id) ==> HasResult(es, id)
  }

  /** Each use has exactly one result, after it, and each result exactly one use. */
  ghost predicate ExactlyPaired(es: seq<Event>) {
    ReferencesSound(es) && Resolved(es)
  }

  /** The two conditions under which the program lets a provider see the log. */
  ghost predicate ProviderReady(log: seq<Event>) {
    ReferencesSound(log) && ExactlyPaired(Effective(log))
  }

  // ---------- What is reported about each event ----------

  ghost predicate EarlierUse(es: seq<Event>, n: int, id: string) {
    exists k :: k < n && UseAt(es, k, id)
  }

  ghost predicate EarlierResult(es: seq<Event>, n: int, id: string) {
    exists k :: k < n && ResultAt(es, k, id)
  }

  /** `use` is the first event of `es` before position `n` that uses `id`. */
  ghost predicate FirstUse(es: seq<Event>, n: int, u: int, id: string) {
    u < n && UseAt(es, u, id) && !EarlierUse(es, u, id)
  }

  /** The last use of an id before position `n`. */
  ghost predicate LastUse(es: seq<Event>, n: int, u: int, id: string) {
    u < n && UseAt(es, u, id) && forall k :: u < k < n ==> !UseAt(es, k, id)
  }

  /** Some result position `i` is not after the first use of its id. */
  ghost predicate TooEarly(es: seq<Event>, i: int, id: string) {
    ResultAt(es, i, id) && exists u :: FirstUse(es, |es|, u, id) && es[i].seqNo <= es[u].seqNo
  }

  datatype Pass = OverUses | OverResults | OverOpenUses

  /** The violations one pass reports at position `i`, in order. */
  ghost function Faults(pass: Pass, es: seq<Event>, i: nat): seq<Violation>
    requires i < |es|
  {
    var e := es[i];
    match pass
    case OverUses =>
      if !e.body.ToolUse? then []
      else if e.body.id == "" then [Violation(MissingToolUseID, e.seqNo, "")]
      else if EarlierUse(es, i, e.body.id) then [Violation(DuplicateToolUseID, e.seqNo, e.body.id)]
      else []
    case OverResults =>
      if !e.body.ToolResult? then []
      else if e.body.id == "" then [Violation(MissingToolResultID, e.seqNo, "")]
      else
        (if !HasUse(es, e.body.id) then [Violation(OrphanToolResult, e.seqNo, e.body.id)]
         else if TooEarly(es, i, e.body.id) then [Violation(ToolResultBeforeUse, e.seqNo, e.body.id)]
         else [])
        + (if EarlierResult(es, i, e.body.id) then [Violation(DuplicateToolResult, e.seqNo, e.body.id)] else [])
    case OverOpenUses =>
      if e.body.ToolUse? && e.body.id != "" && !HasResult(es, e.body.id)
      then [Violation(UnresolvedToolUse, e.seqNo, e.body.id)]
      else []
  }

  /** The violations one pass reports about the first `n` events, in order. */
  ghost function AllFaults(pass: Pass, es: seq<Event>, n: nat): seq<Violation>
    requires n <= |es|
  {
    Joined(FaultsOf(pass, es), n)
  }

  ghost function FaultsOf(pass: Pass, es: seq<Event>): int -> seq<Violation> {
    i => if 0 <= i < |es| then Faults(pass, es, i) else []
  }

  ghost function Joined<T>(parts: int -> seq<T>, n: nat): seq<T> {
    if n == 0 then [] else Joined(parts, n - 1) + parts(n - 1)
  }

  lemma {:induction false} OneEventMore(pass: Pass, es: seq<Event>, i: nat)
    requires i < |es|
    ensures AllFaults(pass, es, i + 1) == AllFaults(pass, es, i) + Faults(pass, es, i)
  {}

  // ---------- What each violation says ----------

  /** Event `i` deserves to be reported as `v` says. */
  ghost predicate Deserves(es: seq<Event>, i: int, v: Violation) {
    && 0 <= i < |es| && v.eventSeq == es[i].seqNo
    && match v.code
       case MissingToolUseID => UseAt(es, i, "") && v.toolUseID == ""
       case DuplicateToolUseID => UseAt(es, i, v.toolUseID) && v.toolUseID != "" && EarlierUse(es, i, v.toolUseID)
       case MissingToolResultID => ResultAt(es, i, "") && v.toolUseID == ""
       case OrphanToolResult => ResultAt(es, i, v.toolUseID) && v.toolUseID != "" && !HasUse(es, v.toolUseID)
       case ToolResultBeforeUse =>
         v.toolUseID != "" && HasUse(es, v.toolUseID) && TooEarly(es, i, v.toolUseID)
       case DuplicateToolResult =>
         ResultAt(es, i, v.toolUseID) && v.toolUseID != "" && EarlierResult(es, i, v.toolUseID)
       case UnresolvedToolUse => UseAt(es, i, v.toolUseID) && v.toolUseID != "" && !HasResult(es, v.toolUseID)
       case _ => false
  }

  /** Which pass reports which violations. */
  function PassFor(code: Code): Option<Pass> {
    match code
    case MissingToolUseID => Some(OverUses)
    case DuplicateToolUseID => Some(OverUses)
    case MissingToolResultID => Some(OverResults)
    case OrphanToolResult => Some(OverResults)
    case ToolResultBeforeUse => Some(OverResults)
    case DuplicateToolResult => Some(OverResults)
    case UnresolvedToolUse => Some(OverOpenUses)
    case _ => None
  }

  lemma {:induction false} FaultsMean(pass: Pass, es: seq<Event>, i: nat, v: Violation)
    requires i < |es|
    ensures v in Faults(pass, es, i) <==> Deserves(es, i, v) && PassFor(v.code) == Some(pass)
  {
    if pass == OverResults {
      ResultFaultsMean(es, i, v);
    }
  }

  lemma {:induction false} ResultFaultsMean(es: seq<Event>, i: nat, v: Violation)
    requires i < |es|
    ensures v in Faults(OverResults, es, i) <==> Deserves(es, i, v) && PassFor(v.code) == Some(OverResults)
  {}

  lemma {:induction false} InJoined<T>(parts: int -> seq<T>, n: nat, x: T)
    ensures x in Joined(parts, n) <==> exists i :: 0 <= i < n && x in parts(i)
  {
    if n > 0 {
      InJoined(parts, n - 1, x);
    }
  }

  /** A pass reports exactly what some event deserves. */
  lemma {:induction false} ReportedMeans(pass: Pass, es: seq<Event>)
    ensures forall v :: v in AllFaults(pass, es, |es|) <==>
              PassFor(v.code) == Some(pass) && exists i :: Deserves(es, i, v)
  {
    forall v
      ensures v in AllFaults(pass, es, |es|) <==> PassFor(v.code) == Some(pass) && exists i :: Deserves(es, i, v)
    {
      InJoined(FaultsOf(pass, es), |es|, v);
      forall i | 0 <= i < |es|
        ensures v in FaultsOf(pass, es)(i) <==> Deserves(es, i, v) && PassFor(v.code) == Some(pass)
      {
        FaultsMean(pass, es, i, v);
      }
    }
  }

  // ---------- The two-pass analysis ----------

  method AnalyzeToolReferences(es: seq<Event>) returns (violations: seq<Violation>)
    ensures violations == AllFaults(OverUses, es, |es|) + AllFaults(OverResults, es, |es|)
    ensures violations == [] <==> ReferencesSound(es)
    ensures forall v :: v in violations <==> v.code != UnresolvedToolUse && exists i :: Deserves(es, i, v)
  {
    var uses;
    uses, violations := IndexUses(es);
    var ofResults := CheckResults(es, uses);
    violations := violations + ofResults;
    NoFaultsIffSound(es);
    ReportedMeans(OverUses, es);
    ReportedMeans(OverResults, es);
  }

  method IndexUses(es: seq<Event>) returns (uses: map<string, Event>, violations: seq<Violation>)
    ensures violations == AllFaults(OverUses, es, |es|)
    ensures IndexesUses(uses, es, |es|)
  {
    uses, violations := map[], [];
    for i := 0 to |es|
      invariant violations == AllFaults(OverUses, es, i)
      invariant IndexesUses(uses, es, i)
    {
      var event := es[i];
      IndexOneMore(uses, es, i);
      OneEventMore(OverUses, es, i);
      if event.body.ToolUse? {
        var id := event.body.id;
        if id == "" {
          violations := violations + [Violation(MissingToolUseID, event.seqNo, "")];
        } else if id in uses {
          violations := violations + [Violation(DuplicateToolUseID, event.seqNo, id)];
        } else {
          uses := uses[id := event];
        }
      }
    }
  }

  lemma {:induction false} IndexOneMore(uses: map<string, Event>, es: seq<Event>, i: nat)
    requires i < |es| && IndexesUses(uses, es, i)
    ensures var b := es[i].body;
            IndexesUses(if b.ToolUse? && b.id != "" && b.id !in uses then uses[b.id := es[i]] else uses, es, i + 1)
  {
    var n := i + 1;
    assert es[i].body.ToolUse? ==> UseAt(es, i, es[i].body.id);
    forall id
      ensures EarlierUse(es, n, id) <==> EarlierUse(es, i, id) || UseAt(es, i, id)
    {
      if k :| k < i && UseAt(es, k, id) {
        assert k < n && UseAt(es, k, id);
      }
    }
  }

  /** The map kept by the first pass: each id with its first use before position `n`. */
  ghost predicate IndexesUses(uses: map<string, Event>, es: seq<Event>, n: int) {
    && (forall id :: id in uses <==> id != "" && EarlierUse(es, n, id))
    && (forall u, id :: id in uses && FirstUse(es, n, u, id) ==> uses[id] == es[u])
  }

  method CheckResults(es: seq<Event>, uses: map<string, Event>) returns (violations: seq<Violation>)
    requires IndexesUses(uses, es, |es|)
    ensures violations == AllFaults(OverResults, es, |es|)
  {
    violations := [];
    var results: map<string, Event> := map[];
    for i := 0 to |es|
      invariant violations == AllFaults(OverResults, es, i)
      invariant forall id :: id in results <==> id != "" && EarlierResult(es, i, id)
    {
      var event := es[i];
      OneEventMore(OverResults, es, i);
      if event.body.ToolResult? {
        var id := event.body.id;
        var found := CheckResult(es, i, uses, id in results);
        violations := violations + found;
        assert ResultAt(es, i, id);
        if id != "" && id !in results {
          results := results[id := event];
        }
      }
    }
  }

  method CheckResult(es: seq<Event>, i: nat, uses: map<string, Event>, duplicate: bool)
    returns (violations: seq<Violation>)
    requires i < |es| && es[i].body.ToolResult?
    requires IndexesUses(uses, es, |es|)
    requires duplicate <==> es[i].body.id != "" && EarlierResult(es, i, es[i].body.id)
    ensures violations == Faults(OverResults, es, i)
  {
    var event := es[i];
    var id := event.body.id;
    assert ResultAt(es, i, id);
    if id == "" {
      return [Violation(MissingToolResultID, event.seqNo, "")];
    }
    violations := [];
    assert HasUse(es, id) <==> EarlierUse(es, |es|, id);
    if id !in uses {
      violations := [Violation(OrphanToolResult, event.seqNo, id)];
    } else {
      FirstUseExists(es, id);
      if event.seqNo <= uses[id].seqNo {
        violations := [Violation(ToolResultBeforeUse, event.seqNo, id)];
      }
    }
    if duplicate {
      violations := violations + [Violation(DuplicateToolResult, event.seqNo, id)];
    }
  }

  method UnresolvedToolViolations(es: seq<Event>) returns (violations: seq<Violation>)
    ensures violations == AllFaults(OverOpenUses, es, |es|)
    ensures forall v :: v in violations <==> v.code == UnresolvedToolUse && exists i :: Deserves(es, i, v)
  {
    ReportedMeans(OverOpenUses, es);
    var fulfilled: set<string> := {};
    for i := 0 to |es|
      invariant forall id :: id in fulfilled <==> EarlierResult(es, i, id)
    {
      if es[i].body.ToolResult? {
        assert ResultAt(es, i, es[i].body.id);
        fulfilled := fulfilled + {es[i].body.id};
      }
    }
    assert forall id :: HasResult(es, id) <==> EarlierResult(es, |es|, id);
    violations := [];
    for i := 0 to |es|
      invariant violations == AllFaults(OverOpenUses, es, i)
    {
      var event := es[i];
      if event.body.ToolUse? && event.body.id != "" && event.body.id !in fulfilled {
        violations := violations + [Violation(UnresolvedToolUse, event.seqNo, event.body.id)];
      }
    }
  }

  lemma {:induction false} FirstUseExists(es: seq<Event>, id: string)
    requires HasUse(es, id)
    ensures exists u :: FirstUse(es, |es|, u, id)
  {
    var u :| UseAt(es, u, id);
    while EarlierUse(es, u, id)
      invariant UseAt(es, u, id)
      decreases u
    {
      var k :| k < u && UseAt(es, k, id);
      u := k;
    }
    assert FirstUse(es, |es|, u, id);
  }

  lemma {:induction false} JoinedIsEmpty<T>(parts: int -> seq<T>, n: nat)
    ensures Joined(parts, n) == [] <==> forall i :: 0 <= i < n ==> parts(i) == []
  {
    if n > 0 {
      JoinedIsEmpty(parts, n - 1);
      assert |Joined(parts, n)| == |Joined(parts, n - 1)| + |parts(n - 1)|;
    }
  }

  ghost predicate FaultFree(pass: Pass, es: seq<Event>) {
    forall i :: 0 <= i < |es| ==> Faults(pass, es, i) == []
  }

  lemma {:induction false} NoneIffFaultFree(pass: Pass, es: seq<Event>)
    ensures AllFaults(pass, es, |es|) == [] <==> FaultFree(pass, es)
  {
    JoinedIsEmpty(FaultsOf(pass, es), |es|);
    assert forall i :: 0 <= i < |es| ==> FaultsOf(pass, es)(i) == Faults(pass, es, i);
  }

  /** No fault is reported exactly when the declarative rules hold. */
  lemma {:induction false} NoFaultsIffSound(es: seq<Event>)
    ensures AllFaults(OverUses, es, |es|) + AllFaults(OverResults, es, |es|) == [] <==> ReferencesSound(es)
  {
    NoneIffFaultFree(OverUses, es);
    NoneIffFaultFree(OverResults, es);
    if FaultFree(OverUses, es) && FaultFree(OverResults, es) {
      NoUseFaults(es);
      NoResultFaults(es);
    }
    if ReferencesSound(es) {
      forall i | 0 <= i < |es|
        ensures Faults(OverUses, es, i) == [] && Faults(OverResults, es, i) == []
      {
        SoundEventHasNoFault(es, i);
      }
    }
  }

  lemma {:induction false} NoUseFaults(es: seq<Event>)
    requires FaultFree(OverUses, es)
    ensures forall i :: !UseAt(es, i, "")
    ensures forall i, j, id :: UseAt(es, i, id) && UseAt(es, j, id) ==> i == j
  {
    forall i, j, id | UseAt(es, i, id) && UseAt(es, j, id)
      ensures i == j
    {
      assert Faults(OverUses, es, i) == [] && Faults(OverUses, es, j) == [];
    }
    forall i
      ensures !UseAt(es, i, "")
    {
      assert 0 <= i < |es| ==> Faults(OverUses, es, i) == [];
    }
  }

  lemma {:induction false} NoResultFaults(es: seq<Event>)
    requires FaultFree(OverResults, es)
    ensures forall i :: !ResultAt(es, i, "")
    ensures forall i, j, id :: ResultAt(es, i, id) && ResultAt(es, j, id) ==> i == j
    ensures forall i, id :: ResultAt(es, i, id) ==> UsedBefore(es, i, id)
  {
    forall i, j, id | ResultAt(es, i, id) && ResultAt(es, j, id)
      ensures i == j
    {
      assert Faults(OverResults, es, i) == [] && Faults(OverResults, es, j) == [];
    }
    forall i, id | ResultAt(es, i, id)
      ensures id != ""
      ensures UsedBefore(es, i, id)
    {
      assert Faults(OverResults, es, i) == [];
      FirstUseExists(es, id);
    }
  }

  lemma {:induction false} SoundEventHasNoFault(es: seq<Event>, i: int)
    requires ReferencesSound(es) && 0 <= i < |es|
    ensures Faults(OverUses, es, i) == []
    ensures Faults(OverResults, es, i) == []
  {
    if es[i].body.ToolUse? {
      assert UseAt(es, i, es[i].body.id);
    } else if es[i].body.ToolResult? {
      var id := es[i].body.id;
      assert ResultAt(es, i, id);
      var u :| UseAt(es, u, id) && es[u].seqNo < es[i].seqNo;
      assert !EarlierResult(es, i, id) && !TooEarly(es, i, id);
    }
  }

  lemma {:induction false} NoOpenFaultsIffResolved(es: seq<Event>)
    requires ReferencesSound(es)
    ensures AllFaults(OverOpenUses, es, |es|) == [] <==> Resolved(es)
  {
    NoneIffFaultFree(OverOpenUses, es);
    if FaultFree(OverOpenUses, es) {
      forall i, id | UseAt(es, i, id)
        ensures HasResult(es, id)
      {
        assert Faults(OverOpenUses, es, i) == [];
      }
    }
    if Resolved(es) {
      forall i | 0 <= i < |es|
        ensures Faults(OverOpenUses, es, i) == []
      {
        assert es[i].body.ToolUse? ==> UseAt(es, i, es[i].body.id);
      }
    }
  }

  // ---------- Preparing a provider call ----------

  /** A validated provider input. The hash of the transcript is taken to be injective and so is the transcript
      itself. */
  datatype PreparedTranscript = PreparedTranscript(sessionID: string, nextSeq: nat, transcript: seq<Event>) {
    /** Whether a session is still what was prepared. */
    ghost predicate For(id: string,
                        log: seq<Event>) { sessionID == id && nextSeq == |log| && transcript == Effective(log) }
  }

  method PrepareProviderCall(sessionID: string, log: seq<Event>) returns (r: Result<PreparedTranscript, seq<Violation>>)
    ensures r.Success? <==> ProviderReady(log)
    ensures r.Success? ==> r.value.For(sessionID, log)
    ensures r.Failure? ==> r.error != []
  {
    var violations := AnalyzeToolReferences(log);
    var effective := ApplyMutations(log);
    var references := AnalyzeToolReferences(effective);
    var unresolved := UnresolvedToolViolations(effective);
    violations := violations + references + unresolved;
    if ReferencesSound(effective) {
      NoOpenFaultsIffResolved(effective);
    }
    if violations != [] {
      return Failure(violations);
    }
    return Success(PreparedTranscript(sessionID, |log|, effective));
  }

  /** The check made right before the provider is called. */
  method Current(prepared: PreparedTranscript, sessionID: string, log: seq<Event>) returns (current: bool)
    ensures current <==> prepared.For(sessionID, log)
  {
    if prepared.sessionID != sessionID || |log| != prepared.nextSeq {
      return false;
    }
    var effective := ApplyMutations(log);
    return effective == prepared.transcript;
  }
}
