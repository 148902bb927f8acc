/** Compaction strategies that keep tool pairs together: strategies.go. */
module Compaction {
  import opened Events
  import opened Mutations
  import opened Integrity
  import opened Visibility
  import opened Storage
  import opened Sequences

  // ---------- Candidates ----------

  /** Some compact, revoked or not, lists `s`. */
  ghost predicate EverCovered(log: seq<Event>, s: int) {
    exists j :: 0 <= j < |log| && log[j].body.Compact? && s in log[j].body.covers
  }

  /** Every number any compact lists. */
  method ReplacedSeqs(log: seq<Event>) returns (replaced: set<int>)
    ensures forall s :: s in replaced <==> EverCovered(log, s)
  {
    replaced := {};
    for i := 0 to |log|
      invariant forall s :: s in replaced <==> exists j :: 0 <= j < i && log[j].body.Compact? && s in log[j].body.covers
    {
      if log[i].body.Compact? {
        replaced := replaced + (set s | s in log[i].body.covers);
      }
    }
  }

  ghost function Messages(log: seq<Event>, n: nat): (r: seq<Event>)
    requires n <= |log|
    ensures forall e :: e in r ==> e in log && IsMessage(e.body) && !EverCovered(log, e.seqNo)
  {
    if n == 0 then []
    else if IsMessage(log[n - 1].body) && !EverCovered(log, log[n - 1].seqNo) then Messages(log, n - 1) + [log[n - 1]]
    else Messages(log, n - 1)
  }

  /** Position `i` of the log holds a message that no compact ever listed. */
  ghost function MessagesOf(log: seq<Event>): (int, Event) -> bool {
    (i, e) => 0 <= i < |log| && e == log[i] && IsMessage(e.body) && !EverCovered(log, e.seqNo)
  }

  /** Exactly these are listed, in log order. */
  lemma {:induction false} MessagesInOrder(log: seq<Event>, n: nat) returns (at: seq<nat>)
    requires n <= |log|
    ensures Placed(n, Messages(log, n), at, MessagesOf(log))
  {
    if n == 0 {
      at := [];
    } else {
      var k := n - 1;
      at := MessagesInOrder(log, k);
      if IsMessage(log[k].body) && !EverCovered(log, log[k].seqNo) {
        PlaceOne(k, Messages(log, k), at, MessagesOf(log), log[k]);
        at := at + [k];
      } else {
        PlaceNone(k, Messages(log, k), at, MessagesOf(log));
      }
    }
  }

  method MessageEvents(log: seq<Event>) returns (events: seq<Event>)
    ensures events == Messages(log, |log|)
  {
    var replaced := ReplacedSeqs(log);
    events := [];
    for i := 0 to |log|
      invariant events == Messages(log, i)
    {
      if log[i].seqNo !in replaced && IsMessage(log[i].body) {
        events := events + [log[i]];
      }
    }
  }

  function Seqs(events: seq<Event>): (r: seq<int>)
    ensures |r| == |events| && forall i :: 0 <= i < |events| ==> r[i] == events[i].seqNo
  {
    if events == [] then [] else [events[0].seqNo] + Seqs(events[1..])
  }

  function Select(candidates: seq<int>, keep: set<int>): (r: seq<int>)
    ensures forall x :: x in r <==> x in candidates && x in keep
  {
    if candidates == [] then []
    else
      var rest := Select(candidates[..|candidates| - 1], keep);
      var last := candidates[|candidates| - 1];
      assert candidates == candidates[..|candidates| - 1] + [last];
      if last in keep then rest + [last] else rest
  }

  ghost function KeptOf(candidates: seq<int>, keep: set<int>): (int, int) -> bool {
    (i, x) => 0 <= i < |candidates| && x == candidates[i] && x in keep
  }

  /** What is selected stands in the order of the candidates. */
  lemma {:induction false} SelectInOrder(candidates: seq<int>, keep: set<int>, n: nat) returns (at: seq<nat>)
    requires n <= |candidates|
    ensures Placed(n, Select(candidates[..n], keep), at, KeptOf(candidates, keep))
  {
    if n == 0 {
      at := [];
    } else {
      var k := n - 1;
      at := SelectInOrder(candidates, keep, k);
      assert candidates[..n][..k] == candidates[..k];
      if candidates[k] in keep {
        PlaceOne(k, Select(candidates[..k], keep), at, KeptOf(candidates, keep), candidates[k]);
        at := at + [k];
      } else {
        PlaceNone(k, Select(candidates[..k], keep), at, KeptOf(candidates, keep));
      }
    }
  }

  // ---------- The pair-safe range ----------

  function SetOf(s: seq<int>): (r: set<int>)
    ensures forall x :: x in r <==> x in s
  {
    set x | x in s
  }

  ghost predicate UseWithin(log: seq<Event>, s: set<int>, id: string) {
    exists u :: UseAt(log, u, id) && u in s
  }

  ghost predicate ResultWithin(log: seq<Event>, s: set<int>, id: string) {
    exists r :: ResultAt(log, r, id) && r in s
  }

  /** `s` holds no half of a pair and no unresolved use. */
  ghost predicate PairSafe(log: seq<Event>, s: set<int>) {
    && (forall u, id :: UseAt(log, u, id) && u in s ==> ResultWithin(log, s, id))
    && (forall r, id :: ResultAt(log, r, id) && r in s ==> UseWithin(log, s, id))
  }

  /** A candidate may be replaced: its other half, if it needs one, is a candidate too. */
  ghost predicate MayReplace(log: seq<Event>, candidates: seq<int>, x: int) {
    && x in candidates
    && (forall id :: UseAt(log, x, id) ==> exists r :: ResultAt(log, r, id) && r in candidates)
    && (forall id :: ResultAt(log, x, id) ==> exists u :: UseAt(log, u, id) && u in candidates)
  }

  ghost function SafeSet(log: seq<Event>, candidates: seq<int>): set<int> {
    set x | x in candidates && MayReplace(log, candidates, x)
  }

  /** The safe set is pair-safe, and every pair-safe set of candidates lies inside it. */
  lemma {:induction false} SafeSetIsGreatest(log: seq<Event>, candidates: seq<int>)
    requires ReferencesSound(log)
    ensures PairSafe(log, SafeSet(log, candidates))
    ensures forall t: set<int> :: PairSafe(log, t) && (forall x :: x in t ==> x in candidates) ==>
            t <= SafeSet(log, candidates)
  {
    var s := SafeSet(log, candidates);
    forall u, id | UseAt(log, u, id) && u in s
      ensures ResultWithin(log, s, id)
    {
      var r :| ResultAt(log, r, id) && r in candidates;
      assert MayReplace(log, candidates, r);
    }
    forall r, id | ResultAt(log, r, id) && r in s
      ensures UseWithin(log, s, id)
    {
      var u :| UseAt(log, u, id) && u in candidates;
      assert MayReplace(log, candidates, u);
    }
    forall t: set<int>, x | PairSafe(log, t) && (forall y :: y in t ==> y in candidates) && x in t
      ensures x in s
    {
      assert MayReplace(log, candidates, x);
    }
  }

  /** For a dense log with unique ids, the two index maps hold every use's and every result's position. */
  ghost predicate IndexesPairs(log: seq<Event>, n: int, uses: map<string, int>, results: map<string, int>) {
    && (forall id :: id in uses <==> EarlierUse(log, n, id))
    && (forall id :: id in uses ==> UseAt(log, uses[id], id))
    && (forall id :: id in results <==> EarlierResult(log, n, id))
    && (forall id :: id in results ==> ResultAt(log, results[id], id))
  }

  method IndexPairs(log: seq<Event>) returns (uses: map<string, int>, results: map<string, int>)
    ensures Dense(log) ==> IndexesPairs(log, |log|, uses, results)
  {
    uses, results := map[], map[];
    for i := 0 to |log|
      invariant Dense(log) ==> IndexesPairs(log, i, uses, results)
    {
      match log[i].body
      case ToolUse(id, _, _) =>
        assert UseAt(log, i, id);
        uses := uses[id := log[i].seqNo];
      case ToolResult(id, _, _) =>
        assert ResultAt(log, i, id);
        results := results[id := log[i].seqNo];
      case _ =>
    }
  }

  /** What one iteration deletes on account of `id`. */
  ghost function Dropped(candidates: set<int>, uses: map<string, int>, results: map<string, int>, id: string): set<int>
    requires id in uses
  {
    if id !in results then {uses[id]}
    else if (uses[id] in candidates) != (results[id] in candidates) then {uses[id], results[id]}
    else {}
  }

  /** What is left of `all` once every id outside `todo` has had its iteration. */
  ghost predicate LeftAfter(all: set<int>, uses: map<string, int>, results: map<string, int>, todo: set<string>,
                            now: set<int>) {
    forall x :: x in now <==>
        x in all && forall id :: id in uses && id !in todo ==> x !in Dropped(all, uses, results, id)
  }

  method ToolPairSafeRange(log: seq<Event>, candidates: seq<int>) returns (out: seq<int>)
    ensures Dense(log) && ReferencesSound(log) ==> out == Select(candidates, SafeSet(log, candidates))
    ensures forall x :: x in out ==> x in candidates
  {
    ghost var sound := Dense(log) && ReferencesSound(log);
    var all := SetOf(candidates);
    var candidateSet := all;
    var uses, results := IndexPairs(log);
    var todo := uses.Keys;
    while todo != {}
      invariant todo <= uses.Keys
      invariant sound ==> LeftAfter(all, uses, results, todo, candidateSet)
    {
      var id :| id in todo;
      var useSeq := uses[id];
      if sound {
        UntouchedBefore(log, uses, results, all, todo, candidateSet, id);
      }
      if id !in results {
        candidateSet := candidateSet - {useSeq};
      } else if (useSeq in candidateSet) != (results[id] in candidateSet) {
        candidateSet := candidateSet - {useSeq} - {results[id]};
      }
      todo := todo - {id};
    }
    if sound {
      forall x
        ensures x in candidateSet <==> x in SafeSet(log, candidates)
      {
        KeptIffSafe(log, candidates, uses, results, x);
      }
      assert candidateSet == SafeSet(log, candidates);
    }
    out := [];
    for i := 0 to |candidates|
      invariant out == Select(candidates[..i], candidateSet)
    {
      assert candidates[..i + 1][..i] == candidates[..i];
      if candidates[i] in candidateSet {
        out := out + [candidates[i]];
      }
    }
    assert candidates[..|candidates|] == candidates;
  }

  /** Whatever order the ids come in, earlier iterations leave the pair of `id` alone. */
  lemma {:induction false} UntouchedBefore(log: seq<Event>, uses: map<string, int>, results: map<string, int>,
                        all: set<int>, todo: set<string>, now: set<int>, id: string)
    requires Dense(log) && ReferencesSound(log) && IndexesPairs(log, |log|, uses, results)
    requires id in todo && id in uses && LeftAfter(all, uses, results, todo, now)
    ensures uses[id] in now <==> uses[id] in all
    ensures id in results ==> (results[id] in now <==> results[id] in all)
  {
    forall i | i in uses && i !in todo
      ensures uses[id] !in Dropped(all, uses, results, i)
      ensures id in results ==> results[id] !in Dropped(all, uses, results, i)
    {
      assert UseAt(log, uses[i], i) && UseAt(log, uses[id], id);
    }
  }

  lemma {:induction false} KeptIffSafe(log: seq<Event>, candidates: seq<int>, uses: map<string, int>,
                                       results: map<string, int>, x: int)
    requires Dense(log) && ReferencesSound(log) && IndexesPairs(log, |log|, uses, results)
    ensures var all := SetOf(candidates);
            (x in all && forall id :: id in uses ==> x !in Dropped(all, uses, results, id))
            <==> MayReplace(log, candidates, x)
  {
    var all := SetOf(candidates);
    if x in all && forall id :: id in uses ==> x !in Dropped(all, uses, results, id) {
      forall id | UseAt(log, x, id)
        ensures exists r :: ResultAt(log, r, id) && r in candidates
      {
        assert EarlierUse(log, |log|, id) && x == uses[id];
        assert x !in Dropped(all, uses, results, id);
        assert ResultAt(log, results[id], id);
      }
      forall id | ResultAt(log, x, id)
        ensures exists u :: UseAt(log, u, id) && u in candidates
      {
        assert EarlierResult(log, |log|, id) && x == results[id];
        assert EarlierUse(log, |log|, id);
        assert x !in Dropped(all, uses, results, id);
        assert UseAt(log, uses[id], id);
      }
    }
    if MayReplace(log, candidates, x) {
      forall id | id in uses
        ensures x !in Dropped(all, uses, results, id)
      {
        assert UseAt(log, uses[id], id);
        if id in results {
          assert ResultAt(log, results[id], id);
        }
        if x == uses[id] {
          var r :| ResultAt(log, r, id) && r in candidates;
          assert EarlierResult(log, |log|, id);
        } else if id in results && x == results[id] {
          var u :| UseAt(log, u, id) && u in candidates;
        }
      }
    }
  }

  // ---------- Appending a pair-safe compact ----------

  /** A sound log stays sound whatever compact is appended, and a pair-safe one keeps the transcript exactly paired. */
  lemma {:induction false} PairSafeCompactKeepsPairing(log: seq<Event>, covers: seq<int>, summary: string)
    requires Dense(log) && ReferencesSound(log)
    requires covers != [] && PairSafe(log, SetOf(covers))
    ensures var after := Extend(log, [Compact(covers, summary)]);
            && Dense(after) && ReferencesSound(after)
            && (ExactlyPaired(Effective(log)) ==> ExactlyPaired(Effective(after)))
  {
    var after := Extend(log, [Compact(covers, summary)]);
    QuietAppend(log, after);
    PairedIffVisiblePaired(log);
    PairedIffVisiblePaired(after);
    if VisiblePaired(log) {
      forall s
        ensures Shadowed(after, s) <==> Shadowed(log, s) || (s in covers && !Revoked(log, |log|))
      {
        ShadowedAfterCompact(log, covers, summary, s);
      }
      forall u, id | UseAt(after, u, id) && !Shadowed(after, u)
        ensures VisibleResult(after, id)
      {
        var r :| ResultAt(log, r, id) && !Shadowed(log, r);
        assert ResultAt(after, r, id);
      }
      forall r, id | ResultAt(after, r, id) && !Shadowed(after, r)
        ensures VisibleUse(after, id)
      {
        var u :| UseAt(log, u, id) && !Shadowed(log, u);
        assert UseAt(after, u, id);
      }
    }
  }

  /** Events that are no tool events leave the pairing of a log as it is. */
  lemma {:induction false} QuietAppend(log: seq<Event>, after: seq<Event>)
    requires log <= after
    requires forall i :: |log| <= i < |after| ==> !IsToolEvent(after[i].body)
    ensures forall i, id :: UseAt(after, i, id) <==> UseAt(log, i, id)
    ensures forall i, id :: ResultAt(after, i, id) <==> ResultAt(log, i, id)
    ensures ReferencesSound(after) <==> ReferencesSound(log)
  {
    assert forall i :: 0 <= i < |log| ==> after[i] == log[i];
    assert forall i, id :: UseAt(after, i, id) <==> UseAt(log, i, id);
    assert forall i, id :: ResultAt(after, i, id) <==> ResultAt(log, i, id);
    if ReferencesSound(log) {
      forall i, id | ResultAt(after, i, id)
        ensures UsedBefore(after, i, id)
      {
        var u :| UseAt(log, u, id) && log[u].seqNo < log[i].seqNo;
        assert UseAt(after, u, id);
      }
    }
    if ReferencesSound(after) {
      forall i, id | ResultAt(log, i, id)
        ensures UsedBefore(log, i, id)
      {
        var u :| UseAt(after, u, id) && after[u].seqNo < after[i].seqNo;
        assert UseAt(log, u, id);
      }
    }
  }
}
