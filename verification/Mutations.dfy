/** The effective transcript under compaction and reverts: mutations.go. */
module Mutations {
  import opened Events
  import opened Sequences

  // ---------- What each event means ----------

  ghost predicate Revoked(log: seq<Event>, s: int) {
    exists j :: 0 <= j < |log| && log[j].body == Revert(s)
  }

  /** Event `j` is a compact that takes effect. */
  ghost predicate Live(log: seq<Event>, j: int) {
    0 <= j < |log| && log[j].body.Compact? && log[j].body.covers != [] && !Revoked(log, log[j].seqNo)
  }

  function Least(s: seq<int>): (m: int)
    requires s != []
    ensures m in s
    ensures forall x :: x in s ==> m <= x
  {
    if |s| == 1 then s[0]
    else
      var rest := Least(s[1..]);
      assert s == [s[0]] + s[1..];
      if s[0] <= rest then s[0] else rest
  }

  /** Live compact `j` puts its summary where event `s` stood. */
  ghost predicate Anchors(log: seq<Event>, j: int, s: int) {
    Live(log, j) && Least(log[j].body.covers) == s
  }

  /** Live compact `j` takes event `s` out of the transcript. */
  ghost predicate Shadows(log: seq<Event>, j: int, s: int) {
    Live(log, j) && s in log[j].body.covers
  }

  ghost predicate Shadowed(log: seq<Event>, s: int) {
    exists j :: Shadows(log, j, s)
  }

  /** Compact `j` is the last one before position `n` that anchors a summary at `s`. */
  ghost predicate LastAnchor(log: seq<Event>, n: int, j: int, s: int) {
    j < n && Anchors(log, j, s) && forall k :: j < k < n ==> !Anchors(log, k, s)
  }

  /** What event `e` of `log` contributes to the transcript a provider sees. */
  ghost function View(log: seq<Event>, e: Event): seq<Event> {
    if e.body.Compact? || e.body.Revert? then []
    else if exists j :: LastAnchor(log, |log|, j, e.seqNo) then
      var j :| LastAnchor(log, |log|, j, e.seqNo); [Event(log[j].seqNo, Summary(log[j].body.summary))]
    else if Shadowed(log, e.seqNo) then []
    else [e]
  }

  ghost function EffectiveUpTo(log: seq<Event>, n: nat): seq<Event>
    requires n <= |log|
  {
    if n == 0 then [] else EffectiveUpTo(log, n - 1) + View(log, log[n - 1])
  }

  /** The transcript a provider sees: every event's contribution, in log order. */
  ghost function Effective(log: seq<Event>): seq<Event> {
    EffectiveUpTo(log, |log|)
  }

  // ---------- The three loops ----------

  method ApplyMutations(log: seq<Event>) returns (out: seq<Event>)
    ensures out == Effective(log)
    ensures exists at :: Placed(|log|, out, at, ContributionsOf(log))
  {
    var revoked: set<int> := {};
    for i := 0 to |log|
      invariant forall s :: s in revoked <==> exists j :: 0 <= j < i && log[j].body == Revert(s)
    {
      if log[i].body.Revert? {
        revoked := revoked + {log[i].body.revokes};
      }
    }

    var shadowed: set<int> := {};
    var summaryAt: map<int, Event> := map[];
    for i := 0 to |log|
      invariant ShadowsUpTo(log, i, shadowed)
      invariant SummariesUpTo(log, i, summaryAt)
    {
      assert log[i].seqNo in revoked <==> Revoked(log, log[i].seqNo);
      MutationsStep(log, i, shadowed, summaryAt);
      if log[i].body.Compact? && log[i].seqNo !in revoked && log[i].body.covers != [] {
        var minSeq: int;
        shadowed, minSeq := ShadowAll(shadowed, log[i].body.covers);
        summaryAt := summaryAt[minSeq := log[i]];
      }
    }

    out := [];
    for i := 0 to |log|
      invariant out == EffectiveUpTo(log, i)
    {
      var event := log[i];
      ViewFromTables(log, event, shadowed, summaryAt);
      if !event.body.Compact? && !event.body.Revert? {
        if event.seqNo in summaryAt {
          var compact := summaryAt[event.seqNo];
          out := out + [Event(compact.seqNo, Summary(compact.body.summary))];
        } else if event.seqNo !in shadowed {
          out := out + [event];
        }
      }
    }
    ghost var at := ShownInOrder(log, |log|);
  }

  /** The loop over one compact's covers: shadow each of them and find the least. */
  method ShadowAll(before: set<int>, covers: seq<int>) returns (shadowed: set<int>, minSeq: int)
    requires covers != []
    ensures shadowed == before + (set s | s in covers)
    ensures minSeq == Least(covers)
  {
    shadowed, minSeq := before, covers[0];
    for k := 0 to |covers|
      invariant minSeq in covers
      invariant forall m :: 0 <= m < k ==> minSeq <= covers[m]
      invariant shadowed == before + (set s | s in covers[..k])
    {
      shadowed := shadowed + {covers[k]};
      if covers[k] < minSeq {
        minSeq := covers[k];
      }
    }
    assert covers[..|covers|] == covers;
  }

  ghost predicate ShadowsUpTo(log: seq<Event>, n: int, shadowed: set<int>) {
    forall s :: s in shadowed <==> exists j :: j < n && Shadows(log, j, s)
  }

  ghost predicate SummariesUpTo(log: seq<Event>, n: int, table: map<int, Event>) {
    && (forall s :: s in table ==> exists j :: LastAnchor(log, n, j, s))
    && (forall j, s :: LastAnchor(log, n, j, s) ==> s in table && table[s] == log[j])
  }

  lemma {:induction false} MutationsStep(log: seq<Event>, i: int, shadowed: set<int>, table: map<int, Event>)
    requires 0 <= i < |log|
    requires ShadowsUpTo(log, i, shadowed) && SummariesUpTo(log, i, table)
    ensures !Live(log, i) ==> ShadowsUpTo(log, i + 1, shadowed) && SummariesUpTo(log, i + 1, table)
    ensures Live(log, i) ==>
              && ShadowsUpTo(log, i + 1, shadowed + (set s | s in log[i].body.covers))
              && SummariesUpTo(log, i + 1, table[Least(log[i].body.covers) := log[i]])
  {
    var next := if Live(log, i) then table[Least(log[i].body.covers) := log[i]] else table;
    var n := i + 1;
    forall s | s in next
      ensures exists j :: LastAnchor(log, n, j, s)
    {
      if Anchors(log, i, s) {
        assert LastAnchor(log, n, i, s);
      } else {
        var j :| LastAnchor(log, i, j, s);
        assert LastAnchor(log, n, j, s);
      }
    }
    forall j, s | LastAnchor(log, n, j, s)
      ensures s in next && next[s] == log[j]
    {
      if j < i {
        assert !Anchors(log, i, s);
        assert LastAnchor(log, i, j, s);
      }
    }
    ShadowsStep(log, i, shadowed);
  }

  lemma {:induction false} ShadowsStep(log: seq<Event>, i: int, shadowed: set<int>)
    requires 0 <= i < |log| && ShadowsUpTo(log, i, shadowed)
    ensures ShadowsUpTo(log, i + 1, shadowed + if Live(log, i) then (set s | s in log[i].body.covers) else {})
  {
    var next := shadowed + if Live(log, i) then (set s | s in log[i].body.covers) else {};
    forall s
      ensures s in next <==> exists j :: j < i + 1 && Shadows(log, j, s)
    {
      if s in next && !Shadows(log, i, s) {
        var j :| j < i && Shadows(log, j, s);
      }
    }
  }

  lemma {:induction false} ViewFromTables(log: seq<Event>, e: Event, shadowed: set<int>, table: map<int, Event>)
    requires ShadowsUpTo(log, |log|, shadowed) && SummariesUpTo(log, |log|, table)
    ensures forall s :: s in table ==> table[s].body.Compact?
    ensures View(log, e) ==
              if e.body.Compact? || e.body.Revert? then []
              else if e.seqNo in table then [Event(table[e.seqNo].seqNo, Summary(table[e.seqNo].body.summary))]
              else if e.seqNo in shadowed then []
              else [e]
  {
    forall s | s in table
      ensures table[s].body.Compact?
    {
      var j :| LastAnchor(log, |log|, j, s);
    }
    assert Shadowed(log, e.seqNo) <==> e.seqNo in shadowed;
  }

  lemma {:induction false} LastAnchorIsUnique(log: seq<Event>, n: int, s: int)
    ensures forall j, k :: LastAnchor(log, n, j, s) && LastAnchor(log, n, k, s) ==> j == k
  {}

  // ---------- What the transcript guarantees ----------

  /** The transcript holds no compacts and no reverts, so applying mutations to it again changes nothing. */
  lemma {:induction false} EffectiveIsIdempotent(log: seq<Event>)
    ensures Effective(Effective(log)) == Effective(log)
  {
    EffectiveHasNoMutations(log, |log|);
    WithoutMutations(Effective(log), |Effective(log)|);
  }

  lemma {:induction false} EffectiveHasNoMutations(log: seq<Event>, n: nat)
    requires n <= |log|
    ensures forall e :: e in EffectiveUpTo(log, n) ==> !e.body.Compact? && !e.body.Revert?
  {
    if n > 0 {
      EffectiveHasNoMutations(log, n - 1);
    }
  }

  lemma {:induction false} WithoutMutations(log: seq<Event>, n: nat)
    requires n <= |log|
    requires forall e :: e in log ==> !e.body.Compact? && !e.body.Revert?
    ensures EffectiveUpTo(log, n) == log[..n]
  {
    if n > 0 {
      WithoutMutations(log, n - 1);
      assert forall j :: !Live(log, j);
      assert View(log, log[n - 1]) == [log[n - 1]];
    }
  }

  lemma {:induction false} SameViewsSameTranscript(a: seq<Event>, b: seq<Event>, n: nat)
    requires n <= |a| && n <= |b| && a[..n] == b[..n]
    requires forall i :: 0 <= i < n ==> View(a, a[i]) == View(b, a[i])
    ensures EffectiveUpTo(a, n) == EffectiveUpTo(b, n)
  {
    if n > 0 {
      assert a[..n][n - 1] == b[..n][n - 1];
      assert a[..n - 1] == a[..n][..n - 1] == b[..n][..n - 1] == b[..n - 1];
      SameViewsSameTranscript(a, b, n - 1);
    }
  }

  /** If two logs have the same live compacts, an event contributes the same to both. */
  lemma {:induction false} SameLiveSameView(a: seq<Event>, b: seq<Event>, e: Event)
    requires forall j :: Live(a, j) <==> Live(b, j)
    requires forall j :: Live(a, j) && Live(b, j) ==> a[j] == b[j]
    ensures View(a, e) == View(b, e)
  {
    assert forall j, s :: Anchors(a, j, s) <==> Anchors(b, j, s);
    assert forall j, s :: Shadows(a, j, s) <==> Shadows(b, j, s);
    forall j
      ensures LastAnchor(a, |a|, j, e.seqNo) <==> LastAnchor(b, |b|, j, e.seqNo)
    {
      assert forall k :: |a| <= k ==> !Anchors(b, k, e.seqNo);
      assert forall k :: |b| <= k ==> !Anchors(a, k, e.seqNo);
    }
    LastAnchorIsUnique(a, |a|, e.seqNo);
  }

  /** A compact followed by its revert leaves the transcript as it was, whatever the compact covered. */
  lemma {:induction false} CompactThenRevert(log: seq<Event>, covers: seq<int>, summary: string)
    requires Dense(log)
    ensures Effective(Extend(log, [Compact(covers, summary), Revert(|log|)])) == Effective(log)
  {
    var n := |log|;
    var both := Extend(log, [Compact(covers, summary), Revert(n)]);
    assert both[n + 1] == Event(n + 1, Revert(n));
    assert Revoked(both, n);
    assert forall j :: 0 <= j < n ==> both[j] == log[j];
    forall s | s != n
      ensures Revoked(both, s) <==> Revoked(log, s)
    {
      assert forall j :: 0 <= j < |both| && both[j].body == Revert(s) ==> j < n;
    }
    assert forall j :: Live(both, j) <==> Live(log, j);
    forall i | 0 <= i < n
      ensures View(both, both[i]) == View(log, both[i])
    {
      SameLiveSameView(both, log, both[i]);
    }
    SameViewsSameTranscript(both, log, n);
    assert EffectiveUpTo(both, n + 2) == EffectiveUpTo(both, n + 1) + View(both, both[n + 1]);
    assert EffectiveUpTo(both, n + 1) == EffectiveUpTo(both, n) + View(both, both[n]);
  }

  lemma {:induction false} AnchoredHasLast(log: seq<Event>, n: nat, j: int, s: int)
    requires n <= |log| && j < n && Anchors(log, j, s)
    ensures exists k :: LastAnchor(log, n, k, s)
  {
    if Anchors(log, n - 1, s) {
      assert LastAnchor(log, n, n - 1, s);
    } else {
      AnchoredHasLast(log, n - 1, j, s);
      var k :| LastAnchor(log, n - 1, k, s);
      assert LastAnchor(log, n, k, s);
    }
  }

  /** What a transcript shows for an event, without regard to the order of compacts: a summary exactly if some live
      compact is anchored at the event, and then that of the last one; otherwise nothing if a live compact covers it,
      else itself. */
  lemma {:induction false} ViewByAnchors(log: seq<Event>, e: Event)
    requires !e.body.Compact? && !e.body.Revert?
    ensures (exists j :: Anchors(log, j, e.seqNo)) <==>
              exists k :: LastAnchor(log, |log|, k, e.seqNo)
                && View(log, e) == [Event(log[k].seqNo, Summary(log[k].body.summary))]
    ensures (forall j :: !Anchors(log, j, e.seqNo)) ==> View(log, e) == if Shadowed(log, e.seqNo) then [] else [e]
  {
    if j :| Anchors(log, j, e.seqNo) {
      AnchoredHasLast(log, |log|, j, e.seqNo);
    }
  }

  /** Event `i` puts `x` into the transcript: itself, if no live compact covers it, or the summary of the last live
      compact anchored at it, under the compact's number. */
  ghost predicate Contributes(log: seq<Event>, i: int, x: Event) {
    && 0 <= i < |log| && !log[i].body.Compact? && !log[i].body.Revert?
    && (|| (x == log[i] && !Shadowed(log, log[i].seqNo))
        || exists k :: LastAnchor(log, |log|, k, log[i].seqNo)
                       && x == Event(log[k].seqNo, Summary(log[k].body.summary)))
  }

  ghost function ContributionsOf(log: seq<Event>): (int, Event) -> bool {
    (i, x) => Contributes(log, i, x)
  }

  lemma {:induction false} ViewIsContribution(log: seq<Event>, i: int)
    requires 0 <= i < |log|
    ensures View(log, log[i]) == [] ==> forall x :: !Contributes(log, i, x)
    ensures View(log, log[i]) != [] ==> |View(log, log[i])| == 1 && Contributes(log, i, View(log, log[i])[0])
  {
    var e := log[i];
    forall k | LastAnchor(log, |log|, k, e.seqNo)
      ensures Shadowed(log, e.seqNo)
    {
      assert Shadows(log, k, e.seqNo);
    }
  }

  /** The transcript is exactly what the events contribute, in log order, and nothing else. */
  lemma {:induction false} ShownInOrder(log: seq<Event>, n: nat) returns (at: seq<nat>)
    requires n <= |log|
    ensures Placed(n, EffectiveUpTo(log, n), at, ContributionsOf(log))
  {
    if n == 0 {
      at := [];
    } else {
      var before, more := EffectiveUpTo(log, n - 1), View(log, log[n - 1]);
      at := ShownInOrder(log, n - 1);
      ViewIsContribution(log, n - 1);
      assert EffectiveUpTo(log, n) == before + more;
      if more == [] {
        assert before + more == before;
        PlaceNone(n - 1, before, at, ContributionsOf(log));
      } else {
        assert before + more == before + [more[0]];
        PlaceOne(n - 1, before, at, ContributionsOf(log), more[0]);
        at := at + [n - 1];
      }
    }
  }

  /** An event contributes one thing at most. */
  lemma {:induction false} ContributesOne(log: seq<Event>, i: int, x: Event, y: Event)
    requires Contributes(log, i, x) && Contributes(log, i, y)
    ensures x == y
  {
    forall k | LastAnchor(log, |log|, k, log[i].seqNo)
      ensures Shadowed(log, log[i].seqNo)
    {
      assert Shadows(log, k, log[i].seqNo);
    }
  }

  /** Whatever lists, in order, exactly what the events contribute is the transcript. */
  lemma {:induction false} OnlyTranscript(log: seq<Event>, out: seq<Event>, at: seq<nat>)
    requires Placed(|log|, out, at, ContributionsOf(log))
    ensures out == Effective(log)
  {
    var there := ShownInOrder(log, |log|);
    forall i, x, y | Contributes(log, i, x) && Contributes(log, i, y)
      ensures x == y
    {
      ContributesOne(log, i, x, y);
    }
    PlacedIsUnique(|log|, out, at, Effective(log), there, ContributionsOf(log));
  }

  /** An event survives as itself exactly when no live compact covers it. */
  lemma {:induction false} VisibleIffNotShadowed(log: seq<Event>, e: Event)
    requires !e.body.Compact? && !e.body.Revert?
    ensures !Shadowed(log, e.seqNo) ==> View(log, e) == [e]
    ensures Shadowed(log, e.seqNo) ==> forall x :: x in View(log, e) ==> x.body.Summary?
  {
    if j :| LastAnchor(log, |log|, j, e.seqNo) {
      assert Shadows(log, j, e.seqNo);
    }
  }

  /** Appending a compact that nothing revokes shadows what it covers, and changes nothing else. */
  lemma {:induction false} ShadowedAfterCompact(log: seq<Event>, covers: seq<int>, summary: string, s: int)
    requires Dense(log) && covers != []
    ensures var after := Extend(log, [Compact(covers, summary)]);
            Shadowed(after, s) <==> Shadowed(log, s) || (s in covers && !Revoked(log, |log|))
  {
    var after := Extend(log, [Compact(covers, summary)]);
    assert forall j :: 0 <= j < |log| ==> after[j] == log[j];
    SameReverts(log, after);
    assert forall j :: 0 <= j < |log| ==> (Live(after, j) <==> Live(log, j));
    assert Live(after, |log|) <==> !Revoked(log, |log|);
    if Shadowed(log, s) {
      var j :| Shadows(log, j, s);
      assert Shadows(after, j, s);
    }
    if Shadowed(after, s) {
      var j :| Shadows(after, j, s);
      assert j < |log| ==> Shadows(log, j, s);
    }
    if s in covers && !Revoked(log, |log|) {
      assert Shadows(after, |log|, s);
    }
  }

  /** Appending events other than reverts leaves what is revoked alone. */
  lemma {:induction false} SameReverts(log: seq<Event>, after: seq<Event>)
    requires log <= after
    requires forall i :: |log| <= i < |after| ==> !after[i].body.Revert?
    ensures forall s :: Revoked(after, s) <==> Revoked(log, s)
  {
    forall s
      ensures Revoked(after, s) <==> Revoked(log, s)
    {
      if j :| 0 <= j < |log| && log[j].body == Revert(s) {
        assert after[j].body == Revert(s);
      }
      if j :| 0 <= j < |after| && after[j].body == Revert(s) {
        assert log[j].body == Revert(s);
      }
    }
  }
}
