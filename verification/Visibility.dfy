/** Pairing of the effective transcript, read off the raw log: what compaction strategies reason about. */
module Visibility {
  import opened Events
  import opened Mutations
  import opened Integrity

  ghost predicate VisibleUse(log: seq<Event>, id: string) {
    exists u :: UseAt(log, u, id) && !Shadowed(log, u)
  }

  ghost predicate VisibleResult(log: seq<Event>, id: string) {
    exists r :: ResultAt(log, r, id) && !Shadowed(log, r)
  }

  /** Among the events no live compact covers, uses and results come in pairs. */
  ghost predicate VisiblePaired(log: seq<Event>) {
    && (forall u, id :: UseAt(log, u, id) && !Shadowed(log, u) ==> VisibleResult(log, id))
    && (forall r, id :: ResultAt(log, r, id) && !Shadowed(log, r) ==> VisibleUse(log, id))
  }

  /** Event `k` of the transcript is event `es[k].seqNo` of the log, unless it is a summary. */
  ghost predicate FromLog(log: seq<Event>, n: nat, es: seq<Event>) {
    && (forall k :: 0 <= k < |es| && !es[k].body.Summary? ==>
          0 <= es[k].seqNo < n <= |log| && es[k] == log[es[k].seqNo] && !Shadowed(log, es[k].seqNo))
    && (forall j, k :: 0 <= j < k < |es| && !es[j].body.Summary? && !es[k].body.Summary? ==> es[j].seqNo < es[k].seqNo)
  }

  lemma {:induction false} TranscriptFromLog(log: seq<Event>, n: nat)
    requires Dense(log) && n <= |log|
    ensures FromLog(log, n, EffectiveUpTo(log, n))
  {
    if n > 0 {
      TranscriptFromLog(log, n - 1);
      var e := log[n - 1];
      if !e.body.Compact? && !e.body.Revert? {
        VisibleIffNotShadowed(log, e);
        FromLogOneMore(log, n, EffectiveUpTo(log, n - 1), View(log, e));
      }
    }
  }

  lemma {:induction false} FromLogOneMore(log: seq<Event>, n: nat, es: seq<Event>, view: seq<Event>)
    requires Dense(log) && 0 < n <= |log| && FromLog(log, n - 1, es)
    requires (view == [log[n - 1]] && !Shadowed(log, n - 1)) || forall x :: x in view ==> x.body.Summary?
    ensures FromLog(log, n, es + view)
  {}

  lemma {:induction false} VisibleIsInTranscript(log: seq<Event>, n: nat, i: nat)
    requires Dense(log) && i < n <= |log|
    requires IsToolEvent(log[i].body) && !Shadowed(log, i)
    ensures log[i] in EffectiveUpTo(log, n)
  {
    if i == n - 1 {
      VisibleIffNotShadowed(log, log[i]);
    } else {
      VisibleIsInTranscript(log, n - 1, i);
    }
  }

  lemma {:induction false} UseInTranscript(log: seq<Event>, i: int, id: string)
    requires Dense(log) && UseAt(log, i, id) && !Shadowed(log, i)
    ensures exists k :: UseAt(Effective(log), k, id) && Effective(log)[k] == log[i]
  {
    VisibleIsInTranscript(log, |log|, i);
    var k :| 0 <= k < |Effective(log)| && Effective(log)[k] == log[i];
    assert UseAt(Effective(log), k, id);
  }

  lemma {:induction false} ResultInTranscript(log: seq<Event>, i: int, id: string)
    requires Dense(log) && ResultAt(log, i, id) && !Shadowed(log, i)
    ensures exists k :: ResultAt(Effective(log), k, id) && Effective(log)[k] == log[i]
  {
    VisibleIsInTranscript(log, |log|, i);
    var k :| 0 <= k < |Effective(log)| && Effective(log)[k] == log[i];
    assert ResultAt(Effective(log), k, id);
  }

  /** For a sound log the transcript is exactly paired if and only if what is visible comes in pairs. */
  lemma {:induction false} PairedIffVisiblePaired(log: seq<Event>)
    requires Dense(log) && ReferencesSound(log)
    ensures ExactlyPaired(Effective(log)) <==> VisiblePaired(log)
  {
    var es := Effective(log);
    TranscriptFromLog(log, |log|);
    if VisiblePaired(log) {
      VisiblePairsArePaired(log, es);
    }
    if ExactlyPaired(es) {
      forall u, id | UseAt(log, u, id) && !Shadowed(log, u)
        ensures VisibleResult(log, id)
      {
        UseInTranscript(log, u, id);
        var k :| UseAt(es, k, id);
        var r :| ResultAt(es, r, id);
        assert ResultAt(log, es[r].seqNo, id);
      }
      forall r, id | ResultAt(log, r, id) && !Shadowed(log, r)
        ensures VisibleUse(log, id)
      {
        ResultInTranscript(log, r, id);
        var k :| ResultAt(es, k, id);
        var u :| UseAt(es, u, id);
        assert UseAt(log, es[u].seqNo, id);
      }
    }
  }

  lemma {:induction false} VisiblePairsArePaired(log: seq<Event>, es: seq<Event>)
    requires Dense(log) && ReferencesSound(log) && VisiblePaired(log)
    requires es == Effective(log) && FromLog(log, |log|, es)
    ensures ExactlyPaired(es)
  {
    forall i, id | UseAt(es, i, id)
      ensures UseAt(log, es[i].seqNo, id) && HasResult(es, id)
    {
      assert UseAt(log, es[i].seqNo, id);
      var r :| ResultAt(log, r, id) && !Shadowed(log, r);
      ResultInTranscript(log, r, id);
    }
    forall i, id | ResultAt(es, i, id)
      ensures ResultAt(log, es[i].seqNo, id)
      ensures UsedBefore(es, i, id)
    {
      assert ResultAt(log, es[i].seqNo, id);
      var u :| UseAt(log, u, id) && !Shadowed(log, u);
      var v :| UseAt(log, v, id) && log[v].seqNo < log[es[i].seqNo].seqNo;
      assert u == v;
      UseInTranscript(log, u, id);
    }
  }
}
