/** The life of a session: runs, approvals, denials, user messages and strategies in any order. */
module Lives {
  import opened Events
  import opened Integrity
  import opened Protocol
  import opened Environment
  import Projection

  /** A session at successive moments, each reached from the one before by a run, an approval, a denial, a user
      message or a strategy. */
  ghost predicate IsLife(life: seq<Snapshot>) {
    life != [] && forall i, j :: 0 <= i && j == i + 1 && j < |life| ==> Moved(life[i], life[j])
  }

  /** A strategy that takes steps of the strict discipline, and touches nothing else, is such a move. */
  lemma {:induction false} StrategyMoves(a: Snapshot, b: Snapshot)
    requires b.calls == a.calls && b.handled == a.handled && b.rogue == a.rogue && b.reckless == a.reckless
    requires a.log <= b.log && (a.latched ==> b.latched && b.log == a.log)
    requires Sound(a.log) ==> Leads(a.log, b.log, true)
    ensures Moved(a, b)
  {
    if Sound(a.log) {
      var steps :| LeadsBy(a.log, steps, b.log, Rule(true));
      StrictRunIsLax(a.log, steps, b.log);
    }
    ResultsRemain(a.log, b.log);
  }

  lemma {:induction false} LifeMoves(life: seq<Snapshot>, n: nat)
    requires IsLife(life) && n < |life|
    ensures Moved(life[0], life[n])
  {
    if n == 0 {
      MovedNowhere(life[0]);
    } else {
      LifeMoves(life, n - 1);
      MovedOn(life[0], life[n - 1], life[n]);
    }
  }

  /** In every life of a session, however its operations interleave: each provider call saw a log without violations
      and with an exactly paired transcript. If no provider ever reused an id and nothing outside forged tool events,
      the log is sound at every moment. Unless storage failed, no tool use ever reached its handler twice, as long as
      no id came into use again while its use waited for its result, which a sound log excludes. */
  lemma {:induction false} EveryLifeIsSafe(life: seq<Snapshot>, n: nat)
    requires IsLife(life) && n < |life| && life[0].calls == [] && life[0].handled == []
    ensures forall k :: 0 <= k < |life[n].calls| ==> ProviderReady(life[n].calls[k])
    ensures !life[n].latched && UsesInTurn(life[n].log) ==> HandledOnce(life[n])
    ensures !life[n].rogue && Sound(life[0].log) ==> Sound(life[n].log) && UsesInTurn(life[n].log)
  {
    LifeMoves(life, n);
    if !life[n].rogue && Sound(life[0].log) {
      ReachableLogsAreSound(life[0].log, life[n].log, false);
      assert Sound(life[n].log);
    }
    assert HandledOnce(life[0]);
  }

  /** If moreover compactions respect pairs and nothing is reverted, every pending use stands behind a last assistant
      message that stopped for its tools, and the provider may be called exactly when nothing is pending. */
  lemma {:induction false} OrderlyLivesStayDisciplined(life: seq<Snapshot>, n: nat)
    requires IsLife(life) && n < |life| && Disciplined(life[0].log)
    ensures !life[n].rogue && !life[n].reckless ==>
              Disciplined(life[n].log) && (ProviderReady(life[n].log) <==> NoPending(life[n].log))
  {
    LifeMoves(life, n);
    if !life[n].rogue && !life[n].reckless {
      ReachableLogsAreDisciplined(life[0].log, life[n].log);
      ReadyIffNothingPending(life[n].log);
    }
  }

  /** What a provider call may be made on: a disciplined log with nothing pending. If nothing was compacted, the request
      then has every result in the message right after its use, exactly if no answer was interrupted. */
  ghost predicate OrderlyCall(log: seq<Event>) {
    && Disciplined(log) && NoPending(log)
    && (Projection.CompactionFree(log) ==>
          ((forall u, id :: UseAt(log, u, id) ==> Projection.ResultFollows(log, u, id)) <==> !Interrupted(log)))
  }

  /** Every provider call in such a life is orderly, at the instant it was made. */
  lemma {:induction false} EveryCallIsOrderly(life: seq<Snapshot>, n: nat, k: nat)
    requires IsLife(life) && n < |life| && Disciplined(life[0].log) && life[0].calls == []
    requires !life[n].rogue && !life[n].reckless && k < |life[n].calls|
    ensures OrderlyCall(life[n].calls[k])
  {
    LifeMoves(life, n);
    var log := life[n].calls[k];
    assert Disciplined(log) && ProviderReady(log);
    ReadyIffNothingPending(log);
    if Projection.CompactionFree(log) {
      Projection.ResultsFollowTheirUses(log);
    }
  }

  /** All of this holds of a session that starts empty, on the sole condition that the outside kept the rules. */
  lemma {:induction false} NewSessionsAreOrderly(life: seq<Snapshot>, n: nat)
    requires IsLife(life) && n < |life|
    requires life[0].log == [] && life[0].calls == [] && life[0].handled == []
    ensures !life[n].rogue ==> Sound(life[n].log)
    ensures !life[n].rogue && !life[n].reckless ==>
              Disciplined(life[n].log) && forall k :: 0 <= k < |life[n].calls| ==> OrderlyCall(life[n].calls[k])
  {
    NothingIsDisciplined();
    EveryLifeIsSafe(life, n);
    if !life[n].rogue && !life[n].reckless {
      OrderlyLivesStayDisciplined(life, n);
      forall k | 0 <= k < |life[n].calls|
        ensures OrderlyCall(life[n].calls[k])
      {
        EveryCallIsOrderly(life, n, k);
      }
    }
  }
}
