/** The host resolves an approval: approval.go. */
module Approval {
  import opened Events
  import opened Integrity
  import opened Storage
  import opened Protocol
  import opened Environment
  import opened Tools
  import opened Dispatch

  datatype ApprovalError = NoRunner | AlreadyResolved | NoSuchUse | WriteFailed

  /** The use of `id`, if it has no result. */
  method UnresolvedToolUse(log: seq<Event>, id: string) returns (r: Result<Event, ApprovalError>)
    ensures r.Success? <==> IsPending(log, id)
    ensures r.Success? ==> exists u :: LastUse(log, |log|, u, id) && r.value == log[u]
    ensures r.Failure? ==> r.error == if HasResult(log, id) then AlreadyResolved else NoSuchUse
  {
    var found: Option<Event> := None;
    ghost var at := 0;
    for i := 0 to |log|
      invariant !EarlierResult(log, i, id)
      invariant found == None <==> !EarlierUse(log, i, id)
      invariant found.Some? ==>
                at < i && UseAt(log, at, id) && found.value == log[at] && forall k :: at < k < i ==> !UseAt(log, k, id)
    {
      if log[i].body.ToolUse? && log[i].body.id == id {
        assert UseAt(log, i, id);
        found, at := Some(log[i]), i;
      }
      if log[i].body.ToolResult? && log[i].body.id == id {
        assert ResultAt(log, i, id);
        return Failure(AlreadyResolved);
      }
    }
    assert HasUse(log, id) <==> EarlierUse(log, |log|, id);
    assert HasResult(log, id) <==> EarlierResult(log, |log|, id);
    if found == None {
      return Failure(NoSuchUse);
    }
    assert LastUse(log, |log|, at, id);
    return Success(found.value);
  }

  /** The resolution, recorded; then whatever led to the one result that ends the log. */
  ghost predicate Resolves(before: seq<Event>, after: seq<Event>, id: string, approved: bool) {
    && Extend(before, [ApprovalResolved(id, approved)]) <= after
    && EndsWithResult(before, after, id)
  }

  /** A refusal to act leaves everything as it was. */
  ghost predicate Refused(a: Snapshot, b: Snapshot, r: Result<(), ApprovalError>) {
    r.Failure? && r.error != WriteFailed ==> b == a
  }

  /** Approving runs exactly this use, past every hook. */
  method ApproveToolUse(log: Log, w: World, runner: Option<Runner>, id: string) returns (r: Result<(), ApprovalError>)
    modifies log`events, log`storageErr, log.Sink(), w`rogue, w`reckless, w`clock, w`handled
    ensures Moved(old(Snap(log, w)), Snap(log, w)) && w.calls == old(w.calls)
    ensures Refused(old(Snap(log, w)), Snap(log, w), r)
    ensures runner == None ==> r == Failure(NoRunner)
    ensures runner.Some? && !old(IsPending(log.events, id)) ==>
              r == Failure(if old(HasResult(log.events, id)) then AlreadyResolved else NoSuchUse)
    ensures runner.Some? && old(IsPending(log.events, id)) ==>
            r == if log.storageErr == None then Success(()) else Failure(WriteFailed)
    ensures r.Success? ==> Resolves(old(log.events), log.events, id, true)
    ensures r.Success? ==>
              exists u :: LastUse(old(log.events), |old(log.events)|, u, id)
                && w.handled == old(w.handled)
                  + (if runner.value.Calls(old(log.events)[u].body.name) then [old(log.events)[u].body] else [])
                && runner.value.Wrote(Extend(old(log.events), [ApprovalResolved(id, true)]), log.events,
                  old(log.events)[u].body, w.oracles, old(w.clock))
  {
    ghost var a := Snap(log, w);
    MovedNowhere(a);
    if runner == None {
      return Failure(NoRunner);
    }
    var use := UnresolvedToolUse(log.events, id);
    if use.Failure? {
      return Failure(use.error);
    }
    ghost var u :| LastUse(a.log, |a.log|, u, id) && use.value == a.log[u];
    RecordAndRun(log, w, runner.value, use.value.body);
    return if log.storageErr.Some? then Failure(WriteFailed) else Success(());
  }

  /** Records the approval of a use and runs it. */
  method RecordAndRun(log: Log, w: World, runner: Runner, use: Body)
    requires use.ToolUse? && Waiting(log, w, use.id) && !HasResult(log.events, use.id)
    modifies log`events, log`storageErr, log.Sink(), w`rogue, w`reckless, w`clock, w`handled
    ensures Moved(old(Snap(log, w)), Snap(log, w)) && w.calls == old(w.calls)
    ensures log.storageErr == None ==>
              && Resolves(old(log.events), log.events, use.id, true)
              && w.handled == old(w.handled) + (if runner.Calls(use.name) then [use] else [])
              && runner.Wrote(Extend(old(log.events), [ApprovalResolved(use.id, true)]), log.events, use, w.oracles,
                old(w.clock))
  {
    ghost var a := Snap(log, w);
    AppendNeutral(log, w, ApprovalResolved(use.id, true));
    if log.storageErr.Some? {
      return;
    }
    ghost var b := Snap(log, w);
    StillWaiting(a, b, use.id);
    runner.Run(use, log, w);
    RanAfterQuiet(a, b, Snap(log, w), use, runner.Calls(use.name));
    RanOnce(a, Snap(log, w), use, runner.Calls(use.name));
  }

  /** A use without a result was not handed out before. */
  lemma {:induction false} RanOnce(a: Snapshot, b: Snapshot, use: Body, handled: bool)
    requires use.ToolUse? && a.log <= b.log && !HasResult(a.log, use.id)
    requires b.handled == (if handled then a.handled + [use] else a.handled)
    requires !b.latched ==> EndsWithResult(a.log, b.log, use.id)
    ensures StaysOnce(a, b)
  {
    if !b.latched && HandledOnce(a) {
      assert ResultAt(b.log, |b.log| - 1, use.id);
      OnceMore(a, b, if handled then [use] else []);
    }
  }

  /** Denying answers the use with an error and runs nothing. */
  method DenyToolUse(log: Log, w: World, id: string, reason: string) returns (r: Result<(), ApprovalError>)
    modifies log`events, log`storageErr, log.Sink()
    ensures Moved(old(Snap(log, w)), Snap(log, w))
    ensures Refused(old(Snap(log, w)), Snap(log, w), r)
    ensures !old(IsPending(log.events, id)) ==>
              r == Failure(if old(HasResult(log.events, id)) then AlreadyResolved else NoSuchUse)
    ensures old(IsPending(log.events, id)) ==> r == if log.storageErr == None then Success(()) else Failure(WriteFailed)
    ensures r.Success? ==>
              log.events == Extend(old(log.events),
                [ApprovalResolved(id, false), ToolResult(id, "", "denied by approval: " + reason)])
  {
    ghost var a := Snap(log, w);
    MovedNowhere(a);
    var use := UnresolvedToolUse(log.events, id);
    if use.Failure? {
      return Failure(use.error);
    }
    AppendNeutral(log, w, ApprovalResolved(id, false));
    ghost var b := Snap(log, w);
    StillWaiting(a, b, id);
    AppendResult(log, w, id, "", "denied by approval: " + reason);
    MovedOn(a, b, Snap(log, w));
    if log.storageErr.Some? {
      return Failure(WriteFailed);
    }
    ExtendOneByOne(a.log, b.log, log.events, ApprovalResolved(id, false),
                   ToolResult(id, "", "denied by approval: " + reason));
    return Success(());
  }
}
