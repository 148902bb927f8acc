/** Sessions: binding to storage, loading, forking: session.go, persistent_log.go. */
module Sessions {
  import opened Events
  import opened Storage

  datatype BindError = HeldMore(stored: int, held: int) | Mismatch(at: int) | Backfill(cause: StorageError)

  datatype LoadError = NoHeader | BadSeq(at: int)

  /** The type under which an event is stored. */
  function TypeOf(b: Body): string {
    match b
    case UserMessage(_) => "user_message"
    case AssistantMessage(_, _, _) => "assistant_message"
    case ToolUse(_, _, _) => "tool_use"
    case ToolResult(_, _, _) => "tool_result"
    case Compact(_, _) => "compact"
    case Revert(_) => "revert"
    case Summary(_) => "summary"
    case Annotation(_) => "annotation"
    case ProviderError(_, _) => "provider_error"
    case RuntimeError(_, _) => "runtime_error"
    case ApprovalRequested(_) => "approval_requested"
    case ApprovalResolved(_, _) => "approval_resolved"
    case AgentSpawn(_, _) => "agent_spawn"
    case AgentStatus(_, _) => "agent_status"
    case AgentResult(_, _, _) => "agent_result"
  }

  /** Two events agree on what binding compares besides the number: the type. */
  predicate SameKind(a: Body, b: Body) { TypeOf(a) == TypeOf(b) }

  /** Events of one type have the same constructor, and no others share a type. */
  lemma {:induction false} SameKindIff(a: Body, b: Body)
    ensures a.UserMessage? ==> (SameKind(a, b) <==> b.UserMessage?)
    ensures a.AssistantMessage? ==> (SameKind(a, b) <==> b.AssistantMessage?)
    ensures a.ToolUse? ==> (SameKind(a, b) <==> b.ToolUse?)
    ensures a.ToolResult? ==> (SameKind(a, b) <==> b.ToolResult?)
    ensures a.Compact? ==> (SameKind(a, b) <==> b.Compact?)
    ensures a.Revert? ==> (SameKind(a, b) <==> b.Revert?)
    ensures a.Summary? ==> (SameKind(a, b) <==> b.Summary?)
    ensures a.Annotation? ==> (SameKind(a, b) <==> b.Annotation?)
    ensures a.ProviderError? ==> (SameKind(a, b) <==> b.ProviderError?)
    ensures a.RuntimeError? ==> (SameKind(a, b) <==> b.RuntimeError?)
    ensures a.ApprovalRequested? ==> (SameKind(a, b) <==> b.ApprovalRequested?)
    ensures a.ApprovalResolved? ==> (SameKind(a, b) <==> b.ApprovalResolved?)
    ensures a.AgentSpawn? ==> (SameKind(a, b) <==> b.AgentSpawn?)
    ensures a.AgentStatus? ==> (SameKind(a, b) <==> b.AgentStatus?)
    ensures a.AgentResult? ==> (SameKind(a, b) <==> b.AgentResult?)
  {}

  ghost predicate SameShape(rows: seq<Event>, events: seq<Event>) {
    && |rows| <= |events|
    && forall i :: 0 <= i < |rows| ==> rows[i].seqNo == events[i].seqNo && SameKind(rows[i].body, events[i].body)
  }

  /** Writes, one at a time and fenced, the events the adapter lacks. */
  method WriteMissing(adapter: StorageAdapter, events: seq<Event>) returns (failure: Option<BindError>)
    requires SameShape(adapter.rows, events)
    modifies adapter`rows, adapter`writes
    ensures old(adapter.rows) <= adapter.rows && (Dense(old(adapter.rows)) ==> Dense(adapter.rows))
    ensures failure == None ==> adapter.rows == old(adapter.rows) + events[|old(adapter.rows)|..]
    ensures Dense(events) && (forall n :: adapter.faults(n) == Works) ==> failure == None
  {
    ghost var rows := adapter.rows;
    var start := |adapter.rows|;
    assert rows + events[start..start] == rows;
    for i := start to |events|
      invariant adapter.rows == rows + events[start..i]
      invariant Dense(rows) ==> Dense(adapter.rows)
    {
      assert events[i].seqNo == i ==> Stamp(i, [events[i].body]) == [events[i]];
      assert events[start..i + 1] == events[start..i] + [events[i]];
      var stored := adapter.AppendEvents([events[i].body], Some(events[i].seqNo));
      if stored.Failure? {
        return Some(Backfill(stored.error));
      }
    }
    assert events[start..|events|] == events[start..];
    return None;
  }

  class Session {
    const id: string
    const log: Log
    const metadata: map<string, Meta>
    const links: Links

    constructor (header: Header, log: Log)
      ensures AsHeader() == header && this.log == log
    {
      this.id, this.metadata, this.links, this.log := header.id, header.metadata, header.links, log;
    }

    function AsHeader(): Header { Header(id, metadata, links) }

    /** Checks what the adapter already holds, writes what it lacks, and only then binds. */
    method BindStorage(adapter: StorageAdapter) returns (failure: Option<BindError>)
      modifies adapter, log`storage
      ensures adapter.header == Some(AsHeader())
      ensures old(adapter.rows) <= adapter.rows && (Dense(old(adapter.rows)) ==> Dense(adapter.rows))
      ensures !SameShape(old(adapter.rows), log.events) ==> failure.Some? && adapter.rows == old(adapter.rows)
      ensures failure == None ==> log.storage == adapter && SameShape(adapter.rows, log.events)
      ensures failure == None ==> adapter.rows == old(adapter.rows) + log.events[|old(adapter.rows)|..]
      ensures failure.Some? ==> log.storage == old(log.storage)
      ensures Dense(log.events) && SameShape(old(adapter.rows), log.events)
              && (forall n :: adapter.faults(n) == Works) ==>
                failure == None
    {
      adapter.SaveHeader(AsHeader());
      var rows := adapter.EventsSince(None);
      var events := log.events;
      if |rows| > |events| {
        return Some(HeldMore(|rows|, |events|));
      }
      for i := 0 to |rows|
        invariant forall k :: 0 <= k < i ==> rows[k].seqNo == events[k].seqNo && SameKind(rows[k].body, events[k].body)
      {
        if rows[i].seqNo != events[i].seqNo || !SameKind(rows[i].body, events[i].body) {
          return Some(Mismatch(events[i].seqNo));
        }
      }
      failure := WriteMissing(adapter, events);
      if failure == None {
        log.BindStorage(adapter);
      }
    }

    /** The fork's log is the prefix up to `atSeq`, unbound. It keeps the origin of its source and notes where it was
        forked. */
    method Fork(newID: string, atSeq: int) returns (forked: Session)
      ensures fresh(forked) && fresh(forked.log)
      ensures forked.log.storage == null && forked.log.storageErr == None
      ensures forked.log.events <= log.events
      ensures forall i :: 0 <= i < |forked.log.events| ==> log.events[i].seqNo <= atSeq
      ensures |forked.log.events| < |log.events| ==> log.events[|forked.log.events|].seqNo > atSeq
      ensures forked.AsHeader() == Header(newID, metadata["forked_from" := Text(id)]["forked_at_seq" := Number(atSeq)],
              links)
    {
      var forkedLog := new Log();
      var i := 0;
      while i < |log.events|
        invariant 0 <= i <= |log.events|
        invariant forkedLog.events == log.events[..i]
        invariant forkedLog.storage == null && forkedLog.storageErr == None
        invariant forall k :: 0 <= k < i ==> log.events[k].seqNo <= atSeq
        invariant fresh(forkedLog)
      {
        if log.events[i].seqNo > atSeq {
          break;
        }
        forkedLog.Restore(log.events[i]);
        i := i + 1;
      }
      var noted := metadata["forked_from" := Text(id)]["forked_at_seq" := Number(atSeq)];
      forked := new Session(Header(newID, noted, links), forkedLog);
    }
  }

  /** Restores a session, and keeps the adapter bound. */
  method LoadSessionFromStorage(adapter: StorageAdapter) returns (r: Result<Session, LoadError>)
    ensures r.Success? <==> adapter.header.Some? && Dense(adapter.rows)
    ensures r.Success? ==>
              && r.value.AsHeader() == adapter.header.value && r.value.log.events == adapter.rows
              && r.value.log.storage == adapter && r.value.log.storageErr == None && fresh(r.value.log)
  {
    if adapter.header == None {
      return Failure(NoHeader);
    }
    var rows := adapter.EventsSince(None);
    var log := new Log();
    for i := 0 to |rows|
      invariant log.events == rows[..i] && log.storageErr == None && fresh(log)
      invariant forall k :: 0 <= k < i ==> rows[k].seqNo == k
      invariant adapter.rows == old(adapter.rows) && adapter.header == old(adapter.header)
    {
      if rows[i].seqNo != i {
        return Failure(BadSeq(i));
      }
      log.Restore(rows[i]);
    }
    log.BindStorage(adapter);
    var session := new Session(adapter.header.value, log);
    return Success(session);
  }
}
