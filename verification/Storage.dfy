/** The write-through log and the storage adapter behind it: log.go, storage.go, persistent_log.go. */
module Storage {
  import opened Events

  datatype StorageError =
    | Conflict(expectedSeq: int, currentNextSeq: int)
    | Outage
    | BadRows

  /** How one write to an adapter goes: the memory adapter always `Works`; others may fail on either side of the
      write. */
  datatype Fault = Works | FailsBeforeWrite | FailsAfterWrite | LosesRows | MisnumbersRows

  // ---------- One append, as a function of the state ----------

  /** What an adapter holding `rows` answers to an append. */
  function StoreAnswer(rows: seq<Event>, bodies: seq<Body>, expected: Option<int>, fault: Fault): Result<seq<Event>,
                       StorageError> {
    if expected.Some? && expected.value != |rows| then Failure(Conflict(expected.value, |rows|))
    else match fault
      case Works => Success(Stamp(|rows|, bodies))
      case FailsBeforeWrite => Failure(Outage)
      case FailsAfterWrite => Failure(Outage)
      case LosesRows => Success([])
      case MisnumbersRows => Success(Stamp(|rows| + 1, bodies))
  }

  /** What the adapter holds afterwards: the whole batch or none of it. */
  function StoreAfter(rows: seq<Event>, bodies: seq<Body>, expected: Option<int>, fault: Fault): seq<Event> {
    if (expected.Some? && expected.value != |rows|) || fault.FailsBeforeWrite? then rows else Extend(rows, bodies)
  }

  /** A log and its latch. */
  datatype Writer = Writer(events: seq<Event>, error: Option<StorageError>)

  /** What becomes of a writer when the store answers its append. */
  function WriterAfter(w: Writer, bodies: seq<Body>, answer: Result<seq<Event>, StorageError>): Writer {
    match answer
    case Failure(e) => w.(error := Some(e))
    case Success(rows) =>
      if |rows| == |bodies| && forall i :: 0 <= i < |rows| ==> rows[i].seqNo == |w.events| + i
      then w.(events := Extend(w.events, bodies))
      else w.(error := Some(BadRows))
  }

  // ---------- The adapter ----------

  datatype Meta = Text(text: string) | Number(value: int)

  /** Where a session came from, if another one spawned it. */
  datatype Links = Links(parentID: string, rootID: string, spawnID: string, spawnedBy: string, chain: seq<(string,
                         string)>)

  datatype Header = Header(id: string, metadata: map<string, Meta>, links: Links)

  class StorageAdapter {
    var header: Option<Header>
    var rows: seq<Event>
    const faults: nat -> Fault
    var writes: nat

    constructor (faults: nat -> Fault)
      ensures header == None && rows == [] && this.faults == faults && writes == 0
    {
      header, rows, writes := None, [], 0;
      this.faults := faults;
    }

    method SaveHeader(h: Header)
      modifies this`header
      ensures header == Some(h)
    {
      header := Some(h);
    }

    method AppendEvents(bodies: seq<Body>, expected: Option<int>) returns (r: Result<seq<Event>, StorageError>)
      modifies this`rows, this`writes
      ensures r == StoreAnswer(old(rows), bodies, expected, faults(old(writes)))
      ensures rows == StoreAfter(old(rows), bodies, expected, faults(old(writes)))
      ensures rows == old(rows) || rows == Extend(old(rows), bodies)
      ensures expected.Some? && expected.value != |old(rows)| ==>
                r == Failure(Conflict(expected.value, |old(rows)|)) && rows == old(rows)
      ensures (expected == None || expected.value == |old(rows)|) && faults(old(writes)) == Works ==>
                r == Success(rows[|old(rows)|..]) && rows == Extend(old(rows), bodies)
    {
      var fault := faults(writes);
      writes := writes + 1;
      var nextSeq := |rows|;
      if expected.Some? && expected.value != nextSeq {
        return Failure(Conflict(expected.value, nextSeq));
      }
      if fault == FailsBeforeWrite {
        return Failure(Outage);
      }
      var batch: seq<Event> := [];
      for index := 0 to |bodies|
        invariant batch == Stamp(nextSeq, bodies[..index])
      {
        batch := batch + [Event(nextSeq + index, bodies[index])];
      }
      assert bodies[..|bodies|] == bodies;
      rows := rows + batch;
      match fault
      case FailsAfterWrite => return Failure(Outage);
      case LosesRows => return Success([]);
      case MisnumbersRows => return Success(Stamp(nextSeq + 1, bodies));
      case _ => return Success(batch);
    }

    method EventsSince(cursor: Option<int>) returns (out: seq<Event>)
      ensures |out| <= |rows| && out == rows[|rows| - |out|..]
      ensures |out| == if cursor == None || cursor.value < 0 then |rows|
                       else if cursor.value < |rows| then |rows| - cursor.value - 1 else 0
    {
      var start := if cursor.Some? then cursor.value + 1 else 0;
      if start < 0 {
        start := 0;
      }
      if start > |rows| {
        return [];
      }
      out := rows[start..];
    }
  }

  // ---------- The log ----------

  class Log {
    var events: seq<Event>
    var storage: StorageAdapter?
    var storageErr: Option<StorageError>

    constructor ()
      ensures events == [] && storage == null && storageErr == None
    {
      events, storage, storageErr := [], null, None;
    }

    /** The adapter behind the log, if it is bound. */
    ghost function Sink(): set<object>
      reads this`storage
    {
      if storage == null then {} else {storage}
    }

    ghost function AsWriter(): Writer
      reads this
    {
      Writer(events, storageErr)
    }

    /** The log has not latched, and the adapter behind it, if there is one, is level with it and works. */
    ghost predicate Reliable()
      reads this, Sink()
    {
      && storageErr == None
      && (storage != null ==> |storage.rows| == |events| && forall n: nat :: storage.faults(n) == Works)
    }

    method BindStorage(adapter: StorageAdapter)
      modifies this`storage
      ensures storage == adapter
    {
      storage := adapter;
    }

    method ClearStorageErr()
      modifies this`storageErr
      ensures storageErr == None
    {
      storageErr := None;
    }

    method Restore(event: Event)
      modifies this`events
      ensures events == old(events) + [event]
    {
      events := events + [event];
    }

    /** All of `bodies` becomes durable and then visible, or the log latches and shows none of it. */
    method AppendBatch(bodies: seq<Body>) returns (r: Result<seq<Event>, StorageError>)
      modifies this`events, this`storageErr, Sink()
      ensures old(storageErr.Some?) ==> r == Failure(old(storageErr.value))
      ensures old(storageErr.Some?) || bodies == [] ==>
                && AsWriter() == old(AsWriter()) && (storage != null ==> storage.rows == old(storage.rows))
      ensures old(storageErr == None) && bodies != [] && storage != null ==>
                var answer := StoreAnswer(old(storage.rows), bodies, Some(|old(events)|),
                    storage.faults(old(storage.writes)));
                && storage.rows == StoreAfter(old(storage.rows), bodies, Some(|old(events)|),
                  storage.faults(old(storage.writes)))
                && AsWriter() == WriterAfter(old(AsWriter()), bodies, answer)
      ensures storage == null ==> storageErr == old(storageErr)
      ensures storageErr == None ==> r == Success(Stamp(|old(events)|, bodies)) && events == Extend(old(events), bodies)
      ensures storageErr.Some? ==> r == Failure(storageErr.value) && events == old(events)
      ensures old(Reliable()) ==> Reliable()
    {
      if storageErr.Some? {
        return Failure(storageErr.value);
      }
      if bodies == [] {
        assert Extend(events, bodies) == events;
        return Success([]);
      }
      var nextSeq := |events|;
      var batch := Stamp(nextSeq, bodies);
      if storage != null {
        var answer := storage.AppendEvents(bodies, Some(nextSeq));
        if answer.Failure? {
          storageErr := Some(answer.error);
          return Failure(answer.error);
        }
        var returned := answer.value;
        if |returned| != |batch| {
          storageErr := Some(BadRows);
          return Failure(BadRows);
        }
        for index := 0 to |returned|
          invariant forall i :: 0 <= i < index ==> returned[i].seqNo == nextSeq + i
          invariant events == old(events) && storageErr == None
                    && storage.rows == StoreAfter(old(storage.rows), bodies, Some(nextSeq),
                      storage.faults(old(storage.writes)))
        {
          if returned[index].seqNo != nextSeq + index {
            storageErr := Some(BadRows);
            return Failure(BadRows);
          }
        }
      }
      events := events + batch;
      return Success(batch);
    }

    method Append(body: Body)
      modifies this`events, this`storageErr, Sink()
      ensures storageErr == None ==> events == Extend(old(events), [body])
      ensures storageErr.Some? ==> events == old(events)
      ensures old(storageErr.Some?) ==> storageErr == old(storageErr)
      ensures storage == null ==> storageErr == old(storageErr)
      ensures old(Reliable()) ==> Reliable()
    {
      var _ := AppendBatch([body]);
    }

    method LastAssistantMessage() returns (r: Option<Event>)
      ensures r == LastAssistant(events)
    {
      var i := |events|;
      while i > 0
        invariant 0 <= i <= |events|
        invariant LastAssistant(events) == LastAssistant(events[..i])
      {
        i := i - 1;
        assert events[..i + 1][..i] == events[..i];
        if events[i].body.AssistantMessage? {
          return Some(events[i]);
        }
      }
      return None;
    }
  }

  predicate LastAssistantAt(events: seq<Event>, i: int) {
    && 0 <= i < |events| && events[i].body.AssistantMessage?
    && forall k :: i < k < |events| ==> !events[k].body.AssistantMessage?
  }

  function LastAssistant(events: seq<Event>): (r: Option<Event>)
    ensures r == None <==> forall i :: 0 <= i < |events| ==> !events[i].body.AssistantMessage?
    ensures r.Some? ==> exists i :: LastAssistantAt(events, i) && r == Some(events[i])
  {
    if events == [] then None
    else
      var most, last := events[..|events| - 1], events[|events| - 1];
      assert events == most + [last];
      if last.body.AssistantMessage? then Some(last) else LastAssistant(most)
  }
}
