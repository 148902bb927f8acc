/** Many logs over one store: every interleaving of loads, appends, outside appends and cleared latches. */
module Writers {
  import opened Events
  import opened Storage

  /** `cuts` are the store lengths at which an atomic append ended; `fenced` the watermarks of accepted fenced
      appends. */
  datatype System = System(rows: seq<Event>, cuts: set<nat>, writers: map<nat, Writer>, fenced: seq<nat>)

  datatype Action =
    | Load(w: nat)
    | Append(w: nat, bodies: seq<Body>, fault: Fault)
    | Direct(bodies: seq<Body>, expected: Option<int>, fault: Fault)
    | ClearError(w: nat)

  const EMPTY := System([], {0}, map[], [])

  function Store(s: System, bodies: seq<Body>, expected: Option<int>, fault: Fault): System {
    var rows := StoreAfter(s.rows, bodies, expected, fault);
    var accepted := StoreAnswer(s.rows, bodies, expected, fault).Success? && expected.Some? && bodies != [];
    s.(rows := rows,
       cuts := s.cuts + {|rows|},
       fenced := if accepted then s.fenced + [|s.rows|] else s.fenced)
  }

  function Next(s: System, a: Action): System {
    match a
    case Load(w) => s.(writers := s.writers[w := Writer(s.rows, None)])
    case Append(w, bodies, fault) =>
      if w !in s.writers || s.writers[w].error.Some? || bodies == [] then s
      else
        var writer := s.writers[w];
        var answer := StoreAnswer(s.rows, bodies, Some(|writer.events|), fault);
        Store(s, bodies, Some(|writer.events|), fault).(writers := s.writers[w := WriterAfter(writer, bodies, answer)])
    case Direct(bodies, expected, fault) => Store(s, bodies, expected, fault)
    case ClearError(w) =>
      if w in s.writers then s.(writers := s.writers[w := s.writers[w].(error := None)]) else s
  }

  function After(s: System, actions: seq<Action>): System {
    if actions == [] then s else Next(After(s, actions[..|actions| - 1]), actions[|actions| - 1])
  }

  ghost predicate Coherent(s: System) {
    && Dense(s.rows)
    && |s.rows| in s.cuts && (forall c :: c in s.cuts ==> c <= |s.rows|)
    && (forall w :: w in s.writers ==> s.writers[w].events <= s.rows && |s.writers[w].events| in s.cuts)
    && (forall i, j :: 0 <= i < j < |s.fenced| ==> s.fenced[i] < s.fenced[j])
    && (forall i :: 0 <= i < |s.fenced| ==> s.fenced[i] < |s.rows|)
  }

  lemma {:induction false} NextKeepsCoherent(s: System, a: Action)
    requires Coherent(s)
    ensures Coherent(Next(s, a))
    ensures s.rows <= Next(s, a).rows && s.cuts <= Next(s, a).cuts
    ensures forall c :: c in Next(s, a).cuts && c !in s.cuts ==> c == |Next(s, a).rows|
  {
    if a.Append? && a.w in s.writers {
      var events := s.writers[a.w].events;
      if |events| == |s.rows| {
        assert events == s.rows;
      }
    }
  }

  lemma {:induction false} RunsAreCoherent(s: System, actions: seq<Action>)
    requires Coherent(s)
    ensures Coherent(After(s, actions)) && s.rows <= After(s, actions).rows
  {
    if actions != [] {
      RunsAreCoherent(s, actions[..|actions| - 1]);
      NextKeepsCoherent(After(s, actions[..|actions| - 1]), actions[|actions| - 1]);
    }
  }

  /** From an empty store, in every interleaving: dense numbers, every log a prefix of the store,
      and no two fenced appends accepted at the same watermark. */
  lemma {:induction false} EveryLogIsAPrefix(actions: seq<Action>)
    ensures var s := After(EMPTY, actions);
            && Dense(s.rows)
            && (forall w :: w in s.writers ==> s.writers[w].events <= s.rows)
            && (forall i, j :: 0 <= i < j < |s.fenced| ==> s.fenced[i] != s.fenced[j])
  {
    RunsAreCoherent(EMPTY, actions);
  }

  /** A batch is seen whole or not at all, by every writer, for ever after. */
  lemma {:induction false} BatchesAreAtomic(s: System, a: Action, later: seq<Action>)
    requires Coherent(s)
    ensures var before, after, end := |s.rows|, |Next(s, a).rows|, After(Next(s, a), later);
            forall w :: w in end.writers ==> |end.writers[w].events| <= before || after <= |end.writers[w].events|
  {
    NextKeepsCoherent(s, a);
    NoCutInside(s, a, later);
    RunsAreCoherent(Next(s, a), later);
  }

  lemma {:induction false} NoCutInside(s: System, a: Action, later: seq<Action>)
    requires Coherent(s) && Coherent(Next(s, a))
    ensures forall c :: c in After(Next(s, a), later).cuts ==> c <= |s.rows| || |Next(s, a).rows| <= c
  {
    if later == [] {
      NextKeepsCoherent(s, a);
    } else {
      var most := later[..|later| - 1];
      NoCutInside(s, a, most);
      RunsAreCoherent(Next(s, a), most);
      NextKeepsCoherent(After(Next(s, a), most), later[|later| - 1]);
    }
  }

  /** A writer behind the store publishes nothing more until it is loaded again, even if its latch is cleared. */
  lemma {:induction false} StaleWriterIsLockedOut(s: System, w: nat, actions: seq<Action>)
    requires Coherent(s) && w in s.writers && |s.writers[w].events| < |s.rows|
    requires Load(w) !in actions
    ensures w in After(s, actions).writers
    ensures After(s, actions).writers[w].events == s.writers[w].events
    ensures |After(s, actions).fenced| >= |s.fenced|
  {
    if actions != [] {
      var most, last := actions[..|actions| - 1], actions[|actions| - 1];
      assert last in actions;
      StaleWriterIsLockedOut(s, w, most);
      RunsAreCoherent(s, most);
    }
  }

  /** A writer level with the store and not latched does publish, and becomes level again. */
  lemma {:induction false} LevelWriterPublishes(s: System, w: nat, bodies: seq<Body>)
    requires Coherent(s) && w in s.writers && s.writers[w] == Writer(s.rows, None)
    ensures var t := Next(s, Append(w, bodies, Works));
            t.writers[w] == Writer(t.rows, None) && t.rows == Extend(s.rows, bodies)
  {
    assert Extend(s.rows, []) == s.rows;
  }

  /** So does every writer that was just loaded, whatever it was before; and no other writer is touched. */
  lemma {:induction false} LoadedWriterPublishes(s: System, w: nat, bodies: seq<Body>)
    requires Coherent(s)
    ensures var t := Next(Next(s, Load(w)), Append(w, bodies, Works));
            && t.writers[w] == Writer(t.rows, None) && t.rows == Extend(s.rows, bodies)
            && forall v :: v in s.writers && v != w ==> v in t.writers && t.writers[v] == s.writers[v]
  {
    NextKeepsCoherent(s, Load(w));
    LevelWriterPublishes(Next(s, Load(w)), w, bodies);
  }

  /** What a writer's failed append, its cleared latch and a retry lead to. */
  function Failed(s: System, w: nat, bodies: seq<Body>, fault: Fault): System {
    Next(s, Append(w, bodies, fault))
  }

  function Retried(s: System, w: nat, bodies: seq<Body>, fault: Fault): System {
    Next(Next(Failed(s, w, bodies, fault), ClearError(w)), Append(w, bodies, Works))
  }

  /** The documented recovery: after a storage error, clear the latch and retry. It works exactly when the log that was
      left behind still shows the whole store, for every writer, level or stale, and every failure. */
  lemma {:induction false} ClearAndRetry(s: System, w: nat, bodies: seq<Body>, fault: Fault)
    requires Coherent(s) && w in s.writers && s.writers[w].error == None && bodies != []
    ensures var failed, retried := Failed(s, w, bodies, fault), Retried(s, w, bodies, fault);
            failed.writers[w].error.Some? ==>
              && failed.writers[w].events == s.writers[w].events
              && (|s.writers[w].events| < |s.rows| ==> failed.rows == s.rows)
              && (retried.writers[w].error == None <==> |failed.writers[w].events| == |failed.rows|)
  {
    var failed := Failed(s, w, bodies, fault);
    NextKeepsCoherent(s, Append(w, bodies, fault));
    if failed.writers[w].error.Some? && |failed.writers[w].events| == |failed.rows| {
      assert failed.writers[w].events == failed.rows;
    }
  }

  /** For a writer level with the store that is exactly when the failure came before the write. */
  lemma {:induction false} LevelClearAndRetry(s: System, w: nat, bodies: seq<Body>, fault: Fault)
    requires Coherent(s) && w in s.writers && s.writers[w] == Writer(s.rows, None)
    requires bodies != [] && fault != Works
    ensures var failed, retried := Failed(s, w, bodies, fault), Retried(s, w, bodies, fault);
            && failed.writers[w].error.Some?
            && (failed.rows == s.rows <==> fault == FailsBeforeWrite)
            && (retried.writers[w].error == None <==> fault == FailsBeforeWrite)
  {
    var failed := Failed(s, w, bodies, fault);
    ClearAndRetry(s, w, bodies, fault);
    if fault == MisnumbersRows {
      assert Stamp(|s.rows| + 1, bodies)[0].seqNo == |s.rows| + 1;
    }
    assert |Extend(s.rows, bodies)| > |s.rows|;
  }
}
