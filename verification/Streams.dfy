/** What the three stream parsers share: provider_stream.go. */
module Streams {
  import opened Events
  import opened Protocol
  import opened Sequences

  /** What a parser emits: observations while frames come in, and durable events once everything validated. */
  datatype Signal =
    | TurnStarted
    | TextDelta(chunk: string)
    | ToolBegin(id: string, name: string)
    | ArgumentDelta(id: string, chunk: string)
    | ToolEnd(id: string, arguments: Arguments)
    | TurnDone(stop: string, usage: Usage)
    | TurnFailed
    | Durable(body: Body)

  /** The observations that frames give rise to. */
  predicate IsDelta(s: Signal) { s.TextDelta? || s.ToolBegin? || s.ArgumentDelta? || s.ToolEnd? }

  /** `after` adds only such observations to `before`. */
  ghost predicate OnlyDeltas(before: seq<Signal>, after: seq<Signal>) {
    before <= after && forall k :: |before| <= k < |after| ==> IsDelta(after[k])
  }

  /** The counts of a provider, as far as it has reported them. */
  datatype Report = Report(input: Option<nat>, output: Option<nat>)

  function Merge(u: Usage, r: Report): Usage {
    var input := if r.input.Some? then r.input.value else u.input;
    var output := if r.output.Some? then r.output.value else u.output;
    Usage(input, output, input + output)
  }

  const NO_USAGE := Usage(0, 0, 0)

  /** A piece of text is kept and shown, unless it is empty. */
  function MoreText(parts: seq<string>, chunk: string): seq<string> {
    if chunk == "" then parts else parts + [chunk]
  }

  function Shown(chunk: string): seq<Signal> {
    if chunk == "" then [] else [TextDelta(chunk)]
  }

  /** The text an observer has seen. */
  function Said(emitted: seq<Signal>): string {
    if emitted == [] then ""
    else
      var last := emitted[|emitted| - 1];
      Said(emitted[..|emitted| - 1]) + if last.TextDelta? then last.chunk else ""
  }

  /** What each signal shows of the text. */
  function DeltaPieces(emitted: seq<Signal>): seq<string> {
    seq(|emitted|, k requires 0 <= k < |emitted| => if emitted[k].TextDelta? then emitted[k].chunk else "")
  }

  lemma {:induction false} SaidMore(emitted: seq<Signal>, s: Signal)
    ensures Said(emitted + [s]) == Said(emitted) + if s.TextDelta? then s.chunk else ""
  {
    assert (emitted + [s])[..|emitted|] == emitted;
  }

  lemma {:induction false} SaidShown(emitted: seq<Signal>, chunk: string)
    ensures Said(emitted + Shown(chunk)) == Said(emitted) + chunk
  {
    if chunk == "" {
      assert emitted + Shown(chunk) == emitted && Said(emitted) + chunk == Said(emitted);
    } else {
      SaidMore(emitted, TextDelta(chunk));
    }
  }

  lemma {:induction false} NothingSaid(emitted: seq<Signal>, more: seq<Signal>)
    requires forall s :: s in more ==> !s.TextDelta?
    ensures Said(emitted + more) == Said(emitted)
  {
    if more == [] {
      assert emitted + more == emitted;
    } else {
      var most, last := more[..|more| - 1], more[|more| - 1];
      NothingSaid(emitted, most);
      SaidMore(emitted + most, last);
      assert emitted + more == emitted + most + [last];
    }
  }

  lemma {:induction false} SaidIsSpelled(emitted: seq<Signal>)
    ensures Spells(Said(emitted), DeltaPieces(emitted))
  {
    if emitted == [] {
      SpellsNothing<char>();
      assert DeltaPieces(emitted) == [];
    } else {
      var most, last := emitted[..|emitted| - 1], emitted[|emitted| - 1];
      SaidIsSpelled(most);
      SaidOneMore(most, last, Said(most), DeltaPieces(most));
      assert emitted == most + [last];
    }
  }

  lemma {:induction false} SaidOneMore(most: seq<Signal>, last: Signal, said: string, pieces: seq<string>)
    requires said == Said(most) && pieces == DeltaPieces(most) && Spells(said, pieces)
    ensures Spells(Said(most + [last]), DeltaPieces(most + [last]))
  {
    SpellsMore(said, pieces, if last.TextDelta? then last.chunk else "");
    SaidMore(most, last);
    OneMoreDelta(most, last);
  }

  lemma {:induction false} OneMoreDelta(most: seq<Signal>, last: Signal)
    ensures DeltaPieces(most + [last]) == DeltaPieces(most) + [if last.TextDelta? then last.chunk else ""]
  {}

  /** The text of the answer is what the observers were shown, piece by piece. */
  ghost predicate SaysWhatWasShown(emitted: seq<Signal>, answer: seq<Body>) {
    answer != [] && answer[0].AssistantMessage? && Spells(answer[0].text, DeltaPieces(emitted))
  }

  lemma {:induction false} ShownInFull(emitted: seq<Signal>, tail: seq<Signal>, answer: seq<Body>)
    requires answer != [] && answer[0].AssistantMessage? && answer[0].text == Said(emitted)
    requires DurableTail(tail, answer)
    ensures SaysWhatWasShown(emitted + tail, answer)
  {
    TailSaysNothing(emitted, tail, answer);
    SaidIsSpelled(emitted + tail);
  }

  /** The end of a stream says nothing more. */
  lemma {:induction false} TailSaysNothing(emitted: seq<Signal>, tail: seq<Signal>, answer: seq<Body>)
    requires DurableTail(tail, answer)
    ensures Said(emitted + tail) == Said(emitted)
  {
    forall s | s in tail
      ensures !s.TextDelta?
    {
      var k :| 0 <= k < |tail| && tail[k] == s;
      assert k > 0 ==> tail[(k - 1) + 1] == Durable(answer[k - 1]);
    }
    NothingSaid(emitted, tail);
  }

  function Join(parts: seq<string>): string {
    if parts == [] then "" else Join(parts[..|parts| - 1]) + parts[|parts| - 1]
  }

  lemma {:induction false} JoinMore(parts: seq<string>, chunk: string)
    ensures Join(parts + [chunk]) == Join(parts) + chunk
  {
    assert (parts + [chunk])[..|parts|] == parts;
  }

  /** The observers have been shown the text collected so far. */
  ghost predicate InStep(emitted: seq<Signal>, parts: seq<string>) { Said(emitted) == Join(parts) }

  lemma {:induction false} StillInStep(emitted: seq<Signal>, parts: seq<string>, chunk: string)
    ensures InStep(emitted, parts) ==> InStep(emitted + Shown(chunk), MoreText(parts, chunk))
  {
    SaidShown(emitted, chunk);
    JoinShown(parts, chunk);
  }

  lemma {:induction false} JoinShown(parts: seq<string>, chunk: string)
    ensures Join(MoreText(parts, chunk)) == Join(parts) + chunk
  {
    if chunk == "" {
      assert Join(parts) + chunk == Join(parts);
    } else {
      JoinMore(parts, chunk);
    }
  }

  /** Pieces that spell the joined parts go on doing so with one more part, or with an empty piece and no part. */
  lemma {:induction false} SpellsJoined(parts: seq<string>, pieces: seq<string>, more: seq<string>, piece: string)
    requires Spells(Join(parts), pieces)
    requires if more == [] then piece == "" else more == [piece]
    ensures Spells(Join(parts + more), pieces + [piece])
  {
    SpellsMore(Join(parts), pieces, piece);
    if more == [] {
      assert parts + more == parts && Join(parts) + piece == Join(parts);
    } else {
      JoinMore(parts, piece);
    }
  }

  /** What is joined is the pieces one after the other. */
  lemma {:induction false} JoinSpells(parts: seq<string>)
    ensures Spells(Join(parts), parts)
  {
    if parts == [] {
      SpellsNothing<char>();
    } else {
      var most, last := parts[..|parts| - 1], parts[|parts| - 1];
      JoinSpells(most);
      SpellsMore(Join(most), most, last);
      assert parts == most + [last];
    }
  }

  /** How argument text is decoded. JSON itself is not part of this model. */
  type Decoder = string -> Option<Arguments>

  /** The arguments that the pieces of one tool call spell, if they spell any. */
  function ParseArguments(decode: Decoder, chunks: seq<string>): Option<Arguments> {
    if Join(chunks) == "" then Some(map[]) else decode(Join(chunks))
  }

  /** The pieces, one after the other, are the text of these arguments; no text at all means none. */
  ghost predicate Reads(decode: Decoder, pieces: seq<string>, arguments: Arguments) {
    exists t :: Spells(t, pieces) && if t == "" then arguments == map[] else decode(t) == Some(arguments)
  }

  /** The counts are those reported last, 0 until then, and their sum. */
  ghost predicate UsageIs(reports: seq<Report>, u: Usage) {
    && LastGiven(Inputs(reports), u.input, 0) && LastGiven(Outputs(reports), u.output, 0)
    && u.total == u.input + u.output
  }

  function Inputs(reports: seq<Report>): seq<Option<nat>> {
    seq(|reports|, k requires 0 <= k < |reports| => reports[k].input)
  }

  function Outputs(reports: seq<Report>): seq<Option<nat>> {
    seq(|reports|, k requires 0 <= k < |reports| => reports[k].output)
  }

  lemma {:induction false} OneMoreReport(reports: seq<Report>, u: Usage, r: Report)
    requires UsageIs(reports, u)
    ensures UsageIs(reports + [r], Merge(u, r))
  {
    LastGivenMore(Inputs(reports), u.input, 0, r.input);
    LastGivenMore(Outputs(reports), u.output, 0, r.output);
    assert Inputs(reports + [r]) == Inputs(reports) + [r.input];
    assert Outputs(reports + [r]) == Outputs(reports) + [r.output];
  }

  lemma {:induction false} NoReport(u: Usage)
    requires u.total == u.input + u.output
    ensures Merge(u, Report(None, None)) == u
  {}

  // ---------- Block numbers in order ----------

  /** Block numbers are JSON numbers. */
  ghost predicate Ascending(keys: seq<real>) {
    forall i, j :: 0 <= i < j < |keys| ==> keys[i] < keys[j]
  }

  function Insert(keys: seq<real>, k: real): seq<real> {
    if keys == [] || k < keys[0] then [k] + keys else [keys[0]] + Insert(keys[1..], k)
  }

  lemma {:induction false} InsertAscends(keys: seq<real>, k: real)
    requires Ascending(keys) && k !in keys
    ensures Ascending(Insert(keys, k))
    ensures forall x :: x in Insert(keys, k) <==> x in keys || x == k
  {
    if keys != [] {
      var first, others := keys[0], keys[1..];
      assert keys == [first] + others;
      if k < first {
        FirstAscends(k, keys);
      } else {
        InsertAscends(others, k);
        FirstAscends(first, Insert(others, k));
      }
    }
  }

  lemma {:induction false} FirstAscends(first: real, rest: seq<real>)
    requires Ascending(rest) && (rest != [] ==> first < rest[0] || forall x :: x in rest ==> first < x)
    ensures Ascending([first] + rest)
    ensures forall x :: x in [first] + rest <==> x == first || x in rest
  {
    assert forall j :: 0 <= j < |rest| ==> rest[j] in rest;
  }

  /** `keys` lists the block numbers in `all` in ascending order. */
  ghost predicate Lists(keys: seq<real>, all: set<real>) {
    Ascending(keys) && forall k :: k in keys <==> k in all
  }

  method SortKeys(all: set<real>) returns (keys: seq<real>)
    ensures Lists(keys, all)
    ensures forall j :: 0 <= j < |keys| ==> keys[j] in all
  {
    keys := [];
    var todo := all;
    while exists k :: k in todo
      invariant todo <= all && Ascending(keys)
      invariant forall k :: k in keys <==> k in all && k !in todo
      decreases todo
    {
      var k :| k in todo;
      InsertAscends(keys, k);
      keys := Insert(keys, k);
      todo := todo - {k};
    }
    assert forall j :: 0 <= j < |keys| ==> keys[j] in keys;
  }

  // ---------- How a stream ends ----------

  ghost predicate DurableTail(tail: seq<Signal>, answer: seq<Body>) {
    && |tail| == |answer| + 1 && tail[0].TurnDone?
    && forall k :: 0 <= k < |answer| ==> tail[k + 1] == Durable(answer[k])
  }

  ghost predicate Says(answer: seq<Body>, message: Body, uses: seq<Body>) {
    |answer| == |uses| + 1 && answer[0] == message && forall k :: 0 <= k < |uses| ==> answer[k + 1] == uses[k]
  }

  /** What a parser emits at the end of a stream: the turn's end, the assistant message, then its uses in order. */
  method Announce(text: string, stop: string, usage: Usage, uses: seq<Body>)
    returns (tail: seq<Signal>, ghost answer: seq<Body>)
    requires forall k :: 0 <= k < |uses| ==> uses[k].ToolUse?
    ensures Builtin(answer) && DurableTail(tail, answer) && Says(answer, AssistantMessage(text, stop, usage), uses)
  {
    var message := AssistantMessage(text, stop, usage);
    tail := [TurnDone(stop, usage), Durable(message)];
    answer := [message];
    for k := 0 to |uses|
      invariant |answer| == k + 1 && answer[0] == message && forall j :: 0 <= j < k ==> answer[j + 1] == uses[j]
      invariant DurableTail(tail, answer) && forall j :: 1 <= j < |answer| ==> answer[j].ToolUse?
    {
      tail := tail + [Durable(uses[k])];
      answer := answer + [uses[k]];
    }
  }

  /** The uses of numbered tool states, in the order of `keys`. */
  function UsesOf<T>(tools: map<real, T>, useOf: T -> Body, keys: seq<real>): (r: seq<Body>)
    requires forall k :: 0 <= k < |keys| ==> keys[k] in tools
    ensures |r| == |keys| && forall k :: 0 <= k < |r| ==> r[k] == useOf(tools[keys[k]])
  {
    seq(|keys|, k requires 0 <= k < |keys| => useOf(tools[keys[k]]))
  }

  /** An answer of one message and the uses of the tool states `keys` list. */
  ghost predicate AnswersWith<T>(message: Body, tools: map<real, T>, useOf: T -> Body, keys: seq<real>,
                                 answer: seq<Body>) {
    && |answer| == |keys| + 1 && answer[0] == message
    && forall k :: 0 <= k < |keys| ==> keys[k] in tools && answer[k + 1] == useOf(tools[keys[k]])
  }

  lemma {:induction false} SaysWhat<T>(message: Body, tools: map<real, T>, useOf: T -> Body, keys: seq<real>,
                                       uses: seq<Body>, answer: seq<Body>)
    requires (forall k :: 0 <= k < |keys| ==> keys[k] in tools) && uses == UsesOf(tools, useOf, keys)
    requires Says(answer, message, uses)
    ensures AnswersWith(message, tools, useOf, keys, answer)
  {}

  lemma {:induction false} TailOf<T>(before: seq<T>, tail: seq<T>)
    ensures (before + tail)[|before|..] == tail && before <= before + tail
  {}

  /** The use a finished tool call stands for. */
  function FinishedUse(id: string, name: string, arguments: Option<Arguments>): (b: Body)
    ensures b.ToolUse?
  {
    ToolUse(id, name, if arguments.Some? then arguments.value else map[])
  }

  /** A stream ends with exactly one of turn-done and turn-failed; durable events follow turn-done only, the assistant
      message first. */
  ghost predicate EndsOnce(emitted: seq<Signal>, answer: Option<seq<Body>>) {
    exists n :: 1 <= n <= |emitted| && EndsAt(emitted, n, answer)
  }

  ghost predicate EndsAt(emitted: seq<Signal>, n: int, answer: Option<seq<Body>>) {
    && 1 <= n <= |emitted| && emitted[0] == TurnStarted && OnlyDeltas([TurnStarted], emitted[..n])
    && match answer
       case None => emitted[n..] == [TurnFailed]
       case Some(bodies) => Builtin(bodies) && DurableTail(emitted[n..], bodies)
  }
}
