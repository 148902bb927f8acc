/** The Gemini stream parser: geminiStreamState in provider_stream.go. */
module GeminiStreams {
  import opened Events
  import opened Integrity
  import opened Protocol
  import opened Streams
  import opened Sequences
  import Jcs

  datatype FunctionCall = FunctionCall(name: string, args: Arguments)

  datatype Part = Part(text: string, call: Option<FunctionCall>)

  /** A decoded frame. `Garbled` is text that is no JSON object. */
  datatype Frame = Garbled | ErrorFrame | Chunk(parts: seq<Part>, finish: string, report: Report)

  // ---------- What a history of frames says ----------

  function PartTexts(parts: seq<Part>): seq<string> {
    if parts == [] then []
    else PartTexts(parts[..|parts| - 1]) + if parts[|parts| - 1].text != "" then [parts[|parts| - 1].text] else []
  }

  function PartCalls(parts: seq<Part>): seq<FunctionCall> {
    if parts == [] then []
    else PartCalls(parts[..|parts| - 1]) + if parts[|parts| - 1].call.Some? then [parts[|parts| - 1].call.value] else []
  }

  function Texts(fs: seq<Frame>): seq<string> {
    if fs == [] then []
    else Texts(fs[..|fs| - 1]) + if fs[|fs| - 1].Chunk? then PartTexts(fs[|fs| - 1].parts) else []
  }

  function Calls(fs: seq<Frame>): seq<FunctionCall> {
    if fs == [] then []
    else Calls(fs[..|fs| - 1]) + if fs[|fs| - 1].Chunk? then PartCalls(fs[|fs| - 1].parts) else []
  }

  predicate Finishes(f: Frame) { f.Chunk? && f.finish != "" }

  ghost predicate Finished(fs: seq<Frame>) { exists f :: f in fs && Finishes(f) }

  function StopOf(finish: string): (r: string)
    ensures r != "" && r != "tool_use"
    ensures r == "end_turn" <==> finish == "STOP"
    ensures r == "max_tokens" <==> finish == "MAX_TOKENS"
    ensures r == "refusal" <==> finish in {"SAFETY", "RECITATION"}
    ensures r in {"end_turn", "max_tokens", "refusal", "other"}
  {
    match finish
    case "STOP" => "end_turn"
    case "MAX_TOKENS" => "max_tokens"
    case "SAFETY" => "refusal"
    case "RECITATION" => "refusal"
    case _ => "other"
  }

  function Stop(fs: seq<Frame>): (r: string)
    ensures r != "" && r != "tool_use"
  {
    if fs == [] then "other"
    else if Finishes(fs[|fs| - 1]) then StopOf(fs[|fs| - 1].finish)
    else Stop(fs[..|fs| - 1])
  }

  function Counts(fs: seq<Frame>): Usage {
    if fs == [] then NO_USAGE
    else
      var f := fs[|fs| - 1];
      if f.Chunk? then Merge(Counts(fs[..|fs| - 1]), f.report) else Counts(fs[..|fs| - 1])
  }

  lemma {:induction false} OneMoreFrame(fs: seq<Frame>, f: Frame)
    requires f.Chunk?
    ensures Texts(fs + [f]) == Texts(fs) + PartTexts(f.parts)
    ensures Calls(fs + [f]) == Calls(fs) + PartCalls(f.parts)
    ensures Finished(fs + [f]) <==> Finished(fs) || Finishes(f)
    ensures Stop(fs + [f]) == if Finishes(f) then StopOf(f.finish) else Stop(fs)
    ensures Counts(fs + [f]) == Merge(Counts(fs), f.report)
  {
    assert (fs + [f])[..|fs|] == fs;
    assert f in fs + [f] && forall g :: g in fs ==> g in fs + [f];
  }

  lemma {:induction false} OneMorePart(parts: seq<Part>, k: nat)
    requires k < |parts|
    ensures PartTexts(parts[..k + 1]) == PartTexts(parts[..k]) + if parts[k].text != "" then [parts[k].text] else []
    ensures PartCalls(parts[..k + 1]) == PartCalls(parts[..k]) + if parts[k].call.Some? then [parts[k].call.value]
            else []
  {
    assert parts[..k + 1][..k] == parts[..k];
  }

  predicate PartLegal(part: Part) { part.call.Some? ==> part.call.value.name != "" }

  /** The first `n` parts are legal. */
  ghost predicate PartsLegal(parts: seq<Part>, n: nat)
    requires n <= |parts|
  {
    forall k :: 0 <= k < n ==> PartLegal(parts[k])
  }

  ghost predicate Legal(fs: seq<Frame>, f: Frame) {
    f.Chunk? && !Finished(fs) && PartsLegal(f.parts, |f.parts|)
  }

  ghost predicate AllLegal(fs: seq<Frame>) {
    forall n :: 0 <= n < |fs| ==> Legal(fs[..n], fs[n])
  }

  lemma {:induction false} OneMoreLegal(fs: seq<Frame>, f: Frame)
    ensures AllLegal(fs + [f]) <==> AllLegal(fs) && Legal(fs, f)
  {
    var all := fs + [f];
    assert all[..|fs|] == fs && all[|fs|] == f;
    assert forall n :: 0 <= n < |fs| ==> all[..n] == fs[..n] && all[n] == fs[n];
  }

  // ---------- The parser ----------

  /** How the calls of one stream are numbered: distinct non-empty ids. */
  ghost predicate Numbers(number: nat -> string) {
    && (forall k: nat :: number(k) != "")
    && (forall j: nat, k: nat :: number(j) == number(k) ==> j == k)
  }

  /** The uses made of the calls so far, numbered from 0 in every stream. */
  function Uses(number: nat -> string, calls: seq<FunctionCall>): (r: seq<Body>)
    ensures |r| == |calls| && forall k :: 0 <= k < |r| ==> r[k] == ToolUse(number(k), calls[k].name, calls[k].args)
  {
    seq(|calls|, k requires 0 <= k < |calls| => ToolUse(number(k), calls[k].name, calls[k].args))
  }

  /** The parser's fields as a value. */
  datatype Parser = Parser(textParts: seq<string>, stop: string, usage: Usage, tools: seq<Body>, finishSeen: bool)

  ghost predicate Fits(number: nat -> string, fs: seq<Frame>, p: Parser) {
    && AllLegal(fs) && (p.finishSeen <==> Finished(fs))
    && p.textParts == Texts(fs) && p.stop == Stop(fs) && p.usage == Counts(fs)
    && p.tools == Uses(number, Calls(fs))
  }

  /** What a chunk that is accepted does to the fields. */
  ghost predicate Handled(number: nat -> string, fs: seq<Frame>, p: Parser, f: Frame, q: Parser)
    requires f.Chunk?
  {
    && q.textParts == p.textParts + PartTexts(f.parts) && q.tools == Uses(number, Calls(fs) + PartCalls(f.parts))
    && q.stop == (if f.finish != "" then StopOf(f.finish) else p.stop) && q.usage == Merge(p.usage, f.report)
    && q.finishSeen == (p.finishSeen || f.finish != "")
  }

  lemma {:induction false} ChunkFits(number: nat -> string, fs: seq<Frame>, p: Parser, f: Frame, q: Parser)
    requires Fits(number, fs, p) && Legal(fs, f) && Handled(number, fs, p, f, q)
    ensures Fits(number, fs + [f], q)
  {
    OneMoreFrame(fs, f);
    OneMoreLegal(fs, f);
  }

  class GeminiStream {
    const read: string -> Frame
    const number: nat -> string
    var emitted: seq<Signal>
    var textParts: seq<string>
    var stop: string
    var usage: Usage
    var tools: seq<Body>
    var finishSeen: bool
    /** The frames accepted so far. */
    ghost var frames: seq<Frame>

    ghost function AsParser(): Parser
      reads this
    {
      Parser(textParts, stop, usage, tools, finishSeen)
    }

    ghost predicate Valid()
      reads this
    {
      Fits(number, frames, AsParser()) && InStep(emitted, textParts)
    }

    constructor (read: string -> Frame, number: nat -> string)
      ensures this.read == read && this.number == number
      ensures frames == [] && emitted == [] && Valid()
    {
      this.read, this.number := read, number;
      emitted, textParts, stop, usage, tools := [], [], "other", NO_USAGE, [];
      finishSeen := false;
      frames := [];
    }

    method Start()
      modifies this`emitted
      ensures emitted == old(emitted) + [TurnStarted]
      ensures old(Valid()) ==> Valid()
    {
      SaidMore(emitted, TurnStarted);
      emitted := emitted + [TurnStarted];
    }

    method Fail()
      modifies this`emitted
      ensures emitted == old(emitted) + [TurnFailed]
    {
      emitted := emitted + [TurnFailed];
    }

    /** A frame is accepted exactly if the protocol allows it, and gives rise to observations only. */
    method Data(data: string) returns (ok: bool)
      requires Valid()
      modifies this
      ensures OnlyDeltas(old(emitted), emitted)
      ensures ok <==> Legal(old(frames), read(data))
      ensures ok ==> Valid() && frames == old(frames) + [read(data)]
    {
      var f := read(data);
      ghost var fs, p := frames, AsParser();
      if f.Garbled? || f.ErrorFrame? || finishSeen {
        return false;
      }
      ok := TakeChunk(f, fs);
      if ok {
        ChunkFits(number, fs, p, f, AsParser());
        frames := fs + [f];
      }
    }

    method TakeChunk(f: Frame, ghost fs: seq<Frame>) returns (ok: bool)
      requires f.Chunk? && tools == Uses(number, Calls(fs))
      modifies this`emitted, this`textParts, this`tools, this`finishSeen, this`stop, this`usage
      ensures OnlyDeltas(old(emitted), emitted)
      ensures ok <==> PartsLegal(f.parts, |f.parts|)
      ensures ok ==> Handled(number, fs, old(AsParser()), f, AsParser())
      ensures ok && old(InStep(emitted, textParts)) ==> InStep(emitted, textParts)
    {
      ok := HandleParts(f.parts, Calls(fs));
      if !ok {
        return;
      }
      if f.finish != "" {
        finishSeen, stop := true, StopOf(f.finish);
      }
      usage := Merge(usage, f.report);
    }

    method HandleParts(parts: seq<Part>, ghost before: seq<FunctionCall>) returns (ok: bool)
      requires tools == Uses(number, before)
      modifies this`emitted, this`textParts, this`tools
      ensures OnlyDeltas(old(emitted), emitted)
      ensures ok <==> PartsLegal(parts, |parts|)
      ensures ok ==> textParts == old(textParts) + PartTexts(parts) && tools == Uses(number, before + PartCalls(parts))
      ensures ok && old(InStep(emitted, textParts)) ==> InStep(emitted, textParts)
    {
      ghost var texts := textParts;
      NothingTaken(number, before, texts, parts, tools);
      for k := 0 to |parts|
        invariant OnlyDeltas(old(emitted), emitted) && PartsLegal(parts, k)
        invariant old(InStep(emitted, textParts)) ==> InStep(emitted, textParts)
        invariant Taken(number, before, texts, parts, k, textParts, tools)
      {
        ghost var said := textParts;
        var legal := HandlePart(parts[k], before + PartCalls(parts[..k]));
        if !legal {
          return false;
        }
        OneMoreTaken(number, before, texts, parts, k, said, textParts, tools);
      }
      assert parts[..|parts|] == parts;
      return true;
    }

    method HandlePart(part: Part, ghost before: seq<FunctionCall>) returns (ok: bool)
      requires tools == Uses(number, before)
      modifies this`emitted, this`textParts, this`tools
      ensures OnlyDeltas(old(emitted), emitted)
      ensures ok <==> PartLegal(part)
      ensures ok ==> textParts == (if part.text != "" then old(textParts) + [part.text] else old(textParts))
      ensures ok ==> tools == Uses(number, before + CallIn(part))
      ensures ok && part.call == None ==> emitted == old(emitted) + Shown(part.text)
      ensures ok && part.call.Some? ==>
                tools != [] && emitted == old(emitted) + Shown(part.text) + Announced(tools[|tools| - 1])
      ensures ok && old(InStep(emitted, textParts)) ==> InStep(emitted, textParts)
    {
      assert before + [] == before;
      StillInStep(emitted, textParts, part.text);
      textParts, emitted := MoreText(textParts, part.text), emitted + Shown(part.text);
      ok := true;
      if part.call.Some? {
        ok := HandleFunctionCall(part.call.value, before);
      }
    }

    method HandleFunctionCall(call: FunctionCall, ghost before: seq<FunctionCall>) returns (ok: bool)
      requires tools == Uses(number, before)
      modifies this`emitted, this`tools
      ensures ok <==> call.name != ""
      ensures ok ==> tools == Uses(number, before + [call])
      ensures ok ==> tools != [] && emitted == old(emitted) + Announced(tools[|tools| - 1])
      ensures !ok ==> emitted == old(emitted)
      ensures OnlyDeltas(old(emitted), emitted) && Said(emitted) == Said(old(emitted))
    {
      if call.name == "" {
        return false;
      }
      var id := number(|tools|);
      tools := tools + [ToolUse(id, call.name, call.args)];
      NothingSaid(emitted, Announced(ToolUse(id, call.name, call.args)));
      emitted := emitted + [ToolBegin(id, call.name), ToolEnd(id, call.args)];
      return true;
    }

    /** Ends the stream: if a finish reason came, the answer is emitted, the assistant message first. */
    method Finish() returns (ok: bool, ghost answer: seq<Body>)
      requires Valid()
      modifies this`emitted
      ensures !ok ==> emitted == old(emitted)
      ensures ok ==> Builtin(answer) && old(emitted) <= emitted && DurableTail(emitted[|old(emitted)|..], answer)
      ensures ok <==> Finished(frames)
      ensures ok ==> answer == Answer(number, frames) && IsAnswer(number, frames, answer)
      ensures ok ==> SaysWhatWasShown(emitted, answer)
    {
      if !finishSeen {
        return false, [];
      }
      var tail;
      tail, answer := Announce(Join(textParts), stop, usage, tools);
      AnswerIsMeant(number, frames, AsParser(), answer);
      TailOf(emitted, tail);
      ShownInFull(emitted, tail, answer);
      emitted := emitted + tail;
      ok := true;
    }
  }

  /** Text and calls of the first `n` parts were taken. */
  ghost predicate Taken(number: nat -> string, before: seq<FunctionCall>, texts: seq<string>, parts: seq<Part>, n: nat,
                        textParts: seq<string>, tools: seq<Body>) {
    && n <= |parts| && textParts == texts + PartTexts(parts[..n])
    && tools == Uses(number, before + PartCalls(parts[..n]))
  }

  lemma {:induction false} NothingTaken(number: nat -> string, before: seq<FunctionCall>, texts: seq<string>,
                                        parts: seq<Part>, tools: seq<Body>)
    requires tools == Uses(number, before)
    ensures Taken(number, before, texts, parts, 0, texts, tools)
  {
    assert before + PartCalls(parts[..0]) == before && texts + PartTexts(parts[..0]) == texts;
  }

  lemma {:induction false} OneMoreTaken(number: nat -> string, before: seq<FunctionCall>, texts: seq<string>,
                                        parts: seq<Part>, k: nat, said: seq<string>, textParts: seq<string>,
                                        tools: seq<Body>)
    requires k < |parts| && said == texts + PartTexts(parts[..k])
    requires textParts == if parts[k].text != "" then said + [parts[k].text] else said
    requires tools == Uses(number, before + PartCalls(parts[..k]) + CallIn(parts[k]))
    ensures Taken(number, before, texts, parts, k + 1, textParts, tools)
  {
    OneMorePart(parts, k);
    assert before + PartCalls(parts[..k]) + CallIn(parts[k]) == before + PartCalls(parts[..k + 1]);
  }

  /** How a call is shown: it begins and ends at once. */
  function Announced(use: Body): seq<Signal> {
    if use.ToolUse? then [ToolBegin(use.id, use.name), ToolEnd(use.id, use.arguments)] else []
  }

  function CallIn(part: Part): seq<FunctionCall> {
    if part.call.Some? then [part.call.value] else []
  }

  lemma {:induction false} UsesAreUses(number: nat -> string, calls: seq<FunctionCall>)
    ensures forall m: Body :: m.AssistantMessage? ==> Builtin([m] + Uses(number, calls))
  {
    forall m: Body | m.AssistantMessage?
      ensures Builtin([m] + Uses(number, calls))
    {
      var all := [m] + Uses(number, calls);
      forall k | 1 <= k < |all|
        ensures all[k].ToolUse?
      {
        assert all[k] == Uses(number, calls)[k - 1];
      }
    }
  }

  /** What the frames of a finished stream amount to. */
  function Answer(number: nat -> string, fs: seq<Frame>): seq<Body> {
    [AssistantMessage(Join(Texts(fs)), Stop(fs), Counts(fs))] + Uses(number, Calls(fs))
  }

  /** What the parser accepts as complete: chunks of legal parts, of which the last one and no other gives a finish
      reason. */
  lemma {:induction false} AcceptedIffGrammatical(fs: seq<Frame>)
    ensures AllLegal(fs) && Finished(fs) <==>
              && fs != [] && (forall k :: 0 <= k < |fs| ==> fs[k].Chunk? && PartsLegal(fs[k].parts, |fs[k].parts|))
              && (forall k :: 0 <= k < |fs| ==> (Finishes(fs[k]) <==> k == |fs| - 1))
  {
    forall n, k | 0 <= k < n < |fs| && Finishes(fs[k])
      ensures Finished(fs[..n])
    {
      assert fs[..n][k] == fs[k] && fs[k] in fs[..n];
    }
    if AllLegal(fs) && Finished(fs) {
      var f :| f in fs && Finishes(f);
      var e :| 0 <= e < |fs| && fs[e] == f;
      forall n | 0 <= n < |fs|
        ensures fs[n].Chunk? && PartsLegal(fs[n].parts, |fs[n].parts|) && !Finished(fs[..n])
      {
        assert Legal(fs[..n], fs[n]);
      }
    }
    if fs != [] && Finishes(fs[|fs| - 1]) {
      assert fs[|fs| - 1] in fs;
    }
  }

  /** The parts each frame brings. */
  function PartPieces(fs: seq<Frame>): seq<seq<Part>> {
    seq(|fs|, k requires 0 <= k < |fs| => if fs[k].Chunk? then fs[k].parts else [])
  }

  function TextPieces(parts: seq<Part>): seq<string> {
    seq(|parts|, k requires 0 <= k < |parts| => parts[k].text)
  }

  ghost function CallsOf(parts: seq<Part>): (int, FunctionCall) -> bool {
    (k, call) => 0 <= k < |parts| && parts[k].call == Some(call)
  }

  function StopsGiven(fs: seq<Frame>): seq<Option<string>> {
    seq(|fs|, k requires 0 <= k < |fs| => if Finishes(fs[k]) then Some(StopOf(fs[k].finish)) else None)
  }

  function Reports(fs: seq<Frame>): seq<Report> {
    seq(|fs|, k requires 0 <= k < |fs| => if fs[k].Chunk? then fs[k].report else Report(None, None))
  }

  /** The text of all parts in order, the stop reason and the counts given last; then one use per part with a call, in
      order and numbered. */
  ghost predicate IsAnswer(number: nat -> string, fs: seq<Frame>, answer: seq<Body>) {
    exists parts, calls, at ::
      && Spells(parts, PartPieces(fs)) && Placed(|parts|, calls, at, CallsOf(parts))
      && Amounts(number, fs, parts, calls, answer)
  }

  ghost predicate Amounts(number: nat -> string, fs: seq<Frame>, parts: seq<Part>, calls: seq<FunctionCall>,
                          answer: seq<Body>) {
    && |answer| == |calls| + 1 && answer[0].AssistantMessage? && Spells(answer[0].text, TextPieces(parts))
    && LastGiven(StopsGiven(fs), answer[0].stopReason, "other") && UsageIs(Reports(fs), answer[0].usage)
    && forall k :: 0 <= k < |calls| ==> answer[k + 1] == ToolUse(number(k), calls[k].name, calls[k].args)
  }

  /** All parts of the frames. */
  function AllParts(fs: seq<Frame>): seq<Part> {
    if fs == [] then []
    else AllParts(fs[..|fs| - 1]) + if fs[|fs| - 1].Chunk? then fs[|fs| - 1].parts else []
  }

  lemma {:induction false} TextsOfSum(a: seq<Part>, b: seq<Part>)
    ensures PartTexts(a + b) == PartTexts(a) + PartTexts(b)
  {
    if b == [] {
      assert a + b == a;
    } else {
      TextsOfSum(a, b[..|b| - 1]);
      assert (a + b)[..|a + b| - 1] == a + b[..|b| - 1];
    }
  }

  lemma {:induction false} CallsOfSum(a: seq<Part>, b: seq<Part>)
    ensures PartCalls(a + b) == PartCalls(a) + PartCalls(b)
  {
    if b == [] {
      assert a + b == a;
    } else {
      CallsOfSum(a, b[..|b| - 1]);
      assert (a + b)[..|a + b| - 1] == a + b[..|b| - 1];
    }
  }

  lemma {:induction false} FramesAreParts(fs: seq<Frame>)
    ensures Texts(fs) == PartTexts(AllParts(fs)) && Calls(fs) == PartCalls(AllParts(fs))
  {
    if fs != [] {
      var most, f := fs[..|fs| - 1], fs[|fs| - 1];
      FramesAreParts(most);
      TextsOfSum(AllParts(most), if f.Chunk? then f.parts else []);
      CallsOfSum(AllParts(most), if f.Chunk? then f.parts else []);
    }
  }

  lemma {:induction false} FramesSpelled(fs: seq<Frame>)
    ensures Spells(AllParts(fs), PartPieces(fs))
  {
    if fs == [] {
      SpellsNothing<Part>();
      assert PartPieces(fs) == [];
    } else {
      var most, f := fs[..|fs| - 1], fs[|fs| - 1];
      FramesSpelled(most);
      var piece := if f.Chunk? then f.parts else [];
      SpellsMore(AllParts(most), PartPieces(most), piece);
      assert PartPieces(fs) == PartPieces(most) + [piece];
    }
  }

  lemma {:induction false} PartsSpelled(parts: seq<Part>)
    ensures Spells(Join(PartTexts(parts)), TextPieces(parts))
  {
    if parts == [] {
      SpellsNothing<char>();
      assert TextPieces(parts) == [];
    } else {
      var most, part := parts[..|parts| - 1], parts[|parts| - 1];
      PartsSpelled(most);
      OneMorePartText(most, part, PartTexts(most), TextPieces(most));
      assert parts == most + [part];
    }
  }

  lemma {:induction false} OneMorePartText(most: seq<Part>, part: Part, texts: seq<string>, pieces: seq<string>)
    requires texts == PartTexts(most) && pieces == TextPieces(most) && Spells(Join(texts), pieces)
    ensures Spells(Join(PartTexts(most + [part])), TextPieces(most + [part]))
  {
    var more := if part.text != "" then [part.text] else [];
    SpellsJoined(texts, pieces, more, part.text);
    LaterTexts(most, part);
    OneMorePiece(most, part);
  }

  lemma {:induction false} LaterTexts(most: seq<Part>, part: Part)
    ensures PartTexts(most + [part]) == PartTexts(most) + if part.text != "" then [part.text] else []
  {
    assert (most + [part])[..|most|] == most;
  }

  lemma {:induction false} OneMorePiece(most: seq<Part>, part: Part)
    ensures TextPieces(most + [part]) == TextPieces(most) + [part.text]
  {}

  lemma {:induction false} CallsInOrder(parts: seq<Part>, n: nat) returns (at: seq<nat>)
    requires n <= |parts|
    ensures Placed(n, PartCalls(parts[..n]), at, CallsOf(parts))
  {
    if n == 0 {
      at := [];
    } else {
      var k := n - 1;
      at := CallsInOrder(parts, k);
      OneMorePart(parts, k);
      var before := PartCalls(parts[..k]);
      if parts[k].call.Some? {
        PlaceOne(k, before, at, CallsOf(parts), parts[k].call.value);
        at := at + [k];
      } else {
        PlaceNone(k, before, at, CallsOf(parts));
        assert before + [] == before;
      }
    }
  }

  lemma {:induction false} LastStopAndCounts(fs: seq<Frame>)
    requires forall f :: f in fs ==> f.Chunk?
    ensures LastGiven(StopsGiven(fs), Stop(fs), "other") && UsageIs(Reports(fs), Counts(fs))
  {
    if fs != [] {
      var most, f := fs[..|fs| - 1], fs[|fs| - 1];
      LastStopAndCounts(most);
      OneMoreStop(most, f, StopsGiven(most), Stop(most));
      OneMoreCount(most, f, Reports(most), Counts(most));
      assert fs == most + [f];
    }
  }

  lemma {:induction false} OneMoreStop(most: seq<Frame>, f: Frame, stops: seq<Option<string>>, stop: string)
    requires stops == StopsGiven(most) && stop == Stop(most) && LastGiven(stops, stop, "other")
    ensures LastGiven(StopsGiven(most + [f]), Stop(most + [f]), "other")
  {
    var next := if Finishes(f) then Some(StopOf(f.finish)) else None;
    LastGivenMore(stops, stop, "other", next);
    LaterStop(most, f);
    OneMoreStopGiven(most, f);
  }

  lemma {:induction false} LaterStop(most: seq<Frame>, f: Frame)
    ensures Stop(most + [f]) == if Finishes(f) then StopOf(f.finish) else Stop(most)
  {
    assert (most + [f])[..|most|] == most;
  }

  lemma {:induction false} OneMoreStopGiven(most: seq<Frame>, f: Frame)
    ensures StopsGiven(most + [f]) == StopsGiven(most) + [if Finishes(f) then Some(StopOf(f.finish)) else None]
  {}

  lemma {:induction false} OneMoreCount(most: seq<Frame>, f: Frame, reports: seq<Report>, u: Usage)
    requires reports == Reports(most) && u == Counts(most) && UsageIs(reports, u) && f.Chunk?
    ensures UsageIs(Reports(most + [f]), Counts(most + [f]))
  {
    var report := f.report;
    OneMoreReport(reports, u, report);
    LaterCounts(most, f);
    OneMoreReported(most, f);
  }

  lemma {:induction false} LaterCounts(most: seq<Frame>, f: Frame)
    requires f.Chunk?
    ensures Counts(most + [f]) == Merge(Counts(most), f.report)
  {
    assert (most + [f])[..|most|] == most;
  }

  lemma {:induction false} OneMoreReported(most: seq<Frame>, f: Frame)
    requires f.Chunk?
    ensures Reports(most + [f]) == Reports(most) + [f.report]
  {}

  lemma {:induction false} AnswerIsMeant(number: nat -> string, fs: seq<Frame>, p: Parser, answer: seq<Body>)
    requires Fits(number, fs, p) && Says(answer, AssistantMessage(Join(p.textParts), p.stop, p.usage), p.tools)
    ensures answer == Answer(number, fs) && IsAnswer(number, fs, answer)
  {
    assert answer == [answer[0]] + p.tools;
    AnswerIsRight(number, fs);
  }

  lemma {:induction false} AnswerIsRight(number: nat -> string, fs: seq<Frame>)
    requires AllLegal(fs)
    ensures IsAnswer(number, fs, Answer(number, fs))
  {
    var parts := AllParts(fs);
    FramesAreParts(fs);
    FramesSpelled(fs);
    PartsSpelled(parts);
    var at := CallsInOrder(parts, |parts|);
    assert parts[..|parts|] == parts;
    forall f | f in fs
      ensures f.Chunk?
    {
      var n :| 0 <= n < |fs| && fs[n] == f;
      assert Legal(fs[..n], fs[n]);
    }
    LastStopAndCounts(fs);
    assert Amounts(number, fs, parts, Calls(fs), Answer(number, fs));
  }

  // ---------- What the loop makes of it ----------

  /** The ids actually given. */
  lemma {:induction false} DecimalsNumber()
    ensures Numbers((k: nat) => "gemini_fc_" + Jcs.Decimal(k))
  {
    var number := (k: nat) => "gemini_fc_" + Jcs.Decimal(k);
    forall j: nat, k: nat | number(j) == number(k)
      ensures j == k
    {
      assert number(j)[10..] == Jcs.Decimal(j) && number(k)[10..] == Jcs.Decimal(k);
      Jcs.DigitsParse(j, "");
      Jcs.DigitsParse(k, "");
      assert Jcs.Digits(j) + "" == Jcs.Digits(j) && Jcs.Digits(k) + "" == Jcs.Digits(k);
    }
  }

  lemma {:induction false} CallsAreNamed(fs: seq<Frame>, k: nat)
    requires AllLegal(fs) && k < |Calls(fs)|
    ensures Calls(fs)[k].name != ""
  {
    var n := |fs| - 1;
    var most := fs[..n];
    assert fs == most + [fs[n]];
    OneMoreLegal(most, fs[n]);
    if k < |Calls(most)| {
      CallsAreNamed(most, k);
    } else {
      PartsAreNamed(fs[n].parts, k - |Calls(most)|);
    }
  }

  lemma {:induction false} PartsAreNamed(parts: seq<Part>, k: nat)
    requires PartsLegal(parts, |parts|) && k < |PartCalls(parts)|
    ensures PartCalls(parts)[k].name != ""
  {
    var n := |parts| - 1;
    assert parts == parts[..n] + [parts[n]];
    if k < |PartCalls(parts[..n])| {
      PartsAreNamed(parts[..n], k);
    }
  }

  lemma {:induction false} UseAtPosition(number: nat -> string, fs: seq<Frame>, i: int, id: string)
    ensures UseIn(Answer(number, fs), i, id) <==> 1 <= i <= |Calls(fs)| && id == number(i - 1)
    ensures 1 <= i <= |Calls(fs)| ==>
            Answer(number, fs)[i] == ToolUse(number(i - 1), Calls(fs)[i - 1].name, Calls(fs)[i - 1].args)
  {
    if 1 <= i <= |Calls(fs)| {
      assert Answer(number, fs)[i] == Uses(number, Calls(fs))[i - 1];
    }
  }

  lemma {:induction false} UsesAreGood(number: nat -> string, fs: seq<Frame>)
    requires AllLegal(fs) && Numbers(number)
    ensures forall i, id :: UseIn(Answer(number, fs), i, id) ==> 0 < i && id != "" && Answer(number, fs)[i].name != ""
    ensures forall i, j, id :: UseIn(Answer(number, fs), i, id) && UseIn(Answer(number, fs), j, id) ==> i == j
  {
    forall i, id | UseIn(Answer(number, fs), i, id)
      ensures 0 < i && id != "" && Answer(number, fs)[i].name != ""
    {
      UseAtPosition(number, fs, i, id);
      CallsAreNamed(fs, i - 1);
    }
    forall i, j, id | UseIn(Answer(number, fs), i, id) && UseIn(Answer(number, fs), j, id)
      ensures i == j
    {
      UseAtPosition(number, fs, i, id);
      UseAtPosition(number, fs, j, id);
    }
  }

  lemma {:induction false} MessageThenUses(number: nat -> string, fs: seq<Frame>)
    ensures IsOnlyAssistant(Answer(number, fs), 0) && forall b :: b in Answer(number, fs) ==> !b.ToolResult?
  {
    UsesAreUses(number, Calls(fs));
    assert Builtin(Answer(number, fs));
  }

  /** A streamed answer is always well-formed, but its stop reason never says that the model waits for tools. So
      whenever it holds calls, closing the provider's step answers every one of them with an error and ends the run. */
  lemma {:induction false} StreamedCallsNeverRun(number: nat -> string, fs: seq<Frame>)
    requires AllLegal(fs) && Numbers(number)
    ensures WellFormedAnswer(Answer(number, fs), Stop(fs)) && Stop(fs) != "tool_use"
    ensures Calls(fs) != [] ==> ToolUses(Answer(number, fs)) != []
  {
    UsesAreGood(number, fs);
    MessageThenUses(number, fs);
    assert MessageFirst(Answer(number, fs), Stop(fs), 0);
    if Calls(fs) != [] {
      UseAtPosition(number, fs, 1, number(0));
      assert Answer(number, fs)[1] in Answer(number, fs);
    }
  }

  /** Appending a streamed answer keeps a sound log sound exactly when none of the numbers it gives its calls is used
      in the log. */
  lemma {:induction false} SoundIffNumbersUnused(number: nat -> string, log: seq<Event>, fs: seq<Frame>,
                                                 staged: seq<Body>)
    requires AllLegal(fs) && Numbers(number) && Sound(log) && Closes(Answer(number, fs), Stop(fs), staged)
    ensures Sound(Extend(log, staged)) <==> forall k :: 0 <= k < |Calls(fs)| ==> !HasUse(log, number(k))
  {
    var answer := Answer(number, fs);
    StreamedCallsNeverRun(number, fs);
    SoundIffFresh(log, answer, Stop(fs), staged);
    if FreshIDs(log, answer) {
      forall k | 0 <= k < |Calls(fs)|
        ensures !HasUse(log, number(k))
      {
        var i := k + 1;
        UseAtPosition(number, fs, i, number(k));
      }
    }
    forall i, id | UseIn(answer, i, id)
      ensures 0 <= i - 1 < |Calls(fs)| && id == number(i - 1)
    {
      UseAtPosition(number, fs, i, id);
    }
  }

  /** A streamed answer was appended to `log`, and whatever came next, results that close it first, led to `after`. */
  ghost predicate Appended(number: nat -> string, log: seq<Event>, fs: seq<Frame>, after: seq<Event>) {
    Extend(log, Answer(number, fs)) <= after
  }

  /** The first call of a streamed answer, once the answer is in the log. */
  lemma {:induction false} FirstCallInLog(number: nat -> string, log: seq<Event>, fs: seq<Frame>, after: seq<Event>)
    requires Calls(fs) != [] && Appended(number, log, fs, after)
    ensures UseAt(after, |log| + 1, number(0)) && log <= after
  {
    UseAtPosition(number, fs, 1, number(0));
    assert Extend(log, Answer(number, fs))[|log| + 1].body == Answer(number, fs)[1];
  }

  /** Ids restart with every stream: a second streamed answer with calls makes the log unsound for good, whatever
      happens in between and afterwards. */
  lemma {:induction false} SecondAnswerReusesID(number: nat -> string,
      log: seq<Event>, first: seq<Frame>, later: seq<Event>, second: seq<Frame>, after: seq<Event>)
    requires Calls(first) != [] && Appended(number, log, first, later)
    requires Calls(second) != [] && Appended(number, later, second, after)
    ensures !ReferencesSound(after)
  {
    FirstCallInLog(number, log, first, later);
    FirstCallInLog(number, later, second, after);
    assert UseAt(after, |log| + 1, number(0));
  }
}
