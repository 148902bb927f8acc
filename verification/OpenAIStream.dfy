/** The OpenAI stream parser: openAIStreamState in provider_stream.go. */
module OpenAIStreams {
  import opened Events
  import opened Protocol
  import opened Streams
  import opened Sequences

  datatype Call = Call(index: real, id: string, name: string, arguments: string)

  datatype Delta = Delta(content: string, calls: seq<Call>)

  /** A decoded frame. `Garbled` is text that is no JSON object. */
  datatype Frame = Garbled | ErrorFrame | Done | Chunk(report: Report, delta: Option<Delta>, finish: string)

  // ---------- What a history of calls says ----------

  ghost predicate Known(calls: seq<Call>, i: real) { exists c :: c in calls && c.index == i }

  /** The last non-empty id given for one call. */
  function IdOf(calls: seq<Call>, i: real): string {
    if calls == [] then ""
    else
      var c := calls[|calls| - 1];
      if c.index == i && c.id != "" then c.id else IdOf(calls[..|calls| - 1], i)
  }

  function NameOf(calls: seq<Call>, i: real): string {
    if calls == [] then ""
    else
      var c := calls[|calls| - 1];
      if c.index == i && c.name != "" then c.name else NameOf(calls[..|calls| - 1], i)
  }

  /** The non-empty argument pieces of one call, in order, whatever came in between. */
  function PiecesOf(calls: seq<Call>, i: real): seq<string> {
    if calls == [] then []
    else
      var c := calls[|calls| - 1];
      PiecesOf(calls[..|calls| - 1], i) + if c.index == i && c.arguments != "" then [c.arguments] else []
  }

  predicate Named(calls: seq<Call>, i: real) { IdOf(calls, i) != "" && NameOf(calls, i) != "" }

  lemma {:induction false} OneMoreCall(calls: seq<Call>, c: Call, i: real)
    ensures Known(calls + [c], i) <==> Known(calls, i) || c.index == i
    ensures IdOf(calls + [c], i) == if c.index == i && c.id != "" then c.id else IdOf(calls, i)
    ensures NameOf(calls + [c], i) == if c.index == i && c.name != "" then c.name else NameOf(calls, i)
    ensures PiecesOf(calls + [c], i) == PiecesOf(calls, i) + if c.index == i
            && c.arguments != "" then [c.arguments] else []
  {
    assert (calls + [c])[..|calls|] == calls;
    assert c in calls + [c] && forall d :: d in calls ==> d in calls + [c];
  }

  // ---------- What a history of frames says ----------

  function CallsIn(f: Frame): seq<Call> {
    if f.Chunk? && f.delta.Some? then f.delta.value.calls else []
  }

  function Calls(fs: seq<Frame>): seq<Call> {
    if fs == [] then [] else Calls(fs[..|fs| - 1]) + CallsIn(fs[|fs| - 1])
  }

  function TextIn(f: Frame): string {
    if f.Chunk? && f.delta.Some? then f.delta.value.content else ""
  }

  /** The non-empty pieces of text, in order. */
  function Texts(fs: seq<Frame>): seq<string> {
    if fs == [] then []
    else Texts(fs[..|fs| - 1]) + if TextIn(fs[|fs| - 1]) != "" then [TextIn(fs[|fs| - 1])] else []
  }

  predicate Finishes(f: Frame) { f.Chunk? && f.finish != "" }

  ghost predicate Finished(fs: seq<Frame>) { exists f :: f in fs && Finishes(f) }

  function StopOf(finish: string): (r: string)
    ensures r == "tool_use" <==> finish in {"tool_calls", "function_call"}
    ensures r == "end_turn" <==> finish == "stop"
    ensures r == "max_tokens" <==> finish == "length"
    ensures r == "refusal" <==> finish == "content_filter"
    ensures r in {"tool_use", "end_turn", "max_tokens", "refusal", "other"}
  {
    match finish
    case "stop" => "end_turn"
    case "length" => "max_tokens"
    case "tool_calls" => "tool_use"
    case "function_call" => "tool_use"
    case "content_filter" => "refusal"
    case _ => "other"
  }

  function Stop(fs: seq<Frame>): string {
    if fs == [] then "other"
    else if Finishes(fs[|fs| - 1]) then StopOf(fs[|fs| - 1].finish)
    else Stop(fs[..|fs| - 1])
  }

  function Counts(fs: seq<Frame>): Usage {
    if fs == [] then NO_USAGE
    else
      var f := fs[|fs| - 1];
      if f.Chunk? then Merge(Counts(fs[..|fs| - 1]), f.report) else Counts(fs[..|fs| - 1])
  }

  lemma {:induction false} OneMoreFrame(fs: seq<Frame>, f: Frame)
    ensures Calls(fs + [f]) == Calls(fs) + CallsIn(f)
    ensures Texts(fs + [f]) == Texts(fs) + if TextIn(f) != "" then [TextIn(f)] else []
    ensures Finished(fs + [f]) <==> Finished(fs) || Finishes(f)
    ensures Done in fs + [f] <==> Done in fs || f == Done
    ensures Stop(fs + [f]) == if Finishes(f) then StopOf(f.finish) else Stop(fs)
    ensures Counts(fs + [f]) == if f.Chunk? then Merge(Counts(fs), f.report) else Counts(fs)
  {
    assert (fs + [f])[..|fs|] == fs;
    assert f in fs + [f] && forall g :: g in fs ==> g in fs + [f];
  }

  // ---------- Which frame may come next ----------

  /** Argument pieces come only once their call has an id and a name. */
  ghost predicate CallsLegal(before: seq<Call>, calls: seq<Call>) { LegalUpTo(before, calls, |calls|) }

  ghost predicate LegalUpTo(before: seq<Call>, calls: seq<Call>, n: nat)
    requires n <= |calls|
  {
    forall k :: 0 <= k < n ==> CallLegal(before + calls[..k], calls[k])
  }

  predicate CallLegal(before: seq<Call>, c: Call) { c.arguments != "" ==> Named(before + [c], c.index) }

  /** Every call has an id, a name and readable arguments. */
  ghost predicate Complete(decode: Decoder, calls: seq<Call>) {
    forall i :: Known(calls, i) ==> Named(calls, i) && ParseArguments(decode, PiecesOf(calls, i)).Some?
  }

  ghost predicate Legal(decode: Decoder, fs: seq<Frame>, f: Frame) {
    match f
    case Done => Done !in fs
    case Chunk(_, _, _) =>
      Done !in fs && DeltaLegal(fs, f) && FinishLegal(decode, fs, f)
    case _ => false
  }

  ghost predicate DeltaLegal(fs: seq<Frame>, f: Frame)
    requires f.Chunk?
  {
    f.delta.Some? ==> !Finished(fs) && CallsLegal(Calls(fs), f.delta.value.calls)
  }

  ghost predicate FinishLegal(decode: Decoder, fs: seq<Frame>, f: Frame)
    requires f.Chunk?
  {
    f.finish != "" ==> !Finished(fs) && Complete(decode, Calls(fs) + CallsIn(f))
  }

  ghost predicate AllLegal(decode: Decoder, fs: seq<Frame>) {
    forall n :: 0 <= n < |fs| ==> Legal(decode, fs[..n], fs[n])
  }

  lemma {:induction false} OneMoreLegal(decode: Decoder, fs: seq<Frame>, f: Frame)
    ensures AllLegal(decode, fs + [f]) <==> AllLegal(decode, fs) && Legal(decode, fs, f)
  {
    var all := fs + [f];
    assert all[..|fs|] == fs && all[|fs|] == f;
    assert forall n :: 0 <= n < |fs| ==> all[..n] == fs[..n] && all[n] == fs[n];
  }

  // ---------- What the parser knows ----------

  datatype ToolState = ToolState(id: string, name: string, argChunks: seq<string>, arguments: Option<Arguments>,
                                 emittedBegin: bool)

  const NEW_TOOL := ToolState("", "", [], None, false)

  ghost predicate ToolFits(calls: seq<Call>, t: ToolState, i: real) {
    && t.id == IdOf(calls, i) && t.name == NameOf(calls, i) && t.argChunks == PiecesOf(calls, i)
    && (t.emittedBegin <==> Named(calls, i))
  }

  ghost predicate ToolsFit(calls: seq<Call>, tools: map<real, ToolState>) {
    && (forall i :: i in tools <==> Known(calls, i))
    && (forall i :: i in tools ==> ToolFits(calls, tools[i], i))
  }

  ghost predicate ArgumentsFit(decode: Decoder, finished: bool, tools: map<real, ToolState>) {
    forall i :: i in tools ==>
      && tools[i].arguments == (if finished then ParseArguments(decode, tools[i].argChunks) else None)
      && (finished ==> tools[i].arguments.Some?)
  }

  /** One call's effect on its tool. */
  function Told(t: ToolState, c: Call): ToolState {
    var id := if c.id != "" then c.id else t.id;
    var name := if c.name != "" then c.name else t.name;
    ToolState(id, name, if c.arguments != "" then t.argChunks + [c.arguments] else t.argChunks, t.arguments,
              t.emittedBegin || (id != "" && name != ""))
  }

  /** What is shown when a call begins. */
  function Begins(t: ToolState, told: ToolState): seq<Signal> {
    if told.emittedBegin && !t.emittedBegin then [ToolBegin(told.id, told.name)] else []
  }

  /** What is shown of a piece of arguments. */
  function Continues(told: ToolState, c: Call): seq<Signal> {
    if c.arguments != "" then [ArgumentDelta(told.id, c.arguments)] else []
  }

  lemma {:induction false} ToldFitsAt(calls: seq<Call>, t: ToolState, c: Call)
    requires ToolFits(calls, t, c.index)
    ensures ToolFits(calls + [c], Told(t, c), c.index)
  {
    OneMoreCall(calls, c, c.index);
  }

  lemma {:induction false} OthersFit(calls: seq<Call>, t: ToolState, c: Call, i: real)
    requires ToolFits(calls, t, i) && i != c.index
    ensures ToolFits(calls + [c], t, i)
  {
    OneMoreCall(calls, c, i);
  }

  lemma {:induction false} ToldFits(calls: seq<Call>, tools: map<real, ToolState>, c: Call, t: ToolState)
    requires ToolsFit(calls, tools)
    requires t == if c.index in tools then tools[c.index] else NEW_TOOL
    ensures ToolsFit(calls + [c], tools[c.index := Told(t, c)])
    ensures ToolFits(calls + [c], Told(t, c), c.index)
  {
    if c.index !in tools {
      NothingYet(calls, c.index);
    }
    ToldFitsAt(calls, t, c);
    var told := tools[c.index := Told(t, c)];
    forall i
      ensures i in told <==> Known(calls + [c], i)
      ensures i in told ==> ToolFits(calls + [c], told[i], i)
    {
      OneMoreCall(calls, c, i);
      if i in tools && i != c.index {
        OthersFit(calls, tools[i], c, i);
      }
    }
  }

  lemma {:induction false} NothingYet(calls: seq<Call>, i: real)
    requires !Known(calls, i)
    ensures ToolFits(calls, NEW_TOOL, i)
  {
    if calls != [] {
      assert calls == calls[..|calls| - 1] + [calls[|calls| - 1]];
      NothingYet(calls[..|calls| - 1], i);
    }
  }

  /** The parser's fields as a value. */
  datatype Parser = Parser(
    textParts: seq<string>, stop: string, usage: Usage, tools: map<real, ToolState>, finishSeen: bool, doneSeen: bool)

  ghost predicate Described(fs: seq<Frame>, p: Parser) {
    && (p.finishSeen <==> Finished(fs)) && (p.doneSeen <==> Done in fs)
    && p.textParts == Texts(fs) && p.stop == Stop(fs) && p.usage == Counts(fs)
  }

  /** The state is a function of the frames, and these were all legal. */
  ghost predicate Fits(decode: Decoder, fs: seq<Frame>, p: Parser) {
    && AllLegal(decode, fs) && Described(fs, p)
    && ToolsFit(Calls(fs), p.tools) && ArgumentsFit(decode, p.finishSeen, p.tools)
  }

  lemma {:induction false} DoneFits(decode: Decoder, fs: seq<Frame>, p: Parser)
    requires Fits(decode, fs, p) && !p.doneSeen
    ensures Fits(decode, fs + [Done], p.(doneSeen := true))
  {
    OneMoreFrame(fs, Done);
    OneMoreLegal(decode, fs, Done);
    assert Calls(fs) + [] == Calls(fs);
    assert Texts(fs) + [] == Texts(fs);
  }

  /** What a chunk that is accepted does to the fields. */
  ghost predicate Handled(decode: Decoder, fs: seq<Frame>, p: Parser, f: Frame, q: Parser)
    requires f.Chunk?
  {
    && q.textParts == p.textParts + (if TextIn(f) != "" then [TextIn(f)] else [])
    && q.stop == (if f.finish != "" then StopOf(f.finish) else p.stop) && q.usage == Merge(p.usage, f.report)
    && q.finishSeen == (p.finishSeen || f.finish != "") && q.doneSeen == p.doneSeen
    && ToolsFit(Calls(fs) + CallsIn(f), q.tools) && ArgumentsFit(decode, q.finishSeen, q.tools)
  }

  lemma {:induction false} ChunkFits(decode: Decoder, fs: seq<Frame>, p: Parser, f: Frame, q: Parser)
    requires Fits(decode, fs, p) && f.Chunk? && Legal(decode, fs, f) && Handled(decode, fs, p, f, q)
    ensures Fits(decode, fs + [f], q)
  {
    OneMoreFrame(fs, f);
    OneMoreLegal(decode, fs, f);
  }

  predicate Ends(decode: Decoder, t: ToolState) {
    t.emittedBegin && ParseArguments(decode, t.argChunks).Some?
  }

  function Ended(decode: Decoder, t: ToolState): ToolState {
    t.(arguments := ParseArguments(decode, t.argChunks))
  }

  /** All calls but those in `todo` have ended. */
  ghost predicate EndedBut(decode: Decoder, tools: map<real, ToolState>, todo: set<real>) {
    forall i :: i in tools && i !in todo ==> Ends(decode, tools[i]) && tools[i] == Ended(decode, tools[i])
  }

  /** One call ends exactly if it is named and its pieces spell arguments. */
  lemma {:induction false} EndsIff(decode: Decoder, calls: seq<Call>, tools: map<real, ToolState>, i: real)
    requires ToolsFit(calls, tools) && i in tools
    ensures Known(calls, i)
    ensures Ends(decode, tools[i]) <==> Named(calls, i) && ParseArguments(decode, PiecesOf(calls, i)).Some?
  {
    assert ToolFits(calls, tools[i], i);
  }

  lemma {:induction false} EndedOneMore(decode: Decoder, calls: seq<Call>, tools: map<real, ToolState>,
                                        todo: set<real>, i: real)
    requires ToolsFit(calls, tools) && EndedBut(decode, tools, todo) && i in tools && Ends(decode, tools[i])
    ensures ToolsFit(calls, tools[i := Ended(decode, tools[i])])
    ensures EndedBut(decode, tools[i := Ended(decode, tools[i])], todo - {i})
  {
    assert ToolFits(calls, tools[i], i);
  }

  lemma {:induction false} AllEnded(decode: Decoder, calls: seq<Call>, tools: map<real, ToolState>, todo: set<real>)
    requires ToolsFit(calls, tools) && EndedBut(decode, tools, todo) && forall i :: i !in todo
    ensures Complete(decode, calls) && ArgumentsFit(decode, true, tools)
  {
    forall i | Known(calls, i)
      ensures Named(calls, i) && ParseArguments(decode, PiecesOf(calls, i)).Some?
    {
      EndsIff(decode, calls, tools, i);
    }
  }

  // ---------- The parser ----------

  class OpenAIStream {
    const read: string -> Frame
    const decode: Decoder
    var emitted: seq<Signal>
    var textParts: seq<string>
    var stop: string
    var usage: Usage
    var tools: map<real, ToolState>
    var finishSeen: bool
    var doneSeen: bool
    /** The frames accepted so far. */
    ghost var frames: seq<Frame>

    ghost function AsParser(): Parser
      reads this
    {
      Parser(textParts, stop, usage, tools, finishSeen, doneSeen)
    }

    ghost predicate Valid()
      reads this
    {
      Fits(decode, frames, AsParser()) && InStep(emitted, textParts)
    }

    constructor (read: string -> Frame, decode: Decoder)
      ensures this.read == read && this.decode == decode
      ensures frames == [] && emitted == [] && Valid()
    {
      this.read, this.decode := read, decode;
      emitted, textParts, stop, usage, tools := [], [], "other", NO_USAGE, map[];
      finishSeen, doneSeen := false, false;
      frames := [];
    }

    method Start()
      modifies this`emitted
      ensures emitted == old(emitted) + [TurnStarted]
      ensures old(Valid()) ==> Valid()
    {
      SaidMore(emitted, TurnStarted);
      emitted := emitted + [TurnStarted];
    }

    method Fail()
      modifies this`emitted
      ensures emitted == old(emitted) + [TurnFailed]
    {
      emitted := emitted + [TurnFailed];
    }

    /** A frame is accepted exactly if the protocol allows it, and gives rise to observations only. */
    method Data(data: string) returns (ok: bool)
      requires Valid()
      modifies this
      ensures OnlyDeltas(old(emitted), emitted)
      ensures ok <==> Legal(decode, old(frames), read(data))
      ensures ok ==> Valid() && frames == old(frames) + [read(data)]
    {
      var f := read(data);
      if f == Done {
        ok := TakeDone();
      } else if doneSeen || f.Garbled? || f.ErrorFrame? {
        return false;
      } else {
        ghost var p := AsParser();
        ok := TakeChunk(f, frames);
        if ok {
          ChunkFits(decode, frames, p, f, AsParser());
          frames := frames + [f];
        }
      }
    }

    method TakeDone() returns (ok: bool)
      requires Valid()
      modifies this
      ensures emitted == old(emitted)
      ensures ok <==> Legal(decode, old(frames), Done)
      ensures ok ==> Valid() && frames == old(frames) + [Done]
    {
      if doneSeen {
        return false;
      }
      DoneFits(decode, frames, AsParser());
      doneSeen := true;
      frames := frames + [Done];
      return true;
    }

    method TakeChunk(f: Frame, ghost fs: seq<Frame>) returns (ok: bool)
      requires f.Chunk? && (finishSeen <==> Finished(fs))
      requires ToolsFit(Calls(fs), tools) && ArgumentsFit(decode, finishSeen, tools)
      modifies this`emitted, this`textParts, this`tools, this`finishSeen, this`stop, this`usage
      ensures OnlyDeltas(old(emitted), emitted)
      ensures ok <==> DeltaLegal(fs, f) && FinishLegal(decode, fs, f)
      ensures ok ==> Handled(decode, fs, old(AsParser()), f, AsParser())
      ensures ok && old(InStep(emitted, textParts)) ==> InStep(emitted, textParts)
    {
      usage := Merge(usage, f.report);
      ok := HandleDelta(f, fs);
      if ok && f.finish != "" {
        ok := HandleFinish(f, fs);
      }
    }

    method HandleDelta(f: Frame, ghost fs: seq<Frame>) returns (ok: bool)
      requires f.Chunk? && (finishSeen <==> Finished(fs))
      requires ToolsFit(Calls(fs), tools) && ArgumentsFit(decode, finishSeen, tools)
      modifies this`emitted, this`textParts, this`tools
      ensures OnlyDeltas(old(emitted), emitted)
      ensures ok <==> DeltaLegal(fs, f)
      ensures ok ==> textParts == old(textParts) + if TextIn(f) != "" then [TextIn(f)] else []
      ensures ok ==> ToolsFit(Calls(fs) + CallsIn(f), tools) && ArgumentsFit(decode, finishSeen, tools)
      ensures ok && old(InStep(emitted, textParts)) ==> InStep(emitted, textParts)
    {
      if f.delta == None {
        assert Calls(fs) + [] == Calls(fs);
        return true;
      }
      if finishSeen {
        return false;
      }
      StillInStep(emitted, textParts, f.delta.value.content);
      textParts, emitted := MoreText(textParts, f.delta.value.content), emitted + Shown(f.delta.value.content);
      ok := HandleCalls(f.delta.value.calls, Calls(fs));
    }

    method HandleCalls(calls: seq<Call>, ghost before: seq<Call>) returns (ok: bool)
      requires !finishSeen && ToolsFit(before, tools) && ArgumentsFit(decode, false, tools)
      modifies this`emitted, this`tools
      ensures OnlyDeltas(old(emitted), emitted)
      ensures Said(emitted) == Said(old(emitted))
      ensures ok <==> CallsLegal(before, calls)
      ensures ok ==> ToolsFit(before + calls, tools) && ArgumentsFit(decode, false, tools)
    {
      assert before + calls[..0] == before;
      for k := 0 to |calls|
        invariant OnlyDeltas(old(emitted), emitted) && Said(emitted) == Said(old(emitted))
        invariant ToolsFit(before + calls[..k], tools) && ArgumentsFit(decode, false, tools)
        invariant LegalUpTo(before, calls, k)
      {
        var legal := HandleCall(calls[k], before + calls[..k]);
        if !legal {
          return false;
        }
        assert before + calls[..k + 1] == before + calls[..k] + [calls[k]];
      }
      assert before + calls[..|calls|] == before + calls;
      return true;
    }

    method HandleCall(c: Call, ghost before: seq<Call>) returns (ok: bool)
      requires ToolsFit(before, tools) && ArgumentsFit(decode, false, tools)
      modifies this`emitted, this`tools
      ensures OnlyDeltas(old(emitted), emitted)
      ensures Said(emitted) == Said(old(emitted))
      ensures ok <==> CallLegal(before, c)
      ensures ok ==> ToolsFit(before + [c], tools) && ArgumentsFit(decode, false, tools)
    {
      var tool := if c.index in tools then tools[c.index] else NEW_TOOL;
      ToldFits(before, tools, c, tool);
      var told;
      ok, told := Tell(tool, c);
      if ok {
        tools := tools[c.index := told];
      }
    }

    method Tell(t: ToolState, c: Call) returns (ok: bool, tool: ToolState)
      modifies this`emitted
      ensures OnlyDeltas(old(emitted), emitted)
      ensures Said(emitted) == Said(old(emitted))
      ensures ok <==> (c.arguments != "" ==> Told(t, c).emittedBegin)
      ensures ok ==> tool == Told(t, c)
      ensures ok ==> emitted == old(emitted) + Begins(t, tool) + Continues(tool, c)
    {
      tool := Name(t, c);
      if c.arguments != "" {
        if !tool.emittedBegin {
          return false, tool;
        }
        tool := tool.(argChunks := tool.argChunks + [c.arguments]);
        SaidMore(emitted, ArgumentDelta(tool.id, c.arguments));
        emitted := emitted + [ArgumentDelta(tool.id, c.arguments)];
      }
      return true, tool;
    }

    /** A call begins once it has an id and a name. */
    method Name(t: ToolState, c: Call) returns (tool: ToolState)
      modifies this`emitted
      ensures OnlyDeltas(old(emitted), emitted)
      ensures Said(emitted) == Said(old(emitted))
      ensures tool == Told(t, c).(argChunks := t.argChunks)
      ensures emitted == old(emitted) + Begins(t, tool)
    {
      tool := t;
      if c.id != "" {
        tool := tool.(id := c.id);
      }
      if c.name != "" {
        tool := tool.(name := c.name);
      }
      if tool.id != "" && tool.name != "" && !tool.emittedBegin {
        tool := tool.(emittedBegin := true);
        SaidMore(emitted, ToolBegin(tool.id, tool.name));
        emitted := emitted + [ToolBegin(tool.id, tool.name)];
      }
    }

    method HandleFinish(f: Frame, ghost fs: seq<Frame>) returns (ok: bool)
      requires Finishes(f) && (finishSeen <==> Finished(fs))
      requires ToolsFit(Calls(fs) + CallsIn(f), tools) && ArgumentsFit(decode, finishSeen, tools)
      modifies this`emitted, this`tools, this`finishSeen, this`stop
      ensures OnlyDeltas(old(emitted), emitted)
      ensures Said(emitted) == Said(old(emitted))
      ensures ok <==> !Finished(fs) && Complete(decode, Calls(fs) + CallsIn(f))
      ensures ok ==> finishSeen && stop == StopOf(f.finish)
      ensures ok ==> ToolsFit(Calls(fs) + CallsIn(f), tools) && ArgumentsFit(decode, true, tools)
    {
      if finishSeen {
        return false;
      }
      finishSeen, stop := true, StopOf(f.finish);
      ok := EndTools(Calls(fs) + CallsIn(f));
    }

    /** Ends every call, in any order. */
    method EndTools(ghost calls: seq<Call>) returns (ok: bool)
      requires ToolsFit(calls, tools) && ArgumentsFit(decode, false, tools)
      modifies this`emitted, this`tools
      ensures OnlyDeltas(old(emitted), emitted)
      ensures Said(emitted) == Said(old(emitted))
      ensures ok <==> Complete(decode, calls)
      ensures ok ==> ToolsFit(calls, tools) && ArgumentsFit(decode, true, tools)
    {
      var todo := tools.Keys;
      while exists i :: i in todo
        invariant OnlyDeltas(old(emitted), emitted) && Said(emitted) == Said(old(emitted))
        invariant todo <= tools.Keys && ToolsFit(calls, tools) && EndedBut(decode, tools, todo)
        decreases todo
      {
        var i :| i in todo;
        EndsIff(decode, calls, tools, i);
        ghost var before := tools;
        ok := EndTool(i);
        if !ok {
          return;
        }
        EndedOneMore(decode, calls, before, todo, i);
        todo := todo - {i};
      }
      AllEnded(decode, calls, tools, todo);
      return true;
    }

    /** Ends one call, if it began and its arguments can be read. */
    method EndTool(i: real) returns (ok: bool)
      requires i in tools
      modifies this`emitted, this`tools
      ensures OnlyDeltas(old(emitted), emitted)
      ensures Said(emitted) == Said(old(emitted))
      ensures ok <==> Ends(decode, old(tools)[i])
      ensures ok ==> i in tools && tools[i].arguments.Some?
                     && emitted == old(emitted) + [ToolEnd(tools[i].id, tools[i].arguments.value)]
      ensures tools == if ok then old(tools)[i := Ended(decode, old(tools)[i])] else old(tools)
    {
      var tool := tools[i];
      if !tool.emittedBegin {
        return false;
      }
      var arguments := ParseArguments(decode, tool.argChunks);
      if arguments == None {
        return false;
      }
      tools := tools[i := tool.(arguments := arguments)];
      SaidMore(emitted, ToolEnd(tool.id, arguments.value));
      emitted := emitted + [ToolEnd(tool.id, arguments.value)];
      return true;
    }

    /** Ends the stream: if its terminal frames came, the answer is emitted, the assistant message first. */
    method Finish() returns (ok: bool, ghost answer: seq<Body>)
      requires Valid()
      modifies this`emitted
      ensures !ok ==> emitted == old(emitted)
      ensures ok ==> Builtin(answer) && old(emitted) <= emitted && DurableTail(emitted[|old(emitted)|..], answer)
      ensures ok <==> Done in frames && Finished(frames)
      ensures ok ==> IsAnswer(decode, frames, answer) && SaysWhatWasShown(emitted, answer)
    {
      if !doneSeen || !finishSeen {
        return false, [];
      }
      var tail;
      ghost var keys;
      tail, answer, keys := BuildAnswer();
      AnswerIsRight(decode, frames, AsParser(), keys, answer);
      TailOf(emitted, tail);
      ShownInFull(emitted, tail, answer);
      emitted := emitted + tail;
      ok := true;
    }

    /** The answer that the fields amount to, calls in the order of their numbers. */
    method BuildAnswer() returns (tail: seq<Signal>, ghost answer: seq<Body>, ghost keys: seq<real>)
      ensures Builtin(answer) && DurableTail(tail, answer)
      ensures Lists(keys, tools.Keys) && AnswersWith(Message(AsParser()), tools, UseOf, keys, answer)
    {
      var sorted := SortKeys(tools.Keys);
      var uses := UsesOf(tools, UseOf, sorted);
      tail, answer := Announce(Join(textParts), stop, usage, uses);
      keys := sorted;
      SaysWhat(Message(AsParser()), tools, UseOf, keys, uses, answer);
    }
  }

  function Message(p: Parser): Body { AssistantMessage(Join(p.textParts), p.stop, p.usage) }

  function UseOf(t: ToolState): (b: Body)
    ensures b.ToolUse?
  {
    FinishedUse(t.id, t.name, t.arguments)
  }

  // ---------- The language of complete streams ----------

  /** The sentinel ends the stream, at `d`, and `e` is the one frame that gives a finish reason. All other frames are
      chunks; content and calls come up to `e`, argument pieces after id and name; and at `e` every call is complete. */
  ghost predicate Ending(decode: Decoder, fs: seq<Frame>, e: int, d: int) {
    && 0 <= e < d && d == |fs| - 1 && fs[d] == Done && (forall k :: 0 <= k < d ==> fs[k].Chunk?)
    && (forall k :: 0 <= k < d ==> (Finishes(fs[k]) <==> k == e))
    && (forall k :: e < k < d ==> fs[k].delta == None)
    && (forall k :: 0 <= k <= e ==> CallsLegal(Calls(fs[..k]), CallsIn(fs[k])))
    && Complete(decode, Calls(fs[..e + 1]))
  }

  ghost predicate Grammar(decode: Decoder, fs: seq<Frame>) {
    exists e, d :: Ending(decode, fs, e, d)
  }

  lemma {:induction false} FinishedBefore(fs: seq<Frame>, n: nat)
    requires n <= |fs|
    ensures Finished(fs[..n]) <==> exists k :: 0 <= k < n && Finishes(fs[k])
    ensures Done in fs[..n] <==> exists k :: 0 <= k < n && fs[k] == Done
  {
    if k :| 0 <= k < n && Finishes(fs[k]) {
      assert fs[..n][k] == fs[k] && fs[k] in fs[..n];
    }
    if k :| 0 <= k < n && fs[k] == Done {
      assert fs[..n][k] == fs[k];
    }
  }

  /** What the legality of frame `n` says about the frames before it. */
  ghost predicate LegalHere(decode: Decoder, fs: seq<Frame>, n: int) {
    && 0 <= n < |fs| && (fs[n] == Done || fs[n].Chunk?)
    && (forall k :: 0 <= k < n ==> fs[k] != Done)
    && (Finishes(fs[n]) || (fs[n].Chunk? && fs[n].delta.Some?) ==> forall k :: 0 <= k < n ==> !Finishes(fs[k]))
    && CallsLegal(Calls(fs[..n]), CallsIn(fs[n]))
    && (Finishes(fs[n]) ==> Complete(decode, Calls(fs[..n + 1])))
  }

  lemma {:induction false} LegalIff(decode: Decoder, fs: seq<Frame>, n: nat)
    requires n < |fs|
    ensures Legal(decode, fs[..n], fs[n]) <==> LegalHere(decode, fs, n)
  {
    FinishedBefore(fs, n);
    assert fs[..n + 1] == fs[..n] + [fs[n]];
    LaterCalls(fs[..n], fs[n]);
  }

  lemma {:induction false} DoneIsLast(decode: Decoder, fs: seq<Frame>, d: int)
    requires 0 <= d < |fs| && fs[d] == Done && forall n :: 0 <= n < |fs| ==> LegalHere(decode, fs, n)
    ensures d == |fs| - 1 && forall k :: 0 <= k < d ==> fs[k].Chunk?
  {
    var here, after := LegalHere(decode, fs, d), LegalHere(decode, fs, d + 1);
    forall k | 0 <= k < d
      ensures fs[k].Chunk?
    {
      assert LegalHere(decode, fs, k);
    }
  }

  lemma {:induction false} FinishIsOne(decode: Decoder, fs: seq<Frame>, e: int, k: int)
    requires 0 <= e < |fs| && Finishes(fs[e]) && 0 <= k < |fs|
    requires forall n :: 0 <= n < |fs| ==> LegalHere(decode, fs, n)
    ensures Finishes(fs[k]) ==> k == e
    ensures e < k && fs[k].Chunk? ==> fs[k].delta == None
    ensures CallsLegal(Calls(fs[..k]), CallsIn(fs[k]))
  {
    assert LegalHere(decode, fs, k) && LegalHere(decode, fs, e);
  }

  lemma {:induction false} LegalIsEnding(decode: Decoder, fs: seq<Frame>, e: int, d: int)
    requires 0 <= d < |fs| && fs[d] == Done && 0 <= e < |fs| && Finishes(fs[e])
    requires forall n :: 0 <= n < |fs| ==> LegalHere(decode, fs, n)
    ensures Ending(decode, fs, e, d)
  {
    DoneIsLast(decode, fs, d);
    assert LegalHere(decode, fs, e);
    forall k | 0 <= k < d
      ensures Finishes(fs[k]) ==> k == e
      ensures e < k ==> fs[k].delta == None
      ensures CallsLegal(Calls(fs[..k]), CallsIn(fs[k]))
    {
      FinishIsOne(decode, fs, e, k);
    }
  }

  lemma {:induction false} LegalInEnding(decode: Decoder, fs: seq<Frame>, e: int, d: int, n: nat)
    requires Ending(decode, fs, e, d) && n < |fs|
    ensures LegalHere(decode, fs, n)
  {
    if e < n {
      assert CallsIn(fs[n]) == [];
      NoCallsLegal(Calls(fs[..n]));
    }
  }

  lemma {:induction false} NoCallsLegal(calls: seq<Call>)
    ensures CallsLegal(calls, [])
  {}

  /** What the parser accepts as complete is exactly this language. */
  lemma {:induction false} AcceptedIffGrammatical(decode: Decoder, fs: seq<Frame>)
    ensures AllLegal(decode, fs) && Done in fs && Finished(fs) <==> Grammar(decode, fs)
  {
    forall n | 0 <= n < |fs|
      ensures Legal(decode, fs[..n], fs[n]) <==> LegalHere(decode, fs, n)
    {
      LegalIff(decode, fs, n);
    }
    if AllLegal(decode, fs) && Done in fs && Finished(fs) {
      var d :| 0 <= d < |fs| && fs[d] == Done;
      var f :| f in fs && Finishes(f);
      var e :| 0 <= e < |fs| && fs[e] == f;
      LegalIsEnding(decode, fs, e, d);
    }
    if e, d :| Ending(decode, fs, e, d) {
      assert fs[e] in fs && fs[d] in fs;
      forall n | 0 <= n < |fs|
        ensures LegalHere(decode, fs, n)
      {
        LegalInEnding(decode, fs, e, d, n);
      }
    }
  }

  // ---------- What a finished stream amounts to ----------

  /** What each frame contributes to the text of the answer. */
  function TextPieces(fs: seq<Frame>): seq<string> {
    seq(|fs|, k requires 0 <= k < |fs| => if fs[k].Chunk? && fs[k].delta.Some? then fs[k].delta.value.content else "")
  }

  /** The call pieces each frame brings. */
  function CallPieces(fs: seq<Frame>): seq<seq<Call>> {
    seq(|fs|, k requires 0 <= k < |fs| => if fs[k].Chunk? && fs[k].delta.Some? then fs[k].delta.value.calls else [])
  }

  /** What each call piece contributes to the arguments of call `i`. */
  function ArgumentPieces(calls: seq<Call>, i: real): seq<string> {
    seq(|calls|, k requires 0 <= k < |calls| => if calls[k].index == i then calls[k].arguments else "")
  }

  function IDsGiven(calls: seq<Call>, i: real): seq<Option<string>> {
    seq(|calls|, k requires 0 <= k < |calls| =>
      if calls[k].index == i && calls[k].id != "" then Some(calls[k].id) else None)
  }

  function NamesGiven(calls: seq<Call>, i: real): seq<Option<string>> {
    seq(|calls|, k requires 0 <= k < |calls| =>
      if calls[k].index == i && calls[k].name != "" then Some(calls[k].name) else None)
  }

  function StopsGiven(fs: seq<Frame>): seq<Option<string>> {
    seq(|fs|, k requires 0 <= k < |fs| => if Finishes(fs[k]) then Some(StopOf(fs[k].finish)) else None)
  }

  function Reports(fs: seq<Frame>): seq<Report> {
    seq(|fs|, k requires 0 <= k < |fs| => if fs[k].Chunk? then fs[k].report else Report(None, None))
  }

  /** The frames' text in order; the stop reason and the counts that were given last. */
  ghost predicate IsMessage(fs: seq<Frame>, b: Body) {
    && b.AssistantMessage? && Spells(b.text, TextPieces(fs))
    && LastGiven(StopsGiven(fs), b.stopReason, "other") && UsageIs(Reports(fs), b.usage)
  }

  /** The answer of a finished stream: its message; then one use per call, in the order of their numbers, with the id
      and the name given last and the arguments its own pieces spell. */
  ghost predicate IsAnswer(decode: Decoder, fs: seq<Frame>, answer: seq<Body>) {
    exists calls, keys :: Spells(calls, CallPieces(fs)) && UsesAre(decode, fs, calls, keys, answer)
  }

  ghost predicate UsesAre(decode: Decoder, fs: seq<Frame>, calls: seq<Call>, keys: seq<real>, answer: seq<Body>) {
    && |answer| == |keys| + 1 && IsMessage(fs, answer[0])
    && Ascending(keys) && (forall i :: i in keys <==> Known(calls, i))
    && forall k :: 0 <= k < |keys| ==> IsUse(decode, calls, keys[k], answer[k + 1])
  }

  ghost predicate IsUse(decode: Decoder, calls: seq<Call>, i: real, b: Body) {
    && b.ToolUse? && LastGiven(IDsGiven(calls, i), b.id, "") && LastGiven(NamesGiven(calls, i), b.name, "")
    && Reads(decode, ArgumentPieces(calls, i), b.arguments)
  }

  lemma {:induction false} TextSpelled(fs: seq<Frame>)
    ensures Spells(Join(Texts(fs)), TextPieces(fs))
  {
    if fs == [] {
      SpellsNothing<char>();
      assert TextPieces(fs) == [];
    } else {
      var most, f := fs[..|fs| - 1], fs[|fs| - 1];
      TextSpelled(most);
      OneMoreText(most, f, Texts(most), TextPieces(most));
      assert fs == most + [f];
    }
  }

  lemma {:induction false} OneMoreText(most: seq<Frame>, f: Frame, parts: seq<string>, pieces: seq<string>)
    requires parts == Texts(most) && pieces == TextPieces(most) && Spells(Join(parts), pieces)
    ensures Spells(Join(Texts(most + [f])), TextPieces(most + [f]))
  {
    var piece := TextIn(f);
    var more := if piece != "" then [piece] else [];
    SpellsJoined(parts, pieces, more, piece);
    LaterTexts(most, f);
    OneMorePiece(most, f);
  }

  lemma {:induction false} LaterTexts(most: seq<Frame>, f: Frame)
    ensures Texts(most + [f]) == Texts(most) + if TextIn(f) != "" then [TextIn(f)] else []
  {
    assert (most + [f])[..|most|] == most;
  }

  lemma {:induction false} OneMorePiece(most: seq<Frame>, f: Frame)
    ensures TextPieces(most + [f]) == TextPieces(most) + [TextIn(f)]
  {}

  lemma {:induction false} CallsSpelled(fs: seq<Frame>)
    ensures Spells(Calls(fs), CallPieces(fs))
  {
    if fs == [] {
      SpellsNothing<Call>();
      assert CallPieces(fs) == [];
    } else {
      var most, f := fs[..|fs| - 1], fs[|fs| - 1];
      CallsSpelled(most);
      OneMoreCalls(most, f, Calls(most), CallPieces(most));
      assert fs == most + [f];
    }
  }

  lemma {:induction false} OneMoreCalls(most: seq<Frame>, f: Frame, calls: seq<Call>, pieces: seq<seq<Call>>)
    requires calls == Calls(most) && pieces == CallPieces(most) && Spells(calls, pieces)
    ensures Spells(Calls(most + [f]), CallPieces(most + [f]))
  {
    SpellsMore(calls, pieces, CallsIn(f));
    LaterCalls(most, f);
    OneMoreCallPiece(most, f);
  }

  lemma {:induction false} LaterCalls(most: seq<Frame>, f: Frame)
    ensures Calls(most + [f]) == Calls(most) + CallsIn(f)
  {
    assert (most + [f])[..|most|] == most;
  }

  lemma {:induction false} OneMoreCallPiece(most: seq<Frame>, f: Frame)
    ensures CallPieces(most + [f]) == CallPieces(most) + [CallsIn(f)]
  {}

  lemma {:induction false} LastStopAndCounts(fs: seq<Frame>)
    ensures LastGiven(StopsGiven(fs), Stop(fs), "other") && UsageIs(Reports(fs), Counts(fs))
  {
    if fs != [] {
      var most, f := fs[..|fs| - 1], fs[|fs| - 1];
      LastStopAndCounts(most);
      OneMoreStop(most, f, StopsGiven(most), Stop(most));
      OneMoreCount(most, f, Reports(most), Counts(most));
      assert fs == most + [f];
    }
  }

  lemma {:induction false} OneMoreStop(most: seq<Frame>, f: Frame, stops: seq<Option<string>>, stop: string)
    requires stops == StopsGiven(most) && stop == Stop(most) && LastGiven(stops, stop, "other")
    ensures LastGiven(StopsGiven(most + [f]), Stop(most + [f]), "other")
  {
    var next := if Finishes(f) then Some(StopOf(f.finish)) else None;
    LastGivenMore(stops, stop, "other", next);
    LaterStop(most, f);
    OneMoreStopGiven(most, f);
  }

  lemma {:induction false} LaterStop(most: seq<Frame>, f: Frame)
    ensures Stop(most + [f]) == if Finishes(f) then StopOf(f.finish) else Stop(most)
  {
    assert (most + [f])[..|most|] == most;
  }

  lemma {:induction false} OneMoreStopGiven(most: seq<Frame>, f: Frame)
    ensures StopsGiven(most + [f]) == StopsGiven(most) + [if Finishes(f) then Some(StopOf(f.finish)) else None]
  {}

  lemma {:induction false} OneMoreCount(most: seq<Frame>, f: Frame, reports: seq<Report>, u: Usage)
    requires reports == Reports(most) && u == Counts(most) && UsageIs(reports, u)
    ensures UsageIs(Reports(most + [f]), Counts(most + [f]))
  {
    var report := if f.Chunk? then f.report else Report(None, None);
    OneMoreReport(reports, u, report);
    LaterCounts(most, f);
    NoReport(u);
    OneMoreReported(most, f);
  }

  lemma {:induction false} LaterCounts(most: seq<Frame>, f: Frame)
    ensures Counts(most + [f]) == if f.Chunk? then Merge(Counts(most), f.report) else Counts(most)
  {
    assert (most + [f])[..|most|] == most;
  }

  lemma {:induction false} OneMoreReported(most: seq<Frame>, f: Frame)
    ensures Reports(most + [f]) == Reports(most) + [if f.Chunk? then f.report else Report(None, None)]
  {}

  lemma {:induction false} ArgumentsSpelled(calls: seq<Call>, i: real)
    ensures Spells(Join(PiecesOf(calls, i)), ArgumentPieces(calls, i))
  {
    if calls == [] {
      SpellsNothing<char>();
      assert ArgumentPieces(calls, i) == [];
    } else {
      var most, c := calls[..|calls| - 1], calls[|calls| - 1];
      ArgumentsSpelled(most, i);
      OneMoreArgument(most, c, i, PiecesOf(most, i), ArgumentPieces(most, i));
      assert calls == most + [c];
    }
  }

  lemma {:induction false} LastNaming(calls: seq<Call>, i: real)
    ensures LastGiven(IDsGiven(calls, i), IdOf(calls, i), "") && LastGiven(NamesGiven(calls, i), NameOf(calls, i), "")
  {
    if calls != [] {
      var most, c := calls[..|calls| - 1], calls[|calls| - 1];
      LastNaming(most, i);
      OneMoreID(most, c, i, IDsGiven(most, i), IdOf(most, i));
      OneMoreName(most, c, i, NamesGiven(most, i), NameOf(most, i));
      assert calls == most + [c];
    }
  }

  lemma {:induction false} OneMoreID(most: seq<Call>, c: Call, i: real, given: seq<Option<string>>, id: string)
    requires given == IDsGiven(most, i) && id == IdOf(most, i) && LastGiven(given, id, "")
    ensures LastGiven(IDsGiven(most + [c], i), IdOf(most + [c], i), "")
  {
    var next := if c.index == i && c.id != "" then Some(c.id) else None;
    LastGivenMore(given, id, "", next);
    LaterID(most, c, i);
    OneMoreIDGiven(most, c, i);
  }

  lemma {:induction false} LaterID(most: seq<Call>, c: Call, i: real)
    ensures IdOf(most + [c], i) == if c.index == i && c.id != "" then c.id else IdOf(most, i)
  {
    assert (most + [c])[..|most|] == most;
  }

  lemma {:induction false} OneMoreIDGiven(most: seq<Call>, c: Call, i: real)
    ensures IDsGiven(most + [c], i)
         == IDsGiven(most, i) + [if c.index == i && c.id != "" then Some(c.id) else None]
  {}

  lemma {:induction false} OneMoreName(most: seq<Call>, c: Call, i: real, given: seq<Option<string>>, name: string)
    requires given == NamesGiven(most, i) && name == NameOf(most, i) && LastGiven(given, name, "")
    ensures LastGiven(NamesGiven(most + [c], i), NameOf(most + [c], i), "")
  {
    var next := if c.index == i && c.name != "" then Some(c.name) else None;
    LastGivenMore(given, name, "", next);
    LaterName(most, c, i);
    OneMoreNameGiven(most, c, i);
  }

  lemma {:induction false} LaterName(most: seq<Call>, c: Call, i: real)
    ensures NameOf(most + [c], i) == if c.index == i && c.name != "" then c.name else NameOf(most, i)
  {
    assert (most + [c])[..|most|] == most;
  }

  lemma {:induction false} OneMoreNameGiven(most: seq<Call>, c: Call, i: real)
    ensures NamesGiven(most + [c], i)
         == NamesGiven(most, i) + [if c.index == i && c.name != "" then Some(c.name) else None]
  {}

  lemma {:induction false} OneMoreArgument(most: seq<Call>, c: Call, i: real, parts: seq<string>, pieces: seq<string>)
    requires parts == PiecesOf(most, i) && pieces == ArgumentPieces(most, i) && Spells(Join(parts), pieces)
    ensures Spells(Join(PiecesOf(most + [c], i)), ArgumentPieces(most + [c], i))
  {
    var more := if c.index == i && c.arguments != "" then [c.arguments] else [];
    var piece := if c.index == i then c.arguments else "";
    SpellsJoined(parts, pieces, more, piece);
    LaterPieces(most, c, i);
    OneMoreArgumentPiece(most, c, i);
  }

  lemma {:induction false} LaterPieces(most: seq<Call>, c: Call, i: real)
    ensures PiecesOf(most + [c], i)
         == PiecesOf(most, i) + if c.index == i && c.arguments != "" then [c.arguments] else []
  {
    assert (most + [c])[..|most|] == most;
  }

  lemma {:induction false} OneMoreArgumentPiece(most: seq<Call>, c: Call, i: real)
    ensures ArgumentPieces(most + [c], i) == ArgumentPieces(most, i) + [if c.index == i then c.arguments else ""]
  {}

  lemma {:induction false} UseIsRight(decode: Decoder, calls: seq<Call>, i: real, b: Body)
    requires b.ToolUse? && b.id == IdOf(calls, i) && b.name == NameOf(calls, i)
    requires ParseArguments(decode, PiecesOf(calls, i)) == Some(b.arguments)
    ensures IsUse(decode, calls, i, b)
  {
    LastNaming(calls, i);
    ArgumentsSpelled(calls, i);
  }

  lemma {:induction false} AnswerIsRight(decode: Decoder, fs: seq<Frame>, p: Parser, keys: seq<real>, answer: seq<Body>)
    requires Fits(decode, fs, p) && p.finishSeen
    requires Lists(keys, p.tools.Keys)
    requires AnswersWith(Message(p), p.tools, UseOf, keys, answer)
    ensures IsAnswer(decode, fs, answer)
  {
    forall k | 0 <= k < |keys|
      ensures IsUse(decode, Calls(fs), keys[k], answer[k + 1])
    {
      assert ToolFits(Calls(fs), p.tools[keys[k]], keys[k]);
      UseIsRight(decode, Calls(fs), keys[k], answer[k + 1]);
    }
    TextSpelled(fs);
    CallsSpelled(fs);
    LastStopAndCounts(fs);
    assert UsesAre(decode, fs, Calls(fs), keys, answer);
  }
}
