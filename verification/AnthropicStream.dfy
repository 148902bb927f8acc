/** The Anthropic stream parser: anthropicStreamState in provider_stream.go. */
module AnthropicStreams {
  import opened Events
  import opened Protocol
  import opened Streams
  import opened Sequences

  /** A decoded frame. `Garbled` is text that is no JSON object or has no type. */
  datatype Frame =
    | Garbled
    | ErrorFrame
    | Ping
    | Unknown
    | MessageStart(report: Report)
    | BlockStart(index: real, kind: string, id: string, name: string)
    | TextFrame(index: real, text: string)
    | JsonFrame(index: real, chunk: string)
    | UnknownDelta(index: real)
    | BlockStop(index: real)
    | MessageDelta(reason: string, report: Report)
    | MessageStop

  // ---------- What a history of frames says ----------

  predicate OpensBlock(f: Frame, i: real) { f.BlockStart? && f.index == i }

  predicate OpensTool(f: Frame, i: real) { OpensBlock(f, i) && f.kind == "tool_use" }

  predicate GivesReason(f: Frame) { f.MessageDelta? && f.reason != "" }

  ghost predicate Started(fs: seq<Frame>) { exists f :: f in fs && f.MessageStart? }

  ghost predicate Stopped(fs: seq<Frame>) { MessageStop in fs }

  ghost predicate Reasoned(fs: seq<Frame>) { exists f :: f in fs && GivesReason(f) }

  ghost predicate Opened(fs: seq<Frame>, i: real) { exists f :: f in fs && OpensBlock(f, i) }

  ghost predicate ToolOpened(fs: seq<Frame>, i: real) { exists f :: f in fs && OpensTool(f, i) }

  ghost predicate Closed(fs: seq<Frame>, i: real) { BlockStop(i) in fs }

  ghost predicate IsOpen(fs: seq<Frame>, i: real) { Opened(fs, i) && !Closed(fs, i) }

  ghost predicate AllClosed(fs: seq<Frame>) { forall i :: Opened(fs, i) ==> Closed(fs, i) }

  ghost predicate Active(fs: seq<Frame>) { Started(fs) && !Stopped(fs) }

  /** No block number is opened twice. */
  ghost predicate OpenedOnce(fs: seq<Frame>) {
    forall a, b, i :: 0 <= a < b < |fs| && OpensBlock(fs[a], i) ==> !OpensBlock(fs[b], i)
  }

  /** The non-empty pieces of text, in order, whichever block they belong to. */
  function Texts(fs: seq<Frame>): seq<string> {
    if fs == [] then []
    else
      var f := fs[|fs| - 1];
      Texts(fs[..|fs| - 1]) + if f.TextFrame? && f.text != "" then [f.text] else []
  }

  /** The argument pieces of one block, in order, whatever came in between. */
  function Chunks(fs: seq<Frame>, i: real): seq<string> {
    if fs == [] then []
    else
      var f := fs[|fs| - 1];
      Chunks(fs[..|fs| - 1], i) + if f.JsonFrame? && f.index == i then [f.chunk] else []
  }

  function StopOf(reason: string): (r: string)
    ensures reason in {"end_turn", "max_tokens", "tool_use", "stop_sequence", "refusal"} ==> r == reason
    ensures r == reason || (r == "other"
              && reason !in {"end_turn", "max_tokens", "tool_use", "stop_sequence", "refusal"})
  {
    if reason in {"end_turn", "max_tokens", "tool_use", "stop_sequence", "refusal"} then reason else "other"
  }

  /** The stop reason given, if one was; "other" until then. */
  function Stop(fs: seq<Frame>): string {
    if fs == [] then "other"
    else
      var f := fs[|fs| - 1];
      if GivesReason(f) then StopOf(f.reason) else Stop(fs[..|fs| - 1])
  }

  function Counts(fs: seq<Frame>): Usage {
    if fs == [] then NO_USAGE
    else
      var f := fs[|fs| - 1];
      if f.MessageStart? || f.MessageDelta? then Merge(Counts(fs[..|fs| - 1]), f.report) else Counts(fs[..|fs| - 1])
  }

  // ---------- Which frame may come next ----------

  /** Whether the protocol allows `f` after the frames `fs`. */
  ghost predicate Legal(decode: Decoder, fs: seq<Frame>, f: Frame) {
    match f
    case Ping => true
    case Unknown => true
    case MessageStart(_) => !Started(fs)
    case BlockStart(i, kind, id, name) =>
      Active(fs) && !Opened(fs, i) && kind != "" && (kind == "tool_use" ==> id != "" && name != "")
    case TextFrame(i, _) => Active(fs) && IsOpen(fs, i) && !ToolOpened(fs, i)
    case JsonFrame(i, _) => Active(fs) && IsOpen(fs, i) && ToolOpened(fs, i)
    case BlockStop(i) =>
      Active(fs) && IsOpen(fs, i) && (ToolOpened(fs, i) ==> ParseArguments(decode, Chunks(fs, i)).Some?)
    case MessageDelta(reason, _) => Active(fs) && (reason != "" ==> !Reasoned(fs))
    case MessageStop => Active(fs) && Reasoned(fs) && AllClosed(fs)
    case _ => false
  }

  ghost predicate AllLegal(decode: Decoder, fs: seq<Frame>) {
    forall n :: 0 <= n < |fs| ==> Legal(decode, fs[..n], fs[n])
  }

  // ---------- One more frame ----------

  lemma {:induction false} OneMoreFrame(fs: seq<Frame>, f: Frame)
    ensures Started(fs + [f]) <==> Started(fs) || f.MessageStart?
    ensures Stopped(fs + [f]) <==> Stopped(fs) || f == MessageStop
    ensures Reasoned(fs + [f]) <==> Reasoned(fs) || GivesReason(f)
    ensures Texts(fs + [f]) == Texts(fs) + if f.TextFrame? && f.text != "" then [f.text] else []
    ensures Stop(fs + [f]) == if GivesReason(f) then StopOf(f.reason) else Stop(fs)
    ensures Counts(fs + [f]) == if f.MessageStart? || f.MessageDelta? then Merge(Counts(fs), f.report) else Counts(fs)
  {
    assert (fs + [f])[..|fs|] == fs;
    assert f in fs + [f] && forall g :: g in fs ==> g in fs + [f];
  }

  lemma {:induction false} OneMoreOfBlock(fs: seq<Frame>, f: Frame, i: real)
    ensures Opened(fs + [f], i) <==> Opened(fs, i) || OpensBlock(f, i)
    ensures ToolOpened(fs + [f], i) <==> ToolOpened(fs, i) || OpensTool(f, i)
    ensures Closed(fs + [f], i) <==> Closed(fs, i) || f == BlockStop(i)
    ensures Chunks(fs + [f], i) == Chunks(fs, i) + if f.JsonFrame? && f.index == i then [f.chunk] else []
  {
    assert (fs + [f])[..|fs|] == fs;
    assert f in fs + [f] && forall g :: g in fs ==> g in fs + [f];
  }

  lemma {:induction false} OneMoreOpened(fs: seq<Frame>, f: Frame)
    ensures OpenedOnce(fs + [f]) <==> OpenedOnce(fs) && forall i :: OpensBlock(f, i) ==> !Opened(fs, i)
  {
    var all := fs + [f];
    if OpenedOnce(all) {
      assert forall a :: 0 <= a < |fs| ==> all[a] == fs[a];
      assert all[|fs|] == f;
    }
  }

  lemma {:induction false} OneMoreLegal(decode: Decoder, fs: seq<Frame>, f: Frame)
    ensures AllLegal(decode, fs + [f]) <==> AllLegal(decode, fs) && Legal(decode, fs, f)
  {
    var all := fs + [f];
    assert all[..|fs|] == fs && all[|fs|] == f;
    assert forall n :: 0 <= n < |fs| ==> all[..n] == fs[..n] && all[n] == fs[n];
  }

  // ---------- What the parser knows ----------

  datatype ToolState = ToolState(id: string, name: string, argChunks: seq<string>, arguments: Option<Arguments>)

  /** The parser's fields as a value. */
  datatype Parser = Parser(
    textParts: seq<string>, stop: string, usage: Usage, tools: map<real, ToolState>, openBlocks: map<real, string>,
    messageStarted: bool, messageStopped: bool, stopSeen: bool)

  const FRESH := Parser([], "other", NO_USAGE, map[], map[], false, false, false)

  /** The flags and the pieces collected are what the frames say. */
  ghost predicate Described(fs: seq<Frame>, p: Parser) {
    && (p.messageStarted <==> Started(fs)) && (p.messageStopped <==> Stopped(fs)) && (p.stopSeen <==> Reasoned(fs))
    && (p.messageStopped ==> p.messageStarted && p.stopSeen && NoneOpen(p))
    && p.textParts == Texts(fs) && p.stop == Stop(fs) && p.usage == Counts(fs)
  }

  ghost predicate NoneOpen(p: Parser) { forall i :: i !in p.openBlocks }

  ghost predicate BlocksDescribed(fs: seq<Frame>, p: Parser) {
    && (forall i :: i in p.openBlocks <==> IsOpen(fs, i))
    && (forall i :: i in p.openBlocks ==> (p.openBlocks[i] == "tool_use" <==> ToolOpened(fs, i)))
    && (forall i :: Closed(fs, i) ==> Opened(fs, i))
  }

  ghost predicate ToolDescribed(decode: Decoder, fs: seq<Frame>, t: ToolState, i: real) {
    && (forall f :: f in fs && OpensTool(f, i) ==> t.id == f.id && t.name == f.name)
    && t.id != "" && t.name != ""
    && t.argChunks == Chunks(fs, i)
    && t.arguments == (if Closed(fs, i) then ParseArguments(decode, Chunks(fs, i)) else None)
    && (Closed(fs, i) ==> t.arguments.Some?)
  }

  ghost predicate ToolsDescribed(decode: Decoder, fs: seq<Frame>, p: Parser) {
    && (forall i :: i in p.tools <==> ToolOpened(fs, i))
    && (forall i :: i in p.tools ==> ToolDescribed(decode, fs, p.tools[i], i))
    && (forall f :: f in fs && f.JsonFrame? ==> ToolOpened(fs, f.index))
  }

  /** The state is a function of the frames, and these were all legal. */
  ghost predicate Fits(decode: Decoder, fs: seq<Frame>, p: Parser) {
    OpenedOnce(fs) && AllLegal(decode, fs) && Described(fs, p) && BlocksDescribed(fs, p)
      && ToolsDescribed(decode, fs, p)
  }

  lemma {:induction false} FreshFits(decode: Decoder)
    ensures Fits(decode, [], FRESH)
  {}

  /** Whether a parser in this state accepts a frame. */
  ghost predicate Admits(decode: Decoder, p: Parser, f: Frame) {
    var active := p.messageStarted && !p.messageStopped;
    match f
    case Ping => true
    case Unknown => true
    case MessageStart(_) => !p.messageStarted && !p.messageStopped
    case BlockStart(i, kind, id, name) =>
      active && i !in p.openBlocks && kind != "" && (kind == "tool_use" ==> id != "" && name != "")
    case TextFrame(i, _) => active && i in p.openBlocks && p.openBlocks[i] != "tool_use"
    case JsonFrame(i, _) => active && i in p.openBlocks && i in p.tools
    case BlockStop(i) => active && i in p.openBlocks
        && (i in p.tools ==> ParseArguments(decode, p.tools[i].argChunks).Some?)
    case MessageDelta(reason, _) => active && (reason != "" ==> !p.stopSeen)
    case MessageStop => active && NoneOpen(p) && p.stopSeen
    case _ => false
  }

  /** The state after an accepted frame. */
  function Next(decode: Decoder, p: Parser, f: Frame): Parser {
    match f
    case MessageStart(report) => p.(messageStarted := true, usage := Merge(p.usage, report))
    case BlockStart(i, kind, id, name) =>
      p.(openBlocks := p.openBlocks[i := kind], tools := if kind == "tool_use" then
        p.tools[i := ToolState(id, name, [], None)] else p.tools)
    case TextFrame(_, text) => p.(textParts := MoreText(p.textParts, text))
    case JsonFrame(i, chunk) =>
      if i in p.tools then p.(tools := p.tools[i := p.tools[i].(argChunks := p.tools[i].argChunks + [chunk])]) else p
    case BlockStop(i) =>
      var q := p.(openBlocks := p.openBlocks - {i});
      if i in p.tools then q.(tools := p.tools[i := p.tools[i].(arguments := ParseArguments(decode,
          p.tools[i].argChunks))]) else q
    case MessageDelta(reason, report) =>
      var q := p.(usage := Merge(p.usage, report));
      if reason == "" then q else q.(stop := StopOf(reason), stopSeen := true)
    case MessageStop => p.(messageStopped := true)
    case _ => p
  }

  lemma {:induction false} NothingOpen(fs: seq<Frame>, p: Parser)
    requires BlocksDescribed(fs, p)
    ensures NoneOpen(p) <==> AllClosed(fs)
  {
    if NoneOpen(p) {
      forall i | Opened(fs, i)
        ensures Closed(fs, i)
      {
        assert i !in p.openBlocks;
      }
    }
    if AllClosed(fs) {
      forall i
        ensures i !in p.openBlocks
      {
        assert !IsOpen(fs, i);
      }
    }
  }

  lemma {:induction false} NextIsDescribed(decode: Decoder, fs: seq<Frame>, p: Parser, f: Frame)
    requires Described(fs, p) && BlocksDescribed(fs, p) && Legal(decode, fs, f)
    ensures Described(fs + [f], Next(decode, p, f))
  {
    OneMoreFrame(fs, f);
    if f.MessageStop? {
      NothingOpen(fs, p);
    }
  }

  ghost predicate BlockDescribed(fs: seq<Frame>, open: map<real, string>, i: real) {
    && (i in open <==> IsOpen(fs, i))
    && (i in open ==> (open[i] == "tool_use" <==> ToolOpened(fs, i)))
    && (Closed(fs, i) ==> Opened(fs, i))
  }

  lemma {:induction false} NextKeepsBlock(decode: Decoder, fs: seq<Frame>, p: Parser, f: Frame, i: real)
    requires BlockDescribed(fs, p.openBlocks, i)
    requires f == BlockStop(i) ==> IsOpen(fs, i)
    requires OpensBlock(f, i) ==> !Opened(fs, i)
    ensures BlockDescribed(fs + [f], Next(decode, p, f).openBlocks, i)
  {
    OneMoreOfBlock(fs, f, i);
    OpenAfter(decode, p, f, i);
    assert ToolOpened(fs, i) ==> Opened(fs, i);
  }

  /** What a frame does to one block. */
  lemma {:induction false} OpenAfter(decode: Decoder, p: Parser, f: Frame, i: real)
    ensures var open := Next(decode, p, f).openBlocks;
            && (i in open <==> OpensBlock(f, i) || (i in p.openBlocks && f != BlockStop(i)))
            && (i in open ==> open[i] == if OpensBlock(f, i) then f.kind else p.openBlocks[i])
  {}

  lemma {:induction false} NextKeepsBlocks(decode: Decoder, fs: seq<Frame>, p: Parser, f: Frame)
    requires BlocksDescribed(fs, p) && Legal(decode, fs, f)
    ensures BlocksDescribed(fs + [f], Next(decode, p, f))
  {
    var open := Next(decode, p, f).openBlocks;
    forall i
      ensures i in open <==> IsOpen(fs + [f], i)
      ensures i in open ==> (open[i] == "tool_use" <==> ToolOpened(fs + [f], i))
      ensures Closed(fs + [f], i) ==> Opened(fs + [f], i)
    {
      assert i in p.openBlocks <==> IsOpen(fs, i);
      NextKeepsBlock(decode, fs, p, f, i);
    }
  }

  /** A frame that is not about block `i` leaves its tool as it is. */
  lemma {:induction false} OtherFrame(decode: Decoder, fs: seq<Frame>, t: ToolState, f: Frame, i: real)
    requires ToolDescribed(decode, fs, t, i)
    requires !OpensBlock(f, i) && f != BlockStop(i) && !(f.JsonFrame? && f.index == i)
    ensures ToolDescribed(decode, fs + [f], t, i)
  {
    OneMoreOfBlock(fs, f, i);
    assert forall g :: g in fs + [f] <==> g in fs || g == f;
  }

  lemma {:induction false} ToolBegins(decode: Decoder, fs: seq<Frame>, p: Parser, f: Frame, i: real)
    requires ToolsDescribed(decode, fs, p) && BlocksDescribed(fs, p)
    requires OpensTool(f, i) && !Opened(fs, i) && f.id != "" && f.name != ""
    ensures ToolDescribed(decode, fs + [f], ToolState(f.id, f.name, [], None), i)
  {
    OneMoreOfBlock(fs, f, i);
    NoChunksYet(decode, fs, p, i);
    assert forall g :: g in fs && OpensTool(g, i) ==> OpensBlock(g, i);
    assert forall g :: g in fs + [f] <==> g in fs || g == f;
  }

  lemma {:induction false} ToolGrows(decode: Decoder, fs: seq<Frame>, t: ToolState, i: real, chunk: string)
    requires ToolDescribed(decode, fs, t, i) && !Closed(fs, i)
    ensures ToolDescribed(decode, fs + [JsonFrame(i, chunk)], t.(argChunks := t.argChunks + [chunk]), i)
  {
    OneMoreOfBlock(fs, JsonFrame(i, chunk), i);
    assert forall g :: g in fs + [JsonFrame(i, chunk)] <==> g in fs || g == JsonFrame(i, chunk);
  }

  lemma {:induction false} ToolEnds(decode: Decoder, fs: seq<Frame>, t: ToolState, i: real)
    requires ToolDescribed(decode, fs, t, i) && ParseArguments(decode, Chunks(fs, i)).Some?
    ensures ToolDescribed(decode, fs + [BlockStop(i)], t.(arguments := ParseArguments(decode, t.argChunks)), i)
  {
    OneMoreOfBlock(fs, BlockStop(i), i);
    assert forall g :: g in fs + [BlockStop(i)] <==> g in fs || g == BlockStop(i);
  }

  ghost predicate ToolFits(decode: Decoder, fs: seq<Frame>, tools: map<real, ToolState>, i: real) {
    && (i in tools <==> ToolOpened(fs, i))
    && (i in tools ==> ToolDescribed(decode, fs, tools[i], i))
  }

  lemma {:induction false} NextKeepsTool(decode: Decoder, fs: seq<Frame>, p: Parser, f: Frame, i: real)
    requires ToolsDescribed(decode, fs, p) && BlocksDescribed(fs, p) && Legal(decode, fs, f)
    ensures ToolFits(decode, fs + [f], Next(decode, p, f).tools, i)
  {
    if OpensTool(f, i) {
      ToolBegins(decode, fs, p, f, i);
      OneMoreOfBlock(fs, f, i);
    } else {
      assert i in p.tools ==> ToolDescribed(decode, fs, p.tools[i], i);
      assert f == BlockStop(i) || (f.JsonFrame? && f.index == i) ==> IsOpen(fs, i);
      ToolGoesOn(decode, fs, p, f, i);
    }
  }

  /** A frame that does not open block `i` as a tool. */
  lemma {:induction false} ToolGoesOn(decode: Decoder, fs: seq<Frame>, p: Parser, f: Frame, i: real)
    requires ToolFits(decode, fs, p.tools, i) && !OpensTool(f, i)
    requires OpensBlock(f, i) ==> !ToolOpened(fs, i)
    requires f == BlockStop(i) && i in p.tools ==> ParseArguments(decode, Chunks(fs, i)).Some?
    requires f == BlockStop(i) || (f.JsonFrame? && f.index == i) ==> IsOpen(fs, i)
    ensures ToolFits(decode, fs + [f], Next(decode, p, f).tools, i)
  {
    OneMoreOfBlock(fs, f, i);
    NextTool(decode, p, f, i);
    if i in p.tools {
      ToolStays(decode, fs, p.tools[i], f, i);
    }
  }

  /** The state of the tool of block `i` after a frame that does not open it. */
  function ToolAfter(decode: Decoder, t: ToolState, f: Frame, i: real): ToolState {
    if f == BlockStop(i) then t.(arguments := ParseArguments(decode, t.argChunks))
    else if f.JsonFrame? && f.index == i then t.(argChunks := t.argChunks + [f.chunk])
    else t
  }

  lemma {:induction false} NextTool(decode: Decoder, p: Parser, f: Frame, i: real)
    requires !OpensTool(f, i)
    ensures i in Next(decode, p, f).tools <==> i in p.tools
    ensures i in p.tools ==> Next(decode, p, f).tools[i] == ToolAfter(decode, p.tools[i], f, i)
  {}

  lemma {:induction false} ToolStays(decode: Decoder, fs: seq<Frame>, t: ToolState, f: Frame, i: real)
    requires ToolDescribed(decode, fs, t, i) && !OpensBlock(f, i)
    requires f == BlockStop(i) ==> ParseArguments(decode, Chunks(fs, i)).Some?
    requires f.JsonFrame? && f.index == i ==> !Closed(fs, i)
    ensures ToolDescribed(decode, fs + [f], ToolAfter(decode, t, f, i), i)
  {
    if f == BlockStop(i) {
      ToolEnds(decode, fs, t, i);
    } else if f.JsonFrame? && f.index == i {
      ToolGrows(decode, fs, t, i, f.chunk);
    } else {
      OtherFrame(decode, fs, t, f, i);
    }
  }

  lemma {:induction false} NoChunksYet(decode: Decoder, fs: seq<Frame>, p: Parser, i: real)
    requires ToolsDescribed(decode, fs, p) && BlocksDescribed(fs, p) && !Opened(fs, i)
    ensures Chunks(fs, i) == [] && !Closed(fs, i)
  {
    NoChunks(fs, i);
  }

  lemma {:induction false} NoChunks(fs: seq<Frame>, i: real)
    requires forall f :: f in fs && f.JsonFrame? ==> f.index != i
    ensures Chunks(fs, i) == []
  {
    if fs != [] {
      assert fs == fs[..|fs| - 1] + [fs[|fs| - 1]];
      NoChunks(fs[..|fs| - 1], i);
    }
  }

  /** A legal frame leads to the state that fits the longer history. */
  lemma {:induction false} NextFits(decode: Decoder, fs: seq<Frame>, p: Parser, f: Frame)
    requires Fits(decode, fs, p) && Legal(decode, fs, f)
    ensures Fits(decode, fs + [f], Next(decode, p, f))
  {
    NextIsDescribed(decode, fs, p, f);
    NextKeepsBlocks(decode, fs, p, f);
    forall i
      ensures i in Next(decode, p, f).tools <==> ToolOpened(fs + [f], i)
      ensures i in Next(decode, p, f).tools ==> ToolDescribed(decode, fs + [f], Next(decode, p, f).tools[i], i)
    {
      NextKeepsTool(decode, fs, p, f, i);
    }
    forall g | g in fs + [f] && g.JsonFrame?
      ensures ToolOpened(fs + [f], g.index)
    {
      OneMoreOfBlock(fs, f, g.index);
    }
    OneMoreOpened(fs, f);
    OneMoreLegal(decode, fs, f);
  }

  /** The parser's own checks are the protocol's rules. */
  lemma {:induction false} AdmitsIffLegal(decode: Decoder, fs: seq<Frame>, p: Parser, f: Frame)
    requires Fits(decode, fs, p) && OpenedOnce(fs + [f])
    ensures Admits(decode, p, f) <==> Legal(decode, fs, f)
  {
    OneMoreOpened(fs, f);
    match f
    case BlockStop(i) => assert i in p.tools ==> ToolDescribed(decode, fs, p.tools[i], i);
    case MessageStop =>
      NothingOpen(fs, p);
    case _ =>
  }

  // ---------- The parser ----------

  class AnthropicStream {
    const read: string -> Frame
    const decode: Decoder
    var emitted: seq<Signal>
    var textParts: seq<string>
    var stop: string
    var usage: Usage
    var tools: map<real, ToolState>
    var openBlocks: map<real, string>
    var messageStarted: bool
    var messageStopped: bool
    var stopSeen: bool
    /** The frames accepted so far. */
    ghost var frames: seq<Frame>

    ghost function AsParser(): Parser
      reads this
    {
      Parser(textParts, stop, usage, tools, openBlocks, messageStarted, messageStopped, stopSeen)
    }

    /** Unless a block number was reused, the state fits the frames. */
    ghost predicate Valid()
      reads this
    {
      && InStep(emitted, textParts)
      && (OpenedOnce(frames) ==> Fits(decode, frames, AsParser()))
    }

    constructor (read: string -> Frame, decode: Decoder)
      ensures this.read == read && this.decode == decode
      ensures frames == [] && emitted == [] && Valid()
    {
      this.read, this.decode := read, decode;
      emitted, textParts, stop, usage := [], [], "other", NO_USAGE;
      tools, openBlocks := map[], map[];
      messageStarted, messageStopped, stopSeen := false, false, false;
      frames := [];
      new;
      FreshFits(decode);
    }

    method Start()
      modifies this`emitted
      ensures emitted == old(emitted) + [TurnStarted]
      ensures old(Valid()) ==> Valid()
    {
      SaidMore(emitted, TurnStarted);
      emitted := emitted + [TurnStarted];
    }

    method Fail()
      modifies this`emitted
      ensures emitted == old(emitted) + [TurnFailed]
    {
      emitted := emitted + [TurnFailed];
    }

    /** A frame is accepted exactly if the protocol allows it, and gives rise to observations only. */
    method Data(data: string) returns (ok: bool)
      requires Valid()
      modifies this
      ensures OnlyDeltas(old(emitted), emitted)
      ensures ok ==> Valid() && frames == old(frames) + [read(data)]
      ensures OpenedOnce(old(frames) + [read(data)]) ==> (ok <==> Legal(decode, old(frames), read(data)))
    {
      ghost var fs, p := frames, AsParser();
      var f := read(data);
      ok := Handle(f);
      if OpenedOnce(fs + [f]) {
        OneMoreOpened(fs, f);
        AdmitsIffLegal(decode, fs, p, f);
      }
      if ok {
        frames := fs + [f];
        if OpenedOnce(frames) {
          NextFits(decode, fs, p, f);
        }
      }
    }

    method Handle(f: Frame) returns (ok: bool)
      modifies this`emitted, this`textParts, this`stop, this`usage, this`tools, this`openBlocks
      modifies this`messageStarted, this`messageStopped, this`stopSeen
      ensures OnlyDeltas(old(emitted), emitted)
      ensures ok <==> Admits(decode, old(AsParser()), f)
      ensures ok ==> AsParser() == Next(decode, old(AsParser()), f)
      ensures old(InStep(emitted, textParts)) ==> InStep(emitted, textParts)
    {
      match f
      case Ping => return true;
      case Unknown => return true;
      case MessageStart(report) =>
        if messageStarted || messageStopped {
          return false;
        }
        messageStarted := true;
        usage := Merge(usage, report);
        return true;
      case BlockStart(_, _, _, _) => ok := StartBlock(f);
      case TextFrame(i, text) => ok := AddText(i, text);
      case JsonFrame(i, chunk) => ok := AddChunk(i, chunk);
      case BlockStop(i) => ok := StopBlock(i);
      case MessageDelta(reason, report) =>
        if !messageStarted || messageStopped || (reason != "" && stopSeen) {
          return false;
        }
        if reason != "" {
          stop, stopSeen := StopOf(reason), true;
        }
        usage := Merge(usage, report);
        return true;
      case MessageStop =>
        if !messageStarted || messageStopped || (exists i :: i in openBlocks) || !stopSeen {
          return false;
        }
        messageStopped := true;
        return true;
      case _ => return false;
    }

    method StartBlock(f: Frame) returns (ok: bool)
      requires f.BlockStart?
      modifies this`emitted, this`tools, this`openBlocks
      ensures OnlyDeltas(old(emitted), emitted)
      ensures ok <==> Admits(decode, old(AsParser()), f)
      ensures ok ==> AsParser() == Next(decode, old(AsParser()), f)
      ensures ok ==> emitted == old(emitted) + if f.kind == "tool_use" then [ToolBegin(f.id, f.name)] else []
      ensures Said(emitted) == Said(old(emitted))
    {
      if !messageStarted || messageStopped || f.index in openBlocks || f.kind == "" {
        return false;
      }
      openBlocks := openBlocks[f.index := f.kind];
      if f.kind == "tool_use" {
        if f.id == "" || f.name == "" {
          return false;
        }
        tools := tools[f.index := ToolState(f.id, f.name, [], None)];
        SaidMore(emitted, ToolBegin(f.id, f.name));
        emitted := emitted + [ToolBegin(f.id, f.name)];
      }
      return true;
    }

    method AddText(i: real, text: string) returns (ok: bool)
      modifies this`emitted, this`textParts
      ensures OnlyDeltas(old(emitted), emitted)
      ensures ok <==> Admits(decode, old(AsParser()), TextFrame(i, text))
      ensures ok ==> AsParser() == Next(decode, old(AsParser()), TextFrame(i, text))
      ensures ok ==> emitted == old(emitted) + if text == "" then [] else [TextDelta(text)]
      ensures old(InStep(emitted, textParts)) ==> InStep(emitted, textParts)
    {
      if !messageStarted || messageStopped || i !in openBlocks || openBlocks[i] == "tool_use" {
        return false;
      }
      StillInStep(emitted, textParts, text);
      textParts, emitted := MoreText(textParts, text), emitted + Shown(text);
      return true;
    }

    method AddChunk(i: real, chunk: string) returns (ok: bool)
      modifies this`emitted, this`tools
      ensures OnlyDeltas(old(emitted), emitted)
      ensures ok <==> Admits(decode, old(AsParser()), JsonFrame(i, chunk))
      ensures ok ==> AsParser() == Next(decode, old(AsParser()), JsonFrame(i, chunk))
      ensures ok ==> i in tools && emitted == old(emitted) + [ArgumentDelta(tools[i].id, chunk)]
      ensures Said(emitted) == Said(old(emitted))
    {
      if !messageStarted || messageStopped || i !in openBlocks || i !in tools {
        return false;
      }
      var tool := tools[i];
      tools := tools[i := tool.(argChunks := tool.argChunks + [chunk])];
      SaidMore(emitted, ArgumentDelta(tool.id, chunk));
      emitted := emitted + [ArgumentDelta(tool.id, chunk)];
      return true;
    }

    method StopBlock(i: real) returns (ok: bool)
      modifies this`emitted, this`tools, this`openBlocks
      ensures OnlyDeltas(old(emitted), emitted)
      ensures ok <==> Admits(decode, old(AsParser()), BlockStop(i))
      ensures ok ==> AsParser() == Next(decode, old(AsParser()), BlockStop(i))
      ensures ok && i in tools ==>
              tools[i].arguments.Some? && emitted == old(emitted) + [ToolEnd(tools[i].id, tools[i].arguments.value)]
      ensures ok && i !in tools ==> emitted == old(emitted)
      ensures Said(emitted) == Said(old(emitted))
    {
      if !messageStarted || messageStopped || i !in openBlocks {
        return false;
      }
      openBlocks := openBlocks - {i};
      if i in tools {
        var tool := tools[i];
        var arguments := ParseArguments(decode, tool.argChunks);
        if arguments == None {
          return false;
        }
        tools := tools[i := tool.(arguments := arguments)];
        SaidMore(emitted, ToolEnd(tool.id, arguments.value));
        emitted := emitted + [ToolEnd(tool.id, arguments.value)];
      }
      return true;
    }

    /** Ends the stream: if its terminal frame came, the answer is emitted, the assistant message first. */
    method Complete() returns (ok: bool, ghost answer: seq<Body>)
      requires Valid()
      modifies this`emitted
      ensures !ok ==> emitted == old(emitted)
      ensures ok ==> Builtin(answer) && old(emitted) <= emitted && DurableTail(emitted[|old(emitted)|..], answer)
      ensures OpenedOnce(frames) ==> (ok <==> Stopped(frames))
      ensures OpenedOnce(frames) && ok ==> IsAnswer(decode, frames, answer)
      ensures ok ==> SaysWhatWasShown(emitted, answer)
    {
      answer := [];
      if !messageStarted || !messageStopped || !stopSeen {
        return false, answer;
      }
      var tail;
      ghost var keys;
      tail, answer, keys := BuildAnswer();
      if OpenedOnce(frames) {
        AnswerIsRight(decode, frames, AsParser(), keys, answer);
      }
      TailOf(emitted, tail);
      ShownInFull(emitted, tail, answer);
      emitted := emitted + tail;
      return true, answer;
    }

    /** The answer that the fields amount to, tool blocks in the order of their numbers. */
    method BuildAnswer() returns (tail: seq<Signal>, ghost answer: seq<Body>, ghost keys: seq<real>)
      ensures Builtin(answer) && DurableTail(tail, answer)
      ensures Lists(keys, tools.Keys) && AnswersWith(Message(AsParser()), tools, UseOf, keys, answer)
    {
      var sorted := SortKeys(tools.Keys);
      var uses := UsesOf(tools, UseOf, sorted);
      tail, answer := Announce(Join(textParts), stop, usage, uses);
      keys := sorted;
      SaysWhat(Message(AsParser()), tools, UseOf, keys, uses, answer);
    }
  }

  function Message(p: Parser): Body { AssistantMessage(Join(p.textParts), p.stop, p.usage) }

  function UseOf(t: ToolState): (b: Body)
    ensures b.ToolUse?
  {
    FinishedUse(t.id, t.name, t.arguments)
  }

  // ---------- What a finished stream amounts to ----------

  /** What each frame contributes to the text of the answer. */
  function TextPieces(fs: seq<Frame>): seq<string> {
    seq(|fs|, k requires 0 <= k < |fs| => if fs[k].TextFrame? then fs[k].text else "")
  }

  /** What each frame contributes to the arguments of block `i`. */
  function ArgumentPieces(fs: seq<Frame>, i: real): seq<string> {
    seq(|fs|, k requires 0 <= k < |fs| => if fs[k].JsonFrame? && fs[k].index == i then fs[k].chunk else "")
  }

  function StopsGiven(fs: seq<Frame>): seq<Option<string>> {
    seq(|fs|, k requires 0 <= k < |fs| => if GivesReason(fs[k]) then Some(StopOf(fs[k].reason)) else None)
  }

  function Reports(fs: seq<Frame>): seq<Report> {
    seq(|fs|, k requires 0 <= k < |fs| =>
      if fs[k].MessageStart? || fs[k].MessageDelta? then fs[k].report else Report(None, None))
  }

  /** The frames' text in order; the stop reason and the counts that were given last. */
  ghost predicate IsMessage(fs: seq<Frame>, b: Body) {
    && b.AssistantMessage? && Spells(b.text, TextPieces(fs))
    && LastGiven(StopsGiven(fs), b.stopReason, "other") && UsageIs(Reports(fs), b.usage)
  }

  /** The answer of a finished stream: its message; then one use per tool block, in the order of the block numbers, with
      the arguments its own pieces spell. */
  ghost predicate IsAnswer(decode: Decoder, fs: seq<Frame>, answer: seq<Body>) {
    exists keys :: UsesAre(decode, fs, keys, answer)
  }

  ghost predicate UsesAre(decode: Decoder, fs: seq<Frame>, keys: seq<real>, answer: seq<Body>) {
    && |answer| == |keys| + 1 && IsMessage(fs, answer[0])
    && Ascending(keys) && (forall i :: i in keys <==> ToolOpened(fs, i))
    && forall k :: 0 <= k < |keys| ==> IsUse(decode, fs, keys[k], answer[k + 1])
  }

  ghost predicate IsUse(decode: Decoder, fs: seq<Frame>, i: real, b: Body) {
    && b.ToolUse? && Reads(decode, ArgumentPieces(fs, i), b.arguments)
    && exists f :: f in fs && OpensTool(f, i) && f.id == b.id && f.name == b.name
  }

  lemma {:induction false} TextSpelled(fs: seq<Frame>)
    ensures Spells(Join(Texts(fs)), TextPieces(fs))
  {
    if fs == [] {
      SpellsNothing<char>();
      assert TextPieces(fs) == [];
    } else {
      var most, f := fs[..|fs| - 1], fs[|fs| - 1];
      TextSpelled(most);
      OneMoreText(most, f, Texts(most), TextPieces(most));
      assert fs == most + [f];
    }
  }

  lemma {:induction false} OneMoreText(most: seq<Frame>, f: Frame, parts: seq<string>, pieces: seq<string>)
    requires parts == Texts(most) && pieces == TextPieces(most) && Spells(Join(parts), pieces)
    ensures Spells(Join(Texts(most + [f])), TextPieces(most + [f]))
  {
    var more, piece := if f.TextFrame? && f.text != "" then [f.text] else [], if f.TextFrame? then f.text else "";
    SpellsJoined(parts, pieces, more, piece);
    LaterTexts(most, f);
    OneMorePiece(most, f);
  }

  lemma {:induction false} LaterTexts(most: seq<Frame>, f: Frame)
    ensures Texts(most + [f]) == Texts(most) + if f.TextFrame? && f.text != "" then [f.text] else []
  {
    assert (most + [f])[..|most|] == most;
  }

  lemma {:induction false} OneMorePiece(most: seq<Frame>, f: Frame)
    ensures TextPieces(most + [f]) == TextPieces(most) + [if f.TextFrame? then f.text else ""]
  {}

  lemma {:induction false} LastStopAndCounts(fs: seq<Frame>)
    ensures LastGiven(StopsGiven(fs), Stop(fs), "other") && UsageIs(Reports(fs), Counts(fs))
  {
    if fs != [] {
      var most, f := fs[..|fs| - 1], fs[|fs| - 1];
      LastStopAndCounts(most);
      OneMoreStop(most, f, StopsGiven(most), Stop(most));
      OneMoreCount(most, f, Reports(most), Counts(most));
      assert fs == most + [f];
    }
  }

  lemma {:induction false} OneMoreStop(most: seq<Frame>, f: Frame, stops: seq<Option<string>>, stop: string)
    requires stops == StopsGiven(most) && stop == Stop(most) && LastGiven(stops, stop, "other")
    ensures LastGiven(StopsGiven(most + [f]), Stop(most + [f]), "other")
  {
    var next := if GivesReason(f) then Some(StopOf(f.reason)) else None;
    LastGivenMore(stops, stop, "other", next);
    LaterStop(most, f);
    OneMoreStopGiven(most, f);
  }

  lemma {:induction false} LaterStop(most: seq<Frame>, f: Frame)
    ensures Stop(most + [f]) == if GivesReason(f) then StopOf(f.reason) else Stop(most)
  {
    assert (most + [f])[..|most|] == most;
  }

  lemma {:induction false} OneMoreStopGiven(most: seq<Frame>, f: Frame)
    ensures StopsGiven(most + [f]) == StopsGiven(most) + [if GivesReason(f) then Some(StopOf(f.reason)) else None]
  {}

  lemma {:induction false} OneMoreCount(most: seq<Frame>, f: Frame, reports: seq<Report>, u: Usage)
    requires reports == Reports(most) && u == Counts(most) && UsageIs(reports, u)
    ensures UsageIs(Reports(most + [f]), Counts(most + [f]))
  {
    var report := if f.MessageStart? || f.MessageDelta? then f.report else Report(None, None);
    OneMoreReport(reports, u, report);
    LaterCounts(most, f);
    NoReport(u);
    OneMoreReported(most, f);
  }

  lemma {:induction false} LaterCounts(most: seq<Frame>, f: Frame)
    ensures Counts(most + [f])
         == if f.MessageStart? || f.MessageDelta? then Merge(Counts(most), f.report) else Counts(most)
  {
    assert (most + [f])[..|most|] == most;
  }

  lemma {:induction false} OneMoreReported(most: seq<Frame>, f: Frame)
    ensures Reports(most + [f])
         == Reports(most) + [if f.MessageStart? || f.MessageDelta? then f.report else Report(None, None)]
  {}

  lemma {:induction false} ArgumentsSpelled(fs: seq<Frame>, i: real)
    ensures Spells(Join(Chunks(fs, i)), ArgumentPieces(fs, i))
  {
    if fs == [] {
      SpellsNothing<char>();
      assert ArgumentPieces(fs, i) == [];
    } else {
      var most, f := fs[..|fs| - 1], fs[|fs| - 1];
      ArgumentsSpelled(most, i);
      OneMoreArgument(most, f, i, Chunks(most, i), ArgumentPieces(most, i));
      assert fs == most + [f];
    }
  }

  lemma {:induction false} OneMoreArgument(most: seq<Frame>, f: Frame, i: real, parts: seq<string>,
                                           pieces: seq<string>)
    requires parts == Chunks(most, i) && pieces == ArgumentPieces(most, i) && Spells(Join(parts), pieces)
    ensures Spells(Join(Chunks(most + [f], i)), ArgumentPieces(most + [f], i))
  {
    var more := if f.JsonFrame? && f.index == i then [f.chunk] else [];
    var piece := if f.JsonFrame? && f.index == i then f.chunk else "";
    SpellsJoined(parts, pieces, more, piece);
    LaterChunks(most, f, i);
    OneMoreArgumentPiece(most, f, i);
  }

  lemma {:induction false} LaterChunks(most: seq<Frame>, f: Frame, i: real)
    ensures Chunks(most + [f], i) == Chunks(most, i) + if f.JsonFrame? && f.index == i then [f.chunk] else []
  {
    assert (most + [f])[..|most|] == most;
  }

  lemma {:induction false} OneMoreArgumentPiece(most: seq<Frame>, f: Frame, i: real)
    ensures ArgumentPieces(most + [f], i)
         == ArgumentPieces(most, i) + [if f.JsonFrame? && f.index == i then f.chunk else ""]
  {}

  lemma {:induction false} ArgumentsRead(decode: Decoder, fs: seq<Frame>, i: real, arguments: Arguments)
    requires ParseArguments(decode, Chunks(fs, i)) == Some(arguments)
    ensures Reads(decode, ArgumentPieces(fs, i), arguments)
  {
    ArgumentsSpelled(fs, i);
  }

  lemma {:induction false} AnswerIsRight(decode: Decoder, fs: seq<Frame>, p: Parser, keys: seq<real>, answer: seq<Body>)
    requires Fits(decode, fs, p) && p.messageStopped
    requires Lists(keys, p.tools.Keys)
    requires AnswersWith(Message(p), p.tools, UseOf, keys, answer)
    ensures IsAnswer(decode, fs, answer)
  {
    forall k | 0 <= k < |keys|
      ensures IsUse(decode, fs, keys[k], answer[k + 1])
    {
      var i := keys[k];
      assert i in p.tools && ToolDescribed(decode, fs, p.tools[i], i);
      assert ToolOpened(fs, i) && !IsOpen(fs, i);
      var f :| f in fs && OpensTool(f, i);
      assert Opened(fs, i);
      ArgumentsRead(decode, fs, i, answer[k + 1].arguments);
    }
    TextSpelled(fs);
    LastStopAndCounts(fs);
    assert UsesAre(decode, fs, keys, answer);
  }
}
