/** Reading one streamed answer: streamSSE in provider_stream.go. */
module StreamDriver {
  import opened Events
  import opened Protocol
  import opened Streams
  import opened AnthropicStreams
  import opened AnthropicGrammar
  import OpenAIStreams
  import GeminiStreams

  /** What came back from the provider: nothing, an error status, or data blocks, possibly cut short by a read error. */
  datatype Exchange = NoResponse | BadStatus | Response(blocks: seq<string>, broken: bool)

  function Decoded<F>(read: string -> F, blocks: seq<string>): (r: seq<F>)
    ensures |r| == |blocks|
  {
    seq(|blocks|, i requires 0 <= i < |blocks| => read(blocks[i]))
  }

  lemma {:induction false} DecodedMore<F>(read: string -> F, blocks: seq<string>, data: string, whole: seq<string>)
    ensures Decoded(read, blocks + [data]) == Decoded(read, blocks) + [read(data)]
    ensures blocks + [data] <= whole ==>
              Decoded(read, whole)[..|blocks|] == Decoded(read, blocks) && Decoded(read, whole)[|blocks|] == read(data)
  {}

  datatype Handler =
    | Anthropic(a: AnthropicStream)
    | OpenAI(o: OpenAIStreams.OpenAIStream)
    | Gemini(g: GeminiStreams.GeminiStream)
  {
    ghost function Object(): object {
      match this
      case Anthropic(a) => a
      case OpenAI(o) => o
      case Gemini(g) => g
    }

    ghost function Emitted(): seq<Signal>
      reads Object()
    {
      match this
      case Anthropic(a) => a.emitted
      case OpenAI(o) => o.emitted
      case Gemini(g) => g.emitted
    }

    /** The parser is in order and has accepted exactly these blocks. */
    ghost predicate Took(blocks: seq<string>)
      reads Object()
    {
      match this
      case Anthropic(a) => a.Valid() && a.frames == Decoded(a.read, blocks)
      case OpenAI(o) => o.Valid() && o.frames == Decoded(o.read, blocks)
      case Gemini(g) => g.Valid() && g.frames == Decoded(g.read, blocks)
    }

    /** The one restriction: an Anthropic stream must not reuse a block number. */
    ghost predicate InScope(blocks: seq<string>) {
      Anthropic? ==> OpenedOnce(Decoded(a.read, blocks))
    }

    /** The blocks are a complete stream of this provider. */
    ghost predicate Accepts(blocks: seq<string>) {
      match this
      case Anthropic(a) => Grammar(a.decode, Decoded(a.read, blocks))
      case OpenAI(o) =>
        var fs := Decoded(o.read, blocks);
        OpenAIStreams.AllLegal(o.decode, fs) && OpenAIStreams.Done in fs && OpenAIStreams.Finished(fs)
      case Gemini(g) =>
        var fs := Decoded(g.read, blocks);
        GeminiStreams.AllLegal(fs) && GeminiStreams.Finished(fs)
    }

    /** The answer is what the blocks amount to. */
    ghost predicate Means(blocks: seq<string>, answer: seq<Body>) {
      match this
      case Anthropic(a) => IsAnswer(a.decode, Decoded(a.read, blocks), answer)
      case OpenAI(o) => OpenAIStreams.IsAnswer(o.decode, Decoded(o.read, blocks), answer)
      case Gemini(g) => GeminiStreams.IsAnswer(g.number, Decoded(g.read, blocks), answer)
    }

    method Start()
      modifies Object()
      ensures Emitted() == old(Emitted()) + [TurnStarted]
      ensures forall blocks :: old(Took(blocks)) ==> Took(blocks)
    {
      match this
      case Anthropic(a) => a.Start();
      case OpenAI(o) => o.Start();
      case Gemini(g) => g.Start();
    }

    method Fail()
      modifies Object()
      ensures Emitted() == old(Emitted()) + [TurnFailed]
    {
      match this
      case Anthropic(a) => a.Fail();
      case OpenAI(o) => o.Fail();
      case Gemini(g) => g.Fail();
    }

    /** A block that is refused rules out every stream that begins with it. */
    method Data(data: string, ghost before: seq<string>, ghost whole: seq<string>) returns (ok: bool)
      requires Took(before) && before + [data] <= whole
      modifies Object()
      ensures OnlyDeltas(old(Emitted()), Emitted())
      ensures ok ==> Took(before + [data])
      ensures !ok && InScope(whole) ==> !Accepts(whole)
    {
      match this
      case Anthropic(a) =>
        ok := a.Data(data);
        DecodedMore(a.read, before, data, whole);
        RefusedAnthropic(a.decode, Decoded(a.read, before), a.read(data), Decoded(a.read, whole));
      case OpenAI(o) =>
        ok := o.Data(data);
        DecodedMore(o.read, before, data, whole);
      case Gemini(g) =>
        ok := g.Data(data);
        DecodedMore(g.read, before, data, whole);
    }

    method Complete(ghost blocks: seq<string>) returns (ok: bool, ghost answer: seq<Body>)
      requires Took(blocks)
      modifies Object()
      ensures !ok ==> Emitted() == old(Emitted())
      ensures ok ==>
                && Builtin(answer) && old(Emitted()) <= Emitted()
                && DurableTail(Emitted()[|old(Emitted())|..], answer)
      ensures InScope(blocks) ==> (ok <==> Accepts(blocks)) && (ok ==> Means(blocks, answer))
      ensures ok ==> SaysWhatWasShown(Emitted(), answer)
    {
      match this
      case Anthropic(a) =>
        ghost var fs := a.frames;
        ok, answer := a.Complete();
        if OpenedOnce(fs) {
          AcceptedIffGrammatical(a.decode, fs);
        }
      case OpenAI(o) => ok, answer := o.Finish();
      case Gemini(g) => ok, answer := g.Finish();
    }
  }

  lemma {:induction false} RefusedAnthropic(decode: Decoder, fs: seq<AnthropicStreams.Frame>,
                                            f: AnthropicStreams.Frame, whole: seq<AnthropicStreams.Frame>)
    requires |fs| < |whole| && whole[..|fs|] == fs && whole[|fs|] == f
    ensures OpenedOnce(whole) ==> OpenedOnce(fs + [f])
    ensures OpenedOnce(whole) && !AnthropicStreams.Legal(decode, fs, f) ==> !Grammar(decode, whole)
  {
    if OpenedOnce(whole) {
      assert fs + [f] == whole[..|fs| + 1];
      AcceptedIffGrammatical(decode, whole);
    }
  }

  /** Hands over one block of many. */
  method ReadBlock(h: Handler, data: string, ghost before: seq<string>, ghost whole: seq<string>) returns (ok: bool)
    requires h.Took(before) && before + [data] <= whole && OnlyDeltas([TurnStarted], h.Emitted())
    modifies h.Object()
    ensures OnlyDeltas([TurnStarted], h.Emitted())
    ensures ok ==> h.Took(before + [data])
    ensures !ok && h.InScope(whole) ==> !h.Accepts(whole)
  {
    ghost var emitted := h.Emitted();
    ok := h.Data(data, before, whole);
    StillDeltas(emitted, h.Emitted());
  }

  method ReadBlocks(h: Handler, blocks: seq<string>) returns (ok: bool)
    requires h.Took([]) && OnlyDeltas([TurnStarted], h.Emitted())
    modifies h.Object()
    ensures OnlyDeltas([TurnStarted], h.Emitted())
    ensures ok ==> h.Took(blocks)
    ensures !ok && h.InScope(blocks) ==> !h.Accepts(blocks)
  {
    ghost var taken: seq<string> := [];
    for k := 0 to |blocks|
      invariant taken == blocks[..k] && h.Took(taken) && OnlyDeltas([TurnStarted], h.Emitted())
    {
      NextBlock(blocks, k);
      ok := ReadBlock(h, blocks[k], taken, blocks);
      if !ok {
        return;
      }
      taken := taken + [blocks[k]];
    }
    assert taken == blocks;
    ok := true;
  }

  lemma {:induction false} NextBlock(blocks: seq<string>, k: nat)
    requires k < |blocks|
    ensures blocks[..k] + [blocks[k]] == blocks[..k + 1] <= blocks
  {}

  /** Whatever comes back, the stream ends once, and fails closed: nothing durable is emitted before everything
      validated. It succeeds exactly when the provider sent a complete stream. */
  method StreamSSE(h: Handler, exchange: Exchange) returns (ok: bool, ghost answer: seq<Body>)
    requires h.Took([]) && h.Emitted() == []
    modifies h.Object()
    ensures EndsOnce(h.Emitted(), if ok then Some(answer) else None)
    ensures !exchange.Response? || exchange.broken ==> !ok
    ensures exchange.Response? && !exchange.broken && h.InScope(exchange.blocks) ==>
              (ok <==> h.Accepts(exchange.blocks)) && (ok ==> h.Means(exchange.blocks, answer))
    ensures ok ==> SaysWhatWasShown(h.Emitted(), answer)
  {
    h.Start();
    ok, answer := ReadAll(h, exchange);
    if !ok {
      Failing(h.Emitted());
      h.Fail();
    }
  }

  /** Everything but the signal of a failure. */
  method ReadAll(h: Handler, exchange: Exchange) returns (ok: bool, ghost answer: seq<Body>)
    requires h.Took([]) && OnlyDeltas([TurnStarted], h.Emitted())
    modifies h.Object()
    ensures if ok then EndsOnce(h.Emitted(), Some(answer)) else OnlyDeltas([TurnStarted], h.Emitted())
    ensures !exchange.Response? || exchange.broken ==> !ok
    ensures exchange.Response? && !exchange.broken && h.InScope(exchange.blocks) ==>
              (ok <==> h.Accepts(exchange.blocks)) && (ok ==> h.Means(exchange.blocks, answer))
    ensures ok ==> SaysWhatWasShown(h.Emitted(), answer)
  {
    ok, answer := false, [];
    if exchange.Response? {
      var taken := ReadBlocks(h, exchange.blocks);
      if taken && !exchange.broken {
        ghost var before := h.Emitted();
        ok, answer := h.Complete(exchange.blocks);
        if ok {
          Succeeding(before, h.Emitted(), answer);
        }
      }
    }
  }

  lemma {:induction false} StillDeltas(before: seq<Signal>, after: seq<Signal>)
    requires OnlyDeltas([TurnStarted], before) && OnlyDeltas(before, after)
    ensures OnlyDeltas([TurnStarted], after)
  {}

  lemma {:induction false} Failing(emitted: seq<Signal>)
    requires OnlyDeltas([TurnStarted], emitted)
    ensures EndsOnce(emitted + [TurnFailed], None)
  {
    var all := emitted + [TurnFailed];
    assert all[..|emitted|] == emitted && all[|emitted|..] == [TurnFailed];
    assert EndsAt(all, |emitted|, None);
  }

  lemma {:induction false} Succeeding(before: seq<Signal>, after: seq<Signal>, answer: seq<Body>)
    requires OnlyDeltas([TurnStarted], before) && before <= after
    requires Builtin(answer) && DurableTail(after[|before|..], answer)
    ensures EndsOnce(after, Some(answer))
  {
    assert after[..|before|] == before;
    assert EndsAt(after, |before|, Some(answer));
  }
}
