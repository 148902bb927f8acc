/** The language of complete Anthropic streams, described as a whole rather than frame by frame. */
module AnthropicGrammar {
  import opened Events
  import opened Streams
  import opened AnthropicStreams

  ghost predicate StartAt(fs: seq<Frame>, k: int) { 0 <= k < |fs| && fs[k].MessageStart? }

  ghost predicate StopAt(fs: seq<Frame>, k: int) { 0 <= k < |fs| && fs[k] == MessageStop }

  ghost predicate ReasonAt(fs: seq<Frame>, k: int) { 0 <= k < |fs| && GivesReason(fs[k]) }

  ghost predicate OpenAt(fs: seq<Frame>, k: int, i: real) { 0 <= k < |fs| && OpensBlock(fs[k], i) }

  ghost predicate CloseAt(fs: seq<Frame>, k: int, i: real) { 0 <= k < |fs| && fs[k] == BlockStop(i) }

  /** Frames that belong between start and stop. */
  predicate Inner(f: Frame) { f.BlockStart? || f.TextFrame? || f.JsonFrame? || f.BlockStop? || f.MessageDelta? }

  /** Position `k` lies inside a block with number `i`, which holds a tool call or does not. */
  ghost predicate Inside(fs: seq<Frame>, k: int, i: real, tool: bool) {
    && (exists a :: a < k && OpenAt(fs, a, i) && (fs[a].kind == "tool_use" <==> tool))
    && (forall z :: CloseAt(fs, z, i) ==> k < z)
  }

  ghost predicate ClosedLater(fs: seq<Frame>, a: int, i: real) { exists z :: a < z && CloseAt(fs, z, i) }

  ghost predicate OpenedEarlier(fs: seq<Frame>, z: int, i: real) { exists a :: a < z && OpenAt(fs, a, i) }

  /** One start, one stop reason and one stop, in this order; everything else that counts in between. */
  ghost predicate Framed(fs: seq<Frame>, s: int, m: int, t: int) {
    && StartAt(fs, s) && ReasonAt(fs, m) && StopAt(fs, t) && s < m < t
    && (forall k :: StartAt(fs, k) ==> k == s)
    && (forall k :: ReasonAt(fs, k) ==> k == m)
    && (forall k :: StopAt(fs, k) ==> k == t)
    && (forall k :: 0 <= k < |fs| && Inner(fs[k]) ==> s < k < t)
    && (forall k :: 0 <= k < |fs| ==> !fs[k].Garbled? && !fs[k].ErrorFrame? && !fs[k].UnknownDelta?)
  }

  /** Blocks are opened properly and closed once, text and arguments stand inside blocks of their kind, and the
      arguments of every tool block can be read. */
  ghost predicate Bracketed(decode: Decoder, fs: seq<Frame>) {
    && (forall a, i :: OpenAt(fs, a, i) ==>
          && fs[a].kind != "" && (fs[a].kind == "tool_use" ==> fs[a].id != "" && fs[a].name != "")
          && ClosedLater(fs, a, i))
    && (forall z, i :: CloseAt(fs, z, i) ==> OpenedEarlier(fs, z, i))
    && (forall y, z, i :: CloseAt(fs, y, i) && CloseAt(fs, z, i) ==> y == z)
    && (forall k :: 0 <= k < |fs| && fs[k].TextFrame? ==> Inside(fs, k, fs[k].index, false))
    && (forall k :: 0 <= k < |fs| && fs[k].JsonFrame? ==> Inside(fs, k, fs[k].index, true))
    && (forall i :: ToolOpened(fs, i) ==> ParseArguments(decode, Chunks(fs, i)).Some?)
  }

  ghost predicate Grammar(decode: Decoder, fs: seq<Frame>) {
    Bracketed(decode, fs) && exists s, m, t :: Framed(fs, s, m, t)
  }

  // ---------- Prefixes ----------

  lemma {:induction false} InPrefix(fs: seq<Frame>, n: nat, k: nat)
    requires k < n <= |fs|
    ensures fs[k] in fs[..n]
  {
    assert fs[..n][k] == fs[k];
  }

  lemma {:induction false} PositionOf(fs: seq<Frame>, n: nat, f: Frame) returns (k: nat)
    requires n <= |fs| && f in fs[..n]
    ensures k < n && fs[k] == f
  {
    k :| 0 <= k < n && fs[..n][k] == f;
  }

  lemma {:induction false} PrefixFlags(fs: seq<Frame>, n: nat)
    requires n <= |fs|
    ensures Started(fs[..n]) <==> exists k :: k < n && StartAt(fs, k)
    ensures Stopped(fs[..n]) <==> exists k :: k < n && StopAt(fs, k)
    ensures Reasoned(fs[..n]) <==> exists k :: k < n && ReasonAt(fs, k)
  {
    if Started(fs[..n]) {
      var f :| f in fs[..n] && f.MessageStart?;
      var k := PositionOf(fs, n, f);
      assert StartAt(fs, k);
    }
    if Stopped(fs[..n]) {
      var k := PositionOf(fs, n, MessageStop);
      assert StopAt(fs, k);
    }
    if Reasoned(fs[..n]) {
      var f :| f in fs[..n] && GivesReason(f);
      var k := PositionOf(fs, n, f);
      assert ReasonAt(fs, k);
    }
    forall k | 0 <= k < n
      ensures fs[k] in fs[..n]
    {
      InPrefix(fs, n, k);
    }
  }

  lemma {:induction false} PrefixBlocks(fs: seq<Frame>, n: nat, i: real)
    requires n <= |fs|
    ensures Opened(fs[..n], i) <==> exists a :: a < n && OpenAt(fs, a, i)
    ensures ToolOpened(fs[..n], i) <==> exists a :: a < n && OpenAt(fs, a, i) && fs[a].kind == "tool_use"
    ensures Closed(fs[..n], i) <==> exists z :: z < n && CloseAt(fs, z, i)
  {
    if Opened(fs[..n], i) {
      var f :| f in fs[..n] && OpensBlock(f, i);
      var k := PositionOf(fs, n, f);
      assert OpenAt(fs, k, i);
    }
    if ToolOpened(fs[..n], i) {
      var f :| f in fs[..n] && OpensTool(f, i);
      var k := PositionOf(fs, n, f);
      assert OpenAt(fs, k, i);
    }
    if Closed(fs[..n], i) {
      var k := PositionOf(fs, n, BlockStop(i));
      assert CloseAt(fs, k, i);
    }
    forall k | 0 <= k < n
      ensures fs[k] in fs[..n]
    {
      InPrefix(fs, n, k);
    }
  }

  lemma {:induction false} SameOpening(fs: seq<Frame>, a: int, b: int, i: real)
    requires OpenedOnce(fs) && OpenAt(fs, a, i) && OpenAt(fs, b, i)
    ensures a == b
  {}

  /** Pieces that come after position `n`, if there are none, do not matter. */
  lemma {:induction false} ChunksUpTo(fs: seq<Frame>, n: nat, m: nat, i: real)
    requires n <= m <= |fs| && forall k :: n <= k < m && fs[k].JsonFrame? ==> fs[k].index != i
    ensures Chunks(fs[..m], i) == Chunks(fs[..n], i)
  {
    if n < m {
      ChunksUpTo(fs, n, m - 1, i);
      assert fs[..m][..m - 1] == fs[..m - 1];
    }
  }

  // ---------- From frame by frame to the whole ----------

  lemma {:induction false} MarksAreUnique(decode: Decoder, fs: seq<Frame>, k: int)
    requires AllLegal(decode, fs) && 0 <= k < |fs|
    ensures StartAt(fs, k) ==> forall j :: j < k ==> !StartAt(fs, j)
    ensures ReasonAt(fs, k) ==> forall j :: j < k ==> !ReasonAt(fs, j)
    ensures StopAt(fs, k) || Inner(fs[k]) ==> forall j :: j < k ==> !StopAt(fs, j)
    ensures StopAt(fs, k) || Inner(fs[k]) ==> exists j :: j < k && StartAt(fs, j)
    ensures StopAt(fs, k) ==> exists j :: j < k && ReasonAt(fs, j)
    ensures !fs[k].Garbled? && !fs[k].ErrorFrame? && !fs[k].UnknownDelta?
  {
    assert Legal(decode, fs[..k], fs[k]);
    PrefixFlags(fs, k);
  }

  lemma {:induction false} LegalIsFramed(decode: Decoder, fs: seq<Frame>)
    requires AllLegal(decode, fs) && Stopped(fs)
    ensures exists s, m, t :: Framed(fs, s, m, t)
  {
    assert fs[..|fs|] == fs;
    var t := PositionOf(fs, |fs|, MessageStop);
    assert StopAt(fs, t);
    MarksAreUnique(decode, fs, t);
    var s :| s < t && StartAt(fs, s);
    var m :| m < t && ReasonAt(fs, m);
    MarksAreUnique(decode, fs, s);
    MarksAreUnique(decode, fs, m);
    forall k | 0 <= k < |fs|
      ensures StartAt(fs, k) ==> k == s
      ensures ReasonAt(fs, k) ==> k == m
      ensures StopAt(fs, k) ==> k == t
      ensures Inner(fs[k]) ==> s < k < t
      ensures !fs[k].Garbled? && !fs[k].ErrorFrame? && !fs[k].UnknownDelta?
    {
      MarksAreUnique(decode, fs, k);
    }
    assert Framed(fs, s, m, t);
  }

  lemma {:induction false} LegalOpening(decode: Decoder, fs: seq<Frame>, a: int, i: real)
    requires OpenedOnce(fs) && AllLegal(decode, fs) && Stopped(fs) && OpenAt(fs, a, i)
    ensures fs[a].kind != "" && (fs[a].kind == "tool_use" ==> fs[a].id != "" && fs[a].name != "")
    ensures ClosedLater(fs, a, i)
  {
    assert Legal(decode, fs[..a], fs[a]);
    assert fs[..|fs|] == fs;
    var t := PositionOf(fs, |fs|, MessageStop);
    assert Legal(decode, fs[..t], fs[t]);
    PrefixFlags(fs, a);
    assert StopAt(fs, t);
    assert a < t;
    PrefixBlocks(fs, t, i);
    var z :| z < t && CloseAt(fs, z, i);
    LegalClosing(decode, fs, z, i);
    var b :| b < z && OpenAt(fs, b, i);
    SameOpening(fs, a, b, i);
  }

  lemma {:induction false} ClosedBefore(decode: Decoder, fs: seq<Frame>, z: int, i: real, k: int)
    requires AllLegal(decode, fs) && CloseAt(fs, z, i) && z < k < |fs|
    ensures fs[k] != BlockStop(i) && (fs[k].JsonFrame? ==> fs[k].index != i)
  {
    assert Legal(decode, fs[..k], fs[k]);
    PrefixBlocks(fs, k, i);
  }

  lemma {:induction false} LegalClosing(decode: Decoder, fs: seq<Frame>, z: int, i: real)
    requires OpenedOnce(fs) && AllLegal(decode, fs) && CloseAt(fs, z, i)
    ensures OpenedEarlier(fs, z, i) && forall y :: CloseAt(fs, y, i) ==> y == z
    ensures ToolOpened(fs, i) ==> ParseArguments(decode, Chunks(fs, i)).Some?
  {
    assert OpenedEarlier(fs, z, i) by {
      assert Legal(decode, fs[..z], fs[z]);
      PrefixBlocks(fs, z, i);
    }
    forall y | CloseAt(fs, y, i)
      ensures y == z
    {
      if y < z {
        ClosedBefore(decode, fs, y, i, z);
      } else if z < y {
        ClosedBefore(decode, fs, z, i, y);
      }
    }
    ClosingParses(decode, fs, z, i);
  }

  lemma {:induction false} NoChunksAfter(decode: Decoder, fs: seq<Frame>, z: int, i: real)
    requires AllLegal(decode, fs) && CloseAt(fs, z, i)
    ensures Chunks(fs, i) == Chunks(fs[..z], i)
  {
    forall k | z <= k < |fs| && fs[k].JsonFrame?
      ensures fs[k].index != i
    {
      ClosedBefore(decode, fs, z, i, k);
    }
    assert fs[..|fs|] == fs;
    ChunksUpTo(fs, z, |fs|, i);
  }

  lemma {:induction false} ToolSinceOpening(fs: seq<Frame>, z: int, i: real)
    requires OpenedOnce(fs) && OpenedEarlier(fs, z, i) && 0 <= z <= |fs|
    ensures ToolOpened(fs, i) ==> ToolOpened(fs[..z], i)
  {
    assert fs[..|fs|] == fs;
    PrefixBlocks(fs, |fs|, i);
    PrefixBlocks(fs, z, i);
    if ToolOpened(fs, i) {
      var a :| a < |fs| && OpenAt(fs, a, i) && fs[a].kind == "tool_use";
      var b :| b < z && OpenAt(fs, b, i);
      SameOpening(fs, a, b, i);
    }
  }

  lemma {:induction false} ClosingParses(decode: Decoder, fs: seq<Frame>, z: int, i: real)
    requires OpenedOnce(fs) && AllLegal(decode, fs) && CloseAt(fs, z, i) && OpenedEarlier(fs, z, i)
    ensures ToolOpened(fs, i) ==> ParseArguments(decode, Chunks(fs, i)).Some?
  {
    NoChunksAfter(decode, fs, z, i);
    ToolSinceOpening(fs, z, i);
    assert Legal(decode, fs[..z], fs[z]);
  }

  lemma {:induction false} LegalInside(decode: Decoder, fs: seq<Frame>, k: int, i: real)
    requires OpenedOnce(fs) && AllLegal(decode, fs) && 0 <= k < |fs|
    requires fs[k].TextFrame? || fs[k].JsonFrame?
    requires i == fs[k].index
    ensures Inside(fs, k, i, fs[k].JsonFrame?)
  {
    assert Legal(decode, fs[..k], fs[k]);
    PrefixBlocks(fs, k, i);
  }

  lemma {:induction false} LegalIsBracketed(decode: Decoder, fs: seq<Frame>)
    requires OpenedOnce(fs) && AllLegal(decode, fs) && Stopped(fs)
    ensures Bracketed(decode, fs)
  {
    forall a, i | OpenAt(fs, a, i)
      ensures fs[a].kind != "" && (fs[a].kind == "tool_use" ==> fs[a].id != "" && fs[a].name != "")
              && ClosedLater(fs, a, i)
    {
      LegalOpening(decode, fs, a, i);
    }
    forall z, i | CloseAt(fs, z, i)
      ensures OpenedEarlier(fs, z, i) && forall y :: CloseAt(fs, y, i) ==> y == z
    {
      LegalClosing(decode, fs, z, i);
    }
    forall k | 0 <= k < |fs| && (fs[k].TextFrame? || fs[k].JsonFrame?)
      ensures Inside(fs, k, fs[k].index, fs[k].JsonFrame?)
    {
      LegalInside(decode, fs, k, fs[k].index);
    }
    assert fs[..|fs|] == fs;
    forall i | ToolOpened(fs, i)
      ensures ParseArguments(decode, Chunks(fs, i)).Some?
    {
      PrefixBlocks(fs, |fs|, i);
      var a :| a < |fs| && OpenAt(fs, a, i);
      LegalOpening(decode, fs, a, i);
      var z :| a < z && CloseAt(fs, z, i);
      LegalClosing(decode, fs, z, i);
    }
  }

  // ---------- From the whole to frame by frame ----------

  lemma {:induction false} FramedFlags(fs: seq<Frame>, s: int, m: int, t: int, n: nat)
    requires Framed(fs, s, m, t) && n <= |fs|
    ensures Started(fs[..n]) <==> s < n
    ensures Reasoned(fs[..n]) <==> m < n
    ensures Stopped(fs[..n]) <==> t < n
  {
    PrefixFlags(fs, n);
  }

  lemma {:induction false} BracketedOpening(decode: Decoder, fs: seq<Frame>, n: nat, i: real)
    requires OpenedOnce(fs) && Bracketed(decode, fs) && OpenAt(fs, n, i)
    ensures !Opened(fs[..n], i)
  {
    PrefixBlocks(fs, n, i);
  }

  lemma {:induction false} BracketedInside(decode: Decoder, fs: seq<Frame>, n: nat, i: real, tool: bool)
    requires OpenedOnce(fs) && n <= |fs| && Inside(fs, n, i, tool)
    ensures IsOpen(fs[..n], i) && (ToolOpened(fs[..n], i) <==> tool)
  {
    PrefixBlocks(fs, n, i);
    var a :| a < n && OpenAt(fs, a, i) && (fs[a].kind == "tool_use" <==> tool);
  }

  lemma {:induction false} BracketedClosing(decode: Decoder, fs: seq<Frame>, n: nat, i: real)
    requires OpenedOnce(fs) && Bracketed(decode, fs) && CloseAt(fs, n, i)
    ensures IsOpen(fs[..n], i) && (ToolOpened(fs[..n], i) ==> ParseArguments(decode, Chunks(fs[..n], i)).Some?)
  {
    PrefixBlocks(fs, n, i);
    var a :| a < n && OpenAt(fs, a, i);
    forall k | n <= k < |fs| && fs[k].JsonFrame?
      ensures fs[k].index != i
    {
      assert Inside(fs, k, fs[k].index, true);
    }
    assert fs[..|fs|] == fs;
    ChunksUpTo(fs, n, |fs|, i);
    PrefixBlocks(fs, |fs|, i);
  }

  lemma {:induction false} BracketedStop(decode: Decoder, fs: seq<Frame>, s: int, m: int, t: int)
    requires Bracketed(decode, fs) && Framed(fs, s, m, t)
    ensures AllClosed(fs[..t])
  {
    forall i | Opened(fs[..t], i)
      ensures Closed(fs[..t], i)
    {
      PrefixBlocks(fs, t, i);
      var a :| a < t && OpenAt(fs, a, i);
      assert ClosedLater(fs, a, i);
      var z :| a < z && CloseAt(fs, z, i);
      assert Inner(fs[z]);
    }
  }

  lemma {:induction false} GrammarIsLegal(decode: Decoder, fs: seq<Frame>, s: int, m: int, t: int, n: nat)
    requires OpenedOnce(fs) && Bracketed(decode, fs) && Framed(fs, s, m, t) && n < |fs|
    ensures Legal(decode, fs[..n], fs[n])
  {
    FramedFlags(fs, s, m, t, n);
    assert Inner(fs[n]) ==> Active(fs[..n]);
    match fs[n]
    case MessageStart(_) => assert StartAt(fs, n);
    case BlockStart(i, _, _, _) =>
      assert OpenAt(fs, n, i);
      BracketedOpening(decode, fs, n, i);
    case TextFrame(i, _) => BracketedInside(decode, fs, n, i, false);
    case JsonFrame(i, _) => BracketedInside(decode, fs, n, i, true);
    case BlockStop(i) =>
      assert CloseAt(fs, n, i);
      BracketedClosing(decode, fs, n, i);
    case MessageDelta(reason, _) => assert reason != "" ==> ReasonAt(fs, n);
    case MessageStop =>
      assert StopAt(fs, n);
      BracketedStop(decode, fs, s, m, t);
    case _ =>
  }

  /** As long as no block number is reused, what the parser accepts is exactly the language described above. */
  lemma {:induction false} AcceptedIffGrammatical(decode: Decoder, fs: seq<Frame>)
    requires OpenedOnce(fs)
    ensures AllLegal(decode, fs) && Stopped(fs) <==> Grammar(decode, fs)
  {
    if AllLegal(decode, fs) && Stopped(fs) {
      LegalIsFramed(decode, fs);
      LegalIsBracketed(decode, fs);
    }
    if Grammar(decode, fs) {
      var s, m, t :| Framed(fs, s, m, t);
      forall n | 0 <= n < |fs|
        ensures Legal(decode, fs[..n], fs[n])
      {
        GrammarIsLegal(decode, fs, s, m, t, n);
      }
      InPrefix(fs, |fs|, t);
      assert fs[..|fs|] == fs;
    }
  }
}
