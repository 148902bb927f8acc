/** The tail strategies and the tool-output cap, run before each projection: strategies.go. */
module Strategies {
  import opened Events
  import opened Mutations
  import opened Integrity
  import opened Visibility
  import opened Storage
  import opened Compaction
  import opened Protocol
  import opened Sequences

  // ---------- What a tail strategy replaces ----------

  /** Every message but the last `keepRecent`. */
  ghost function OldMessages(log: seq<Event>, keepRecent: nat): seq<int> {
    var messages := Messages(log, |log|);
    if |messages| <= keepRecent then [] else Seqs(messages[..|messages| - keepRecent])
  }

  ghost function TailCovers(log: seq<Event>, keepRecent: nat): seq<int> {
    Select(OldMessages(log, keepRecent), SafeSet(log, OldMessages(log, keepRecent)))
  }

  /** The old messages a tail strategy may replace: none if there are at most `keepRecent`. */
  method TailRange(log: seq<Event>, messages: seq<Event>, keepRecent: nat) returns (seqs: seq<int>)
    requires messages == Messages(log, |log|)
    ensures Dense(log) && ReferencesSound(log) ==> seqs == TailCovers(log, keepRecent)
  {
    var count := |messages| - keepRecent;
    if count <= 0 {
      return [];
    }
    seqs := ToolPairSafeRange(log, Seqs(messages[..count]));
  }

  /** The chosen event, if any, was appended, unless the log latched on the way. */
  twostate predicate Appended(log: Log, choice: Option<Body>)
    reads log
  {
    if choice == None || log.storageErr.Some? then log.events == old(log.events)
    else log.events == Extend(old(log.events), [choice.value])
  }

  /** The characters of what an event says in words: text, stop reason, ids, name, output and error. */
  function Characters(b: Body): (n: nat)
    ensures b.UserMessage? ==> n == |b.text|
    ensures b.AssistantMessage? ==> n == |b.text + b.stopReason|
    ensures b.ToolUse? ==> n == |b.id + b.name|
    ensures b.ToolResult? ==> n == |b.id + b.output + b.error|
  {
    match b
    case UserMessage(text) => |text|
    case AssistantMessage(text, stopReason, _) => |text| + |stopReason|
    case ToolUse(id, name, _) => |id| + |name|
    case ToolResult(id, output, error) => |id| + |output| + |error|
    case _ => 0
  }

  function TotalCharacters(events: seq<Event>): nat {
    if events == [] then 0 else TotalCharacters(events[..|events| - 1]) + Characters(events[|events| - 1].body)
  }

  method EstimateTokens(events: seq<Event>) returns (tokens: nat)
    ensures tokens == (TotalCharacters(events) + 3) / 4
  {
    var chars := 0;
    for i := 0 to |events|
      invariant chars == TotalCharacters(events[..i])
    {
      assert events[..i + 1][..i] == events[..i];
      chars := chars + Characters(events[i].body);
    }
    assert events[..|events|] == events;
    tokens := (chars + 3) / 4;
  }

  /** Conversion of a float to an integer: towards zero. */
  function Truncate(x: real): (n: int)
    ensures x >= 0.0 ==> n as real <= x < n as real + 1.0
    ensures x < 0.0 ==> n as real - 1.0 < x <= n as real
  {
    if x >= 0.0 then x.Floor else -(-x).Floor
  }

  datatype TokenMarkerTail = TokenMarkerTail(maxTokens: int, threshold: real, keepRecent: nat, render: (int, int,
                                             int) -> string) {

    function Trigger(): (n: int)
      ensures maxTokens == 0 && threshold == 0.0 ==> n == 85_000
    {
      Truncate((if maxTokens == 0 then 100000 else maxTokens) as real * if threshold == 0.0 then 0.85 else threshold)
    }

    /** What this strategy appends to a log whose messages exceed the trigger, if anything. */
    ghost function Choice(log: seq<Event>, trigger: int): Option<Body> {
      var estimated := (TotalCharacters(Messages(log, |log|)) + 3) / 4;
      var covers := TailCovers(log, keepRecent);
      if estimated <= trigger || covers == [] then None
      else Some(Compact(covers, render(|covers|, estimated, trigger)))
    }

    method OnPreProjection(log: Log)
      modifies log`events, log`storageErr, log.Sink()
      ensures Dense(old(log.events)) && ReferencesSound(old(log.events)) ==>
              Appended(log, Choice(old(log.events), Trigger()))
    {
      CompactAbove(log, Trigger());
    }

    method CompactAbove(log: Log, trigger: int)
      modifies log`events, log`storageErr, log.Sink()
      ensures Dense(old(log.events)) && ReferencesSound(old(log.events)) ==>
              Appended(log, Choice(old(log.events), trigger))
    {
      var choice := Choose(log.events, trigger);
      if choice.Some? {
        log.Append(choice.value);
      }
    }

    method Choose(log: seq<Event>, trigger: int) returns (choice: Option<Body>)
      ensures Dense(log) && ReferencesSound(log) ==> choice == Choice(log, trigger)
    {
      var messages := MessageEvents(log);
      var estimated := EstimateTokens(messages);
      if estimated <= trigger {
        return None;
      }
      var safeSeqs := TailRange(log, messages, keepRecent);
      if safeSeqs == [] {
        return None;
      }
      return Some(Compact(safeSeqs, render(|safeSeqs|, estimated, trigger)));
    }
  }

  // ---------- The summarising tail ----------

  ghost function Chosen(messages: seq<Event>, seqs: seq<int>): seq<Body> {
    if messages == [] then []
    else
      var last := messages[|messages| - 1];
      Chosen(messages[..|messages| - 1], seqs) + if last.seqNo in seqs then [last.body] else []
  }

  /** What the summariser's provider answers to a transcript, if anything usable. */
  type Summariser = seq<Event> -> Option<seq<Body>>

  /** The summary that comes of sending `sub`: the text of the last assistant message once the answer is added. */
  ghost function SummaryText(sub: seq<Event>, provider: Summariser): string {
    match provider(Effective(sub))
    case None => ""
    case Some(bodies) =>
      match LastAssistant(Extend(sub, bodies))
      case None => ""
      case Some(last) => last.body.text
  }

  datatype SummaryTail = SummaryTail(provider: Summariser, maxMessages: int, keepRecent: nat, prompt: string) {

    ghost function SubLog(log: seq<Event>): seq<Event> {
      Stamp(0, Chosen(Messages(log, |log|), TailCovers(log, keepRecent)) + [UserMessage(prompt)])
    }

    ghost function Choice(log: seq<Event>): Option<Body> {
      var covers := TailCovers(log, keepRecent);
      if |Messages(log, |log|)| <= Limit() || covers == [] then None
      else
        var summary := SummaryText(SubLog(log), provider);
        if summary == "" then None else Some(Compact(covers, summary))
    }

    function Limit(): (n: int)
      ensures n != 0 && (maxMessages == 0 ==> n == 20)
    {
      if maxMessages == 0 then 20 else maxMessages
    }

    method OnPreProjection(log: Log)
      modifies log`events, log`storageErr, log.Sink()
      ensures Dense(old(log.events)) && ReferencesSound(old(log.events)) ==> Appended(log, Choice(old(log.events)))
    {
      var messages := MessageEvents(log.events);
      if |messages| <= Limit() {
        return;
      }
      var safeSeqs := TailRange(log.events, messages, keepRecent);
      if safeSeqs == [] {
        return;
      }
      ghost var before := log.events;
      var summary := Summarize(log.events, messages, safeSeqs);
      assert log.events == before;
      if summary == "" {
        return;
      }
      log.Append(Compact(safeSeqs, summary));
    }

    /** Builds a private log of the chosen messages and asks the provider about it. The check that
        guards the call never refuses, so the only empty summaries are the provider's. */
    method Summarize(log: seq<Event>, messages: seq<Event>, seqs: seq<int>) returns (summary: string)
      requires messages == Messages(log, |log|)
      ensures Dense(log) && ReferencesSound(log) && seqs == TailCovers(log, keepRecent) ==>
                summary == SummaryText(SubLog(log), provider)
    {
      var subLog := BuildSubLog(messages, seqs);
      var prepared := PrepareProviderCall("ses_summary", subLog.events);
      if Dense(log) && ReferencesSound(log) && seqs == TailCovers(log, keepRecent) {
        assert subLog.events == SubLog(log);
        SubLogIsReady(log, keepRecent, prompt);
      }
      if prepared.Failure? {
        return "";
      }
      var answer := provider(prepared.value.transcript);
      if answer == None {
        return "";
      }
      summary := TextOfAnswer(subLog, answer.value);
    }

    method TextOfAnswer(subLog: Log, bodies: seq<Body>) returns (text: string)
      requires subLog.storage == null && subLog.storageErr == None
      modifies subLog
      ensures text == match LastAssistant(Extend(old(subLog.events),
              bodies)) case None => "" case Some(last) => last.body.text
    {
      ghost var sub := subLog.events;
      for i := 0 to |bodies|
        invariant subLog.storage == null && subLog.storageErr == None
        invariant subLog.events == Extend(sub, bodies[..i])
      {
        subLog.Append(bodies[i]);
      }
      assert bodies[..|bodies|] == bodies;
      var last := subLog.LastAssistantMessage();
      text := if last == None then "" else last.value.body.text;
    }

    method BuildSubLog(messages: seq<Event>, seqs: seq<int>) returns (subLog: Log)
      ensures fresh(subLog) && subLog.storage == null && subLog.storageErr == None
      ensures subLog.events == Stamp(0, Chosen(messages, seqs) + [UserMessage(prompt)])
    {
      subLog := new Log();
      for i := 0 to |messages|
        invariant fresh(subLog) && subLog.storage == null && subLog.storageErr == None
        invariant subLog.events == Stamp(0, Chosen(messages[..i], seqs))
      {
        assert messages[..i + 1][..i] == messages[..i];
        if messages[i].seqNo in seqs {
          subLog.Append(messages[i].body);
        }
      }
      assert messages[..|messages|] == messages;
      subLog.Append(UserMessage(prompt));
    }
  }

  // ---------- Why the private log is always accepted ----------

  /** Position `k` of the private log holds message `m` of the parent log, in the same order. */
  lemma {:induction false} ChosenComeFromMessages(log: seq<Event>, n: nat, messages: seq<Event>,
                                                  seqs: seq<int>) returns (source: seq<int>)
    requires Dense(log) && n <= |log| && messages == Messages(log, n)
    ensures |source| == |Chosen(messages, seqs)|
    ensures forall k :: 0 <= k < |source| ==> 0 <= source[k] < n && source[k] in seqs && log[source[k]] in messages
    ensures forall k :: 0 <= k < |source| ==> Chosen(messages, seqs)[k] == log[source[k]].body
    ensures forall j, k :: 0 <= j < k < |source| ==> source[j] < source[k]
    ensures forall i :: 0 <= i < n && log[i] in messages && i in seqs ==> i in source
  {
    if n == 0 {
      source := [];
    } else {
      var e := log[n - 1];
      source := ChosenComeFromMessages(log, n - 1, Messages(log, n - 1), seqs);
      if IsMessage(e.body) && !EverCovered(log, e.seqNo) {
        assert messages[..|messages| - 1] == Messages(log, n - 1);
        if e.seqNo in seqs {
          source := source + [n - 1];
        }
      }
    }
  }

  lemma {:induction false} OldMessagesAreMessages(log: seq<Event>, keepRecent: nat)
    requires Dense(log)
    ensures forall x :: x in OldMessages(log, keepRecent) ==> 0 <= x < |log| && log[x] in Messages(log, |log|)
  {
    var messages := Messages(log, |log|);
    var early := OldMessages(log, keepRecent);
    forall x | x in early
      ensures 0 <= x < |log| && log[x] in messages
    {
      var i :| 0 <= i < |early| && early[i] == x;
      assert messages[i].seqNo == x && messages[i] in messages;
    }
  }

  /** What a tail strategy replaces are messages, pair-safe, and none of the last `keepRecent`. */
  lemma {:induction false} TailCoversAreSafe(log: seq<Event>, keepRecent: nat)
    requires Dense(log) && ReferencesSound(log)
    ensures var covers := TailCovers(log, keepRecent);
            && PairSafe(log, SetOf(covers))
            && (forall x :: x in covers ==> 0 <= x < |log| && log[x] in Messages(log, |log|))
  {
    OldMessagesAreMessages(log, keepRecent);
    var early := OldMessages(log, keepRecent);
    var covers := TailCovers(log, keepRecent);
    SafeSetIsGreatest(log, early);
    assert SetOf(covers) == SafeSet(log, early);
  }

  /** Message `x` is none of the last `keepRecent`. */
  ghost predicate IsOld(log: seq<Event>, keepRecent: nat, x: int) {
    var messages := Messages(log, |log|);
    exists i :: 0 <= i < |messages| - keepRecent && messages[i].seqNo == x
  }

  /** It may go: so may its other half, if it is half of a pair. */
  ghost predicate MayGo(log: seq<Event>, keepRecent: nat, x: int) {
    && IsOld(log, keepRecent, x)
    && (forall id :: UseAt(log, x, id) ==> exists r :: ResultAt(log, r, id) && IsOld(log, keepRecent, r))
    && (forall id :: ResultAt(log, x, id) ==> exists u :: UseAt(log, u, id) && IsOld(log, keepRecent, u))
  }

  lemma {:induction false} OldMessagesAreOld(log: seq<Event>, keepRecent: nat)
    ensures forall x :: x in OldMessages(log, keepRecent) <==> IsOld(log, keepRecent, x)
  {
    var messages, early := Messages(log, |log|), OldMessages(log, keepRecent);
    forall x
      ensures x in early <==> IsOld(log, keepRecent, x)
    {
      if x in early {
        var i :| 0 <= i < |early| && early[i] == x;
        assert messages[i].seqNo == x;
      }
      if i :| 0 <= i < |messages| - keepRecent && messages[i].seqNo == x {
        assert early[i] == x;
      }
    }
  }

  /** A tail strategy replaces exactly the old messages that may go, in their order. */
  lemma {:induction false} TailCoversExactly(log: seq<Event>, keepRecent: nat)
    requires Dense(log)
    ensures forall x :: x in TailCovers(log, keepRecent) <==> MayGo(log, keepRecent, x)
    ensures Ascends(TailCovers(log, keepRecent))
  {
    OldMessagesAreOld(log, keepRecent);
    var early := OldMessages(log, keepRecent);
    assert forall x :: x in SafeSet(log, early) <==> MayReplace(log, early, x);
    forall x
      ensures MayReplace(log, early, x) <==> MayGo(log, keepRecent, x)
    {
      assert forall r :: r in early <==> IsOld(log, keepRecent, r);
    }
    TailCoversAscend(log, keepRecent);
  }

  ghost predicate Ascends(numbers: seq<int>) {
    forall i, j :: 0 <= i < j < |numbers| ==> numbers[i] < numbers[j]
  }

  lemma {:induction false} SelectAscends(candidates: seq<int>, keep: set<int>)
    requires Ascends(candidates)
    ensures Ascends(Select(candidates, keep))
  {
    var out := Select(candidates, keep);
    var at := SelectInOrder(candidates, keep, |candidates|);
    assert candidates[..|candidates|] == candidates;
    forall i, j | 0 <= i < j < |out|
      ensures out[i] < out[j]
    {
      assert KeptOf(candidates, keep)(at[i], out[i]) && KeptOf(candidates, keep)(at[j], out[j]);
      assert at[i] < at[j];
    }
  }

  lemma {:induction false} TailCoversAscend(log: seq<Event>, keepRecent: nat)
    requires Dense(log)
    ensures Ascends(TailCovers(log, keepRecent))
  {
    MessagesIncrease(log, |log|);
    var early, messages := OldMessages(log, keepRecent), Messages(log, |log|);
    assert forall i :: 0 <= i < |early| ==> early[i] == messages[i].seqNo;
    SelectAscends(early, SafeSet(log, early));
  }

  /** Something may go exactly if the covers are not empty. */
  lemma {:induction false} CoversIff(log: seq<Event>, keepRecent: nat)
    requires Dense(log)
    ensures TailCovers(log, keepRecent) != [] <==> exists x :: MayGo(log, keepRecent, x)
    ensures forall x :: x in TailCovers(log, keepRecent) <==> MayGo(log, keepRecent, x)
  {
    TailCoversExactly(log, keepRecent);
    var covers := TailCovers(log, keepRecent);
    if covers != [] {
      assert covers[0] in covers;
    }
  }

  lemma {:induction false} Quarter(chars: nat, tokens: int)
    ensures (chars + 3) / 4 > tokens <==> chars > 4 * tokens
  {}

  /** The token strategy acts exactly if the messages hold more than four characters for each token of the trigger and
      some old message may go. */
  lemma {:induction false} CompactsIffAbove(tail: TokenMarkerTail, log: seq<Event>, trigger: int)
    requires Dense(log)
    ensures tail.Choice(log, trigger).Some? <==>
              TotalCharacters(Messages(log, |log|)) > 4 * trigger && exists x :: MayGo(log, tail.keepRecent, x)
  {
    CoversIff(log, tail.keepRecent);
    Quarter(TotalCharacters(Messages(log, |log|)), trigger);
  }

  /** What it appends covers exactly what may go, and its text is rendered from the numbers. */
  lemma {:induction false} CompactsWhatMayGo(tail: TokenMarkerTail, log: seq<Event>, trigger: int, b: Body)
    requires Dense(log) && tail.Choice(log, trigger) == Some(b)
    ensures b.Compact? && forall x :: x in b.covers <==> MayGo(log, tail.keepRecent, x)
    ensures exists tokens :: 4 * tokens - 3 <= TotalCharacters(Messages(log, |log|)) <= 4 * tokens
                             && b.summary == tail.render(|b.covers|, tokens, trigger)
  {
    CoversIff(log, tail.keepRecent);
    RenderedFromNumbers(tail, log, trigger, b);
  }

  lemma {:induction false} RenderedFromNumbers(tail: TokenMarkerTail, log: seq<Event>, trigger: int, b: Body)
    requires tail.Choice(log, trigger) == Some(b)
    ensures b.Compact? && b.covers == TailCovers(log, tail.keepRecent)
    ensures exists tokens :: 4 * tokens - 3 <= TotalCharacters(Messages(log, |log|)) <= 4 * tokens
                             && b.summary == tail.render(|b.covers|, tokens, trigger)
  {
    var tokens := (TotalCharacters(Messages(log, |log|)) + 3) / 4;
    assert b.summary == tail.render(|b.covers|, tokens, trigger);
  }

  /** The summary is the text of the last assistant message the provider answers with. */
  lemma {:induction false} SummaryMeans(sub: seq<Event>, provider: Summariser, bodies: seq<Body>, i: nat)
    requires provider(Effective(sub)) == Some(bodies) && i < |bodies| && bodies[i].AssistantMessage?
    requires forall k :: i < k < |bodies| ==> !bodies[k].AssistantMessage?
    ensures SummaryText(sub, provider) == bodies[i].text
  {
    var all := Extend(sub, bodies);
    assert all[|sub| + i].body == bodies[i];
    assert LastAssistantAt(all, |sub| + i);
    forall j | LastAssistantAt(all, j)
      ensures j == |sub| + i
    {}
    var j :| LastAssistantAt(all, j) && LastAssistant(all) == Some(all[j]);
  }

  /** The summarising strategy acts exactly if there are more messages than its limit, some old message may go and the
      provider has something to say about those that may. */
  lemma {:induction false} SummarisesIffAbove(tail: SummaryTail, log: seq<Event>)
    requires Dense(log)
    ensures tail.Choice(log).Some? <==>
              && |Messages(log, |log|)| > (if tail.maxMessages == 0 then 20 else tail.maxMessages)
              && (exists x :: MayGo(log, tail.keepRecent, x))
              && SummaryText(tail.SubLog(log), tail.provider) != ""
    ensures tail.Choice(log).Some? ==>
              var b := tail.Choice(log).value;
              b.Compact? && b.summary == SummaryText(tail.SubLog(log), tail.provider)
              && forall x :: x in b.covers <==> MayGo(log, tail.keepRecent, x)
  {
    CoversIff(log, tail.keepRecent);
  }

  ghost predicate Increasing(events: seq<Event>) {
    forall i, j :: 0 <= i < j < |events| ==> events[i].seqNo < events[j].seqNo
  }

  lemma {:induction false} MessagesIncrease(log: seq<Event>, n: nat)
    requires Dense(log) && n <= |log|
    ensures forall e :: e in Messages(log, n) ==> 0 <= e.seqNo < n
    ensures Increasing(Messages(log, n))
  {
    if n > 0 {
      MessagesIncrease(log, n - 1);
      var e := log[n - 1];
      assert Messages(log, n) == Messages(log, n - 1) + if IsMessage(e.body)
          && !EverCovered(log, e.seqNo) then [e] else [];
    }
  }

  /** The last `keepRecent` messages are never replaced. */
  lemma {:induction false} TailKeepsRecent(log: seq<Event>, keepRecent: nat)
    requires Dense(log)
    ensures var messages := Messages(log, |log|);
            forall i :: 0 <= i < |messages| && |messages| - keepRecent <= i ==>
                messages[i].seqNo !in TailCovers(log, keepRecent)
  {
    MessagesIncrease(log, |log|);
    var messages := Messages(log, |log|);
    var early := OldMessages(log, keepRecent);
    forall i | 0 <= i < |messages| && |messages| - keepRecent <= i
      ensures messages[i].seqNo !in early
    {
      assert forall j :: 0 <= j < |early| ==> early[j] == messages[j].seqNo;
    }
  }

  /** A use that still waits for its result is never replaced. */
  lemma {:induction false} TailKeepsUnresolved(log: seq<Event>, keepRecent: nat)
    requires Dense(log) && ReferencesSound(log)
    ensures forall u, id :: UseAt(log, u, id) && !HasResult(log, id) ==> u !in TailCovers(log, keepRecent)
  {
    TailCoversAreSafe(log, keepRecent);
  }

  /** Appending what a tail strategy chooses keeps an exactly paired transcript exactly paired. */
  lemma {:induction false} TailKeepsPairing(log: seq<Event>, keepRecent: nat, summary: string)
    requires Dense(log) && ReferencesSound(log) && TailCovers(log, keepRecent) != []
    ensures var after := Extend(log, [Compact(TailCovers(log, keepRecent), summary)]);
            && Dense(after) && ReferencesSound(after)
            && (ExactlyPaired(Effective(log)) ==> ExactlyPaired(Effective(after)))
  {
    TailCoversAreSafe(log, keepRecent);
    PairSafeCompactKeepsPairing(log, TailCovers(log, keepRecent), summary);
  }

  /** Position `k` of `sub` holds the body of event `source[k]` of `log`; whatever else `sub` holds is no tool event. */
  ghost predicate Excerpt(log: seq<Event>, sub: seq<Event>, source: seq<int>) {
    && Dense(log) && Dense(sub) && |source| <= |sub|
    && (forall k :: 0 <= k < |source| ==> 0 <= source[k] < |log| && sub[k].body == log[source[k]].body)
    && (forall k :: |source| <= k < |sub| ==> !IsToolEvent(sub[k].body))
    && (forall j, k :: 0 <= j < k < |source| ==> source[j] < source[k])
  }

  lemma {:induction false} ExcerptPositions(log: seq<Event>, sub: seq<Event>, source: seq<int>)
    requires Excerpt(log, sub, source)
    ensures forall k, id :: UseAt(sub, k, id) <==> 0 <= k < |source| && UseAt(log, source[k], id)
    ensures forall k, id :: ResultAt(sub, k, id) <==> 0 <= k < |source| && ResultAt(log, source[k], id)
  {}

  /** An excerpt of a sound log that keeps pairs together is itself exactly paired. */
  lemma {:induction false} PairSafeExcerpt(log: seq<Event>, sub: seq<Event>, source: seq<int>)
    requires ReferencesSound(log) && Excerpt(log, sub, source)
    requires PairSafe(log, SetOf(source))
    ensures ExactlyPaired(sub)
  {
    ExcerptPositions(log, sub, source);
    forall k, id | UseAt(sub, k, id)
      ensures HasResult(sub, id)
    {
      var r :| ResultAt(log, r, id) && r in source;
      var j :| 0 <= j < |source| && source[j] == r;
      assert ResultAt(sub, j, id);
    }
    forall k, id | ResultAt(sub, k, id)
      ensures UsedBefore(sub, k, id)
    {
      var x := source[k];
      assert ResultAt(log, x, id) && x in source;
      var u :| UseAt(log, u, id) && u in source;
      var v :| UseAt(log, v, id) && log[v].seqNo < log[x].seqNo;
      assert u == v < x;
      var j :| 0 <= j < |source| && source[j] == u;
      assert j < k;
      assert UseAt(sub, j, id);
    }
  }

  lemma {:induction false} SubLogIsExcerpt(log: seq<Event>, covers: seq<int>, prompt: string) returns (source: seq<int>)
    requires Dense(log)
    requires forall x :: x in covers ==> 0 <= x < |log| && log[x] in Messages(log, |log|)
    ensures Excerpt(log, Stamp(0, Chosen(Messages(log, |log|), covers) + [UserMessage(prompt)]), source)
    ensures forall x :: x in source <==> x in covers
    ensures forall b :: b in Chosen(Messages(log, |log|), covers) ==> !b.Compact? && !b.Revert?
  {
    var messages := Messages(log, |log|);
    source := ChosenComeFromMessages(log, |log|, messages, covers);
    ChosenMutateNothing(log, messages, Chosen(messages, covers), source);
  }

  lemma {:induction false} ChosenMutateNothing(log: seq<Event>, messages: seq<Event>, bodies: seq<Body>,
                                               source: seq<int>)
    requires forall e :: e in messages ==> IsMessage(e.body)
    requires |source| == |bodies|
    requires forall k :: 0 <= k < |source| ==>
             0 <= source[k] < |log| && log[source[k]] in messages && log[source[k]].body == bodies[k]
    ensures forall b :: b in bodies ==> !b.Compact? && !b.Revert?
  {
    forall b | b in bodies
      ensures !b.Compact? && !b.Revert?
    {
      var k :| 0 <= k < |bodies| && bodies[k] == b;
      assert log[source[k]] in messages;
    }
  }

  /** The summariser's private log passes the check every provider call must pass. */
  lemma {:induction false} SubLogIsReady(log: seq<Event>, keepRecent: nat, prompt: string)
    requires Dense(log) && ReferencesSound(log)
    ensures var chosen := Chosen(Messages(log, |log|), TailCovers(log, keepRecent));
            ProviderReady(Stamp(0, chosen + [UserMessage(prompt)]))
  {
    var covers := TailCovers(log, keepRecent);
    var sub := Stamp(0, Chosen(Messages(log, |log|), covers) + [UserMessage(prompt)]);
    TailCoversAreSafe(log, keepRecent);
    var source := SubLogIsExcerpt(log, covers, prompt);
    assert SetOf(source) == SetOf(covers);
    PairSafeExcerpt(log, sub, source);
    PairedWithoutMutations(sub);
  }

  lemma {:induction false} PairedWithoutMutations(log: seq<Event>)
    requires ExactlyPaired(log)
    requires forall k :: 0 <= k < |log| ==> !log[k].body.Compact? && !log[k].body.Revert?
    ensures ProviderReady(log)
  {
    WithoutMutations(log, |log|);
    assert log[..|log|] == log;
  }

  // ---------- Capping large tool outputs ----------

  /** Events no compact, revoked or not, ever listed; compacts themselves excluded. */
  ghost function Untouched(log: seq<Event>, n: nat): seq<Event>
    requires n <= |log|
  {
    if n == 0 then []
    else if log[n - 1].body.Compact? || EverCovered(log, log[n - 1].seqNo) then Untouched(log, n - 1)
    else Untouched(log, n - 1) + [log[n - 1]]
  }

  ghost function UntouchedOf(log: seq<Event>): (int, Event) -> bool {
    (i, e) => 0 <= i < |log| && e == log[i] && !e.body.Compact? && !EverCovered(log, e.seqNo)
  }

  lemma {:induction false} UntouchedInOrder(log: seq<Event>, n: nat) returns (at: seq<nat>)
    requires n <= |log|
    ensures Placed(n, Untouched(log, n), at, UntouchedOf(log))
  {
    if n == 0 {
      at := [];
    } else {
      var k := n - 1;
      at := UntouchedInOrder(log, k);
      if log[k].body.Compact? || EverCovered(log, log[k].seqNo) {
        PlaceNone(k, Untouched(log, k), at, UntouchedOf(log));
      } else {
        PlaceOne(k, Untouched(log, k), at, UntouchedOf(log), log[k]);
        at := at + [k];
      }
    }
  }

  method EffectiveEvents(log: seq<Event>) returns (events: seq<Event>)
    ensures events == Untouched(log, |log|)
  {
    var replaced := ReplacedSeqs(log);
    events := [];
    for i := 0 to |log|
      invariant events == Untouched(log, i)
    {
      if !log[i].body.Compact? && log[i].seqNo !in replaced {
        events := events + [log[i]];
      }
    }
  }

  method IndexToolUses(log: seq<Event>) returns (uses: map<string, Event>)
    ensures forall id :: id in uses <==> HasUse(log, id)
    ensures forall u, id :: LastUse(log, |log|, u, id) ==> id in uses && uses[id] == log[u]
  {
    uses := map[];
    for i := 0 to |log|
      invariant forall id :: id in uses <==> EarlierUse(log, i, id)
      invariant forall u, id :: LastUse(log, i, u, id) ==> id in uses && uses[id] == log[u]
    {
      if log[i].body.ToolUse? {
        assert UseAt(log, i, log[i].body.id);
        uses := uses[log[i].body.id := log[i]];
      }
    }
    assert forall id :: HasUse(log, id) <==> EarlierUse(log, |log|, id);
  }

  datatype ToolOutputCap = ToolOutputCap(maxBytes: int, render: (Event, string) -> string) {

    function Limit(): (n: int)
      ensures n != 0 && (maxBytes == 0 ==> n == 4096)
    {
      if maxBytes == 0 then 4096 else maxBytes
    }

    /** What the strategy appends on account of event `e`: a compact over the pair it completes. */
    ghost function Cap(log: seq<Event>, e: Event): seq<Body> {
      if !e.body.ToolResult? || |e.body.output| <= Limit() then []
      else if exists u :: LastUse(log, |log|, u, e.body.id) then
        var u :| LastUse(log, |log|, u, e.body.id);
        [Compact([log[u].seqNo, e.seqNo], render(log[u], e.body.output))]
      else []
    }

    ghost function Caps(log: seq<Event>, events: seq<Event>): seq<Body> {
      if events == [] then [] else Caps(log, events[..|events| - 1]) + Cap(log, events[|events| - 1])
    }

    method OnPreProjection(log: Log)
      modifies log`events, log`storageErr, log.Sink()
      ensures var caps := Caps(old(log.events), Untouched(old(log.events), |old(log.events)|));
              && PartAppended(old(log.events), log.events, caps)
              && (log.storageErr == None ==> log.events == Extend(old(log.events), caps))
    {
      ghost var before := log.events;
      var toolUses := IndexToolUses(log.events);
      var events := EffectiveEvents(log.events);
      PartOfNothing(before);
      for i := 0 to |events|
        invariant log.storageErr == None ==> log.events == Extend(before, Caps(before, events[..i]))
        invariant PartAppended(before, log.events, Caps(before, events[..i]))
      {
        assert events[..i + 1][..i] == events[..i];
        ghost var caps := Caps(before, events[..i]);
        ghost var now := log.events;
        CapEvent(log, toolUses, events[i], before);
        assert Caps(before, events[..i + 1]) == caps + Cap(before, events[i]);
        PartGrows(before, now, caps, Cap(before, events[i]));
      }
      assert events[..|events|] == events;
    }

    method CapEvent(log: Log, toolUses: map<string, Event>, event: Event, ghost before: seq<Event>)
      requires forall id :: id in toolUses <==> HasUse(before, id)
      requires forall u, id :: LastUse(before, |before|, u, id) ==> id in toolUses && toolUses[id] == before[u]
      modifies log`events, log`storageErr, log.Sink()
      ensures log.storageErr == None ==> log.events == Extend(old(log.events), Cap(before, event))
      ensures log.storageErr.Some? ==> log.events == old(log.events)
      ensures old(log.storageErr.Some?) ==> log.storageErr.Some?
    {
      LastUseExists(before, event.body);
      assert Extend(log.events, []) == log.events;
      if event.body.ToolResult? && |event.body.output| > Limit() && event.body.id in toolUses {
        var use := toolUses[event.body.id];
        log.Append(Compact([use.seqNo, event.seqNo], render(use, event.body.output)));
      }
    }
  }

  /** Event `i` is a result over the limit whose use is in the log, and `b` the compact over the two. */
  ghost function CapsOf(cap: ToolOutputCap, log: seq<Event>, events: seq<Event>): (int, Body) -> bool {
    (i, b) =>
      && 0 <= i < |events| && events[i].body.ToolResult? && |events[i].body.output| > cap.Limit()
      && exists u :: LastUse(log, |log|, u, events[i].body.id)
                     && b == Compact([log[u].seqNo, events[i].seqNo], cap.render(log[u], events[i].body.output))
  }

  /** Exactly the oversized outputs are capped, in order, one compact each. */
  lemma {:induction false} CapsInOrder(cap: ToolOutputCap, log: seq<Event>, events: seq<Event>, n: nat)
    returns (at: seq<nat>)
    requires n <= |events|
    ensures Placed(n, cap.Caps(log, events[..n]), at, CapsOf(cap, log, events))
  {
    if n == 0 {
      at := [];
    } else {
      var k := n - 1;
      at := CapsInOrder(cap, log, events, k);
      var before, more := cap.Caps(log, events[..k]), cap.Cap(log, events[k]);
      assert events[..n][..k] == events[..k];
      CapIsOne(cap, log, events, k);
      if more == [] {
        PlaceNone(k, before, at, CapsOf(cap, log, events));
        assert before + more == before;
      } else {
        PlaceOne(k, before, at, CapsOf(cap, log, events), more[0]);
        assert before + more == before + [more[0]];
        at := at + [k];
      }
    }
  }

  lemma {:induction false} CapIsOne(cap: ToolOutputCap, log: seq<Event>, events: seq<Event>, k: nat)
    requires k < |events|
    ensures var more := cap.Cap(log, events[k]);
            if more == [] then forall b :: !CapsOf(cap, log, events)(k, b)
            else |more| == 1 && CapsOf(cap, log, events)(k, more[0])
  {
    LastUseExists(log, events[k].body);
  }

  /** Some of `bodies`, from the front, were appended. */
  ghost predicate PartAppended(before: seq<Event>, after: seq<Event>, bodies: seq<Body>) {
    exists k :: 0 <= k <= |bodies| && after == Extend(before, bodies[..k])
  }

  lemma {:induction false} PartOfNothing(before: seq<Event>)
    ensures PartAppended(before, before, [])
  {
    assert Extend(before, [][..0]) == before;
  }

  lemma {:induction false} PartGrows(before: seq<Event>, now: seq<Event>, bodies: seq<Body>, more: seq<Body>)
    ensures PartAppended(before, now, bodies) ==> PartAppended(before, now, bodies + more)
    ensures now == Extend(before, bodies) ==>
              Extend(now, more) == Extend(before, bodies + more)
                && PartAppended(before, Extend(now, more), bodies + more)
  {
    if k :| 0 <= k <= |bodies| && now == Extend(before, bodies[..k]) {
      assert (bodies + more)[..k] == bodies[..k];
    }
    if now == Extend(before, bodies) {
      ExtendTwice(before, bodies, more);
      assert (bodies + more)[..|bodies + more|] == bodies + more;
    }
  }

  lemma {:induction false} LastUseExists(log: seq<Event>, b: Body)
    ensures b.ToolResult? && HasUse(log, b.id) ==> exists u :: LastUse(log, |log|, u, b.id)
    ensures b.ToolResult? ==> forall u, v :: LastUse(log, |log|, u, b.id) && LastUse(log, |log|, v, b.id) ==> u == v
  {
    if b.ToolResult? && HasUse(log, b.id) {
      var u :| UseAt(log, u, b.id);
      while exists k :: u < k && UseAt(log, k, b.id)
        invariant UseAt(log, u, b.id)
        decreases |log| - u
      {
        var k :| u < k && UseAt(log, k, b.id);
        u := k;
      }
      assert LastUse(log, |log|, u, b.id);
    }
  }

  ghost predicate PairSafeCompacts(log: seq<Event>, bodies: seq<Body>) {
    forall b :: b in bodies ==> b.Compact? && SafeCompact(log, b.covers)
  }

  lemma {:induction false} UntouchedAreFromLog(log: seq<Event>, n: nat)
    requires Dense(log) && n <= |log|
    ensures forall e :: e in Untouched(log, n) ==> 0 <= e.seqNo < n && e == log[e.seqNo]
  {
    if n > 0 {
      UntouchedAreFromLog(log, n - 1);
    }
  }

  lemma {:induction false} CapsArePairSafe(log: seq<Event>, cap: ToolOutputCap, events: seq<Event>)
    requires Dense(log) && ReferencesSound(log)
    requires forall e :: e in events ==> 0 <= e.seqNo < |log| && e == log[e.seqNo]
    ensures PairSafeCompacts(log, cap.Caps(log, events))
  {
    if events != [] {
      CapsArePairSafe(log, cap, events[..|events| - 1]);
      var e := events[|events| - 1];
      if cap.Cap(log, e) != [] {
        var covers := cap.Cap(log, e)[0].covers;
        var u :| LastUse(log, |log|, u, e.body.id);
        LastUseExists(log, e.body);
        assert covers == [u, e.seqNo];
        assert ResultAt(log, e.seqNo, e.body.id) && UseAt(log, u, e.body.id);
        assert PairSafe(log, SetOf(covers));
      }
    }
  }

  lemma {:induction false} PairSafeCompactsKeepPairing(log: seq<Event>, bodies: seq<Body>)
    requires Dense(log) && ReferencesSound(log) && PairSafeCompacts(log, bodies)
    ensures Dense(Extend(log, bodies)) && ReferencesSound(Extend(log, bodies))
    ensures ExactlyPaired(Effective(log)) ==> ExactlyPaired(Effective(Extend(log, bodies)))
  {
    if bodies == [] {
      assert Extend(log, bodies) == log;
    } else {
      var most, last := bodies[..|bodies| - 1], bodies[|bodies| - 1];
      assert bodies == most + [last];
      PairSafeCompactsKeepPairing(log, most);
      var now := Extend(log, most);
      assert forall i :: |log| <= i < |now| ==> now[i].body == most[i - |log|] && most[i - |log|] in bodies;
      QuietAppend(log, now);
      assert PairSafe(now, SetOf(last.covers));
      PairSafeCompactKeepsPairing(now, last.covers, last.summary);
      ExtendTwice(log, most, [last]);
    }
  }

  /** However far the cap gets before the log latches, an exactly paired transcript stays exactly paired. */
  lemma {:induction false} CapsKeepPairing(log: seq<Event>, cap: ToolOutputCap, after: seq<Event>)
    requires Dense(log) && ReferencesSound(log)
    requires PartAppended(log, after, cap.Caps(log, Untouched(log, |log|)))
    ensures Dense(after) && ReferencesSound(after)
    ensures ExactlyPaired(Effective(log)) ==> ExactlyPaired(Effective(after))
  {
    var caps := cap.Caps(log, Untouched(log, |log|));
    UntouchedAreFromLog(log, |log|);
    CapsArePairSafe(log, cap, Untouched(log, |log|));
    var k :| 0 <= k <= |caps| && after == Extend(log, caps[..k]);
    PairSafeCompactsKeepPairing(log, caps[..k]);
  }

  // ---------- Strategies are steps of the disciplined protocol ----------

  /** What a tail strategy appends, a session may append under the strict discipline. */
  lemma {:induction false} TailStepIsOrderly(log: seq<Event>, keepRecent: nat, summary: string)
    requires Sound(log) && TailCovers(log, keepRecent) != []
    ensures Enabled(log, Mutate(Compact(TailCovers(log, keepRecent), summary)), true)
  {
    TailCoversAreSafe(log, keepRecent);
  }

  lemma {:induction false} OneMoreCompact(log: seq<Event>, most: seq<Body>, last: Body)
    requires last.Compact? && SafeCompact(log, last.covers) && Leads(log, Extend(log, most), true)
    ensures Leads(log, Extend(log, most + [last]), true)
  {
    var now := Extend(log, most);
    SafeCompactsStay(log, now, last.covers);
    var after := Extend(log, most + [last]);
    ExtendTwice(log, most, [last]);
    assert Leads(now, after, true) by {
      LeadsOnce(now, Mutate(last), true);
    }
    LeadsOn(log, now, after, true);
  }

  lemma {:induction false} SafeCompactsLead(log: seq<Event>, bodies: seq<Body>)
    requires PairSafeCompacts(log, bodies)
    ensures Leads(log, Extend(log, bodies), true)
  {
    if bodies == [] {
      LeadsNowhere(log, true);
      assert Extend(log, bodies) == log;
    } else {
      var most, last := bodies[..|bodies| - 1], bodies[|bodies| - 1];
      assert bodies == most + [last];
      SafeCompactsLead(log, most);
      OneMoreCompact(log, most, last);
    }
  }

  /** However far the cap gets, it moves the session by steps of the strict discipline. */
  lemma {:induction false} CapsLeadOrderly(log: seq<Event>, cap: ToolOutputCap, after: seq<Event>)
    requires Sound(log)
    requires PartAppended(log, after, cap.Caps(log, Untouched(log, |log|)))
    ensures Leads(log, after, true)
  {
    var caps := cap.Caps(log, Untouched(log, |log|));
    UntouchedAreFromLog(log, |log|);
    CapsArePairSafe(log, cap, Untouched(log, |log|));
    var k :| 0 <= k <= |caps| && after == Extend(log, caps[..k]);
    SafeCompactsLead(log, caps[..k]);
  }
}
