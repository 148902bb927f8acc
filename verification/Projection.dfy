/** Rendering a transcript as an Anthropic request: projection_anthropic.go. Text and tool blocks only. */
module Projection {
  import opened Events
  import opened Mutations
  import opened Integrity
  import opened Visibility
  import opened Protocol
  import opened Sequences

  datatype Role = User | Assistant

  datatype Block =
    | TextBlock(text: string)
    | UseBlock(id: string, name: string, input: Arguments)
    | ResultBlock(id: string, content: string, isError: bool)

  datatype Group = Group(role: Role, blocks: seq<Block>)

  datatype Content = Plain(text: string) | Blocks(blocks: seq<Block>)

  datatype Message = Message(role: Role, content: Content) {
    function AllBlocks(): seq<Block> {
      match content
      case Plain(text) => [TextBlock(text)]
      case Blocks(blocks) => blocks
    }
  }

  // ---------- One event ----------

  /** What the provider is shown of an event, and under which role: the text of users, summaries and of assistants that
      said something; a use with its name and arguments; a result with its error, marked as one, or else its output. */
  predicate Renders(b: Body, role: Role, block: Block) {
    || ((b.UserMessage? || b.Summary?) && role == User && block == TextBlock(b.text))
    || (b.AssistantMessage? && b.text != "" && role == Assistant && block == TextBlock(b.text))
    || (b.ToolUse? && role == Assistant && block == UseBlock(b.id, b.name, b.arguments))
    || (b.ToolResult? && role == User && block.ResultBlock? && block.id == b.id
        && (block.isError <==> b.error != "") && block.content == if block.isError then b.error else b.output)
  }

  /** The blocks an event contributes. An assistant message without text contributes none. */
  function Translate(b: Body): (blocks: seq<Block>)
    ensures |blocks| <= 1 && forall role, block :: Renders(b, role, block) <==> role == RoleOf(b) && block in blocks
    ensures blocks != [] ==> AssistantRole(b) || UserRole(b)
    ensures UserRole(b) || b.ToolUse? ==> |blocks| == 1
  {
    match b
    case UserMessage(text) => [TextBlock(text)]
    case Summary(text) => [TextBlock(text)]
    case AssistantMessage(text, _, _) => if text == "" then [] else [TextBlock(text)]
    case ToolUse(id, name, arguments) => [UseBlock(id, name, arguments)]
    case ToolResult(id, output, error) => [ResultBlock(id, if error != "" then error else output, error != "")]
    case _ => []
  }

  function RoleOf(b: Body): Role {
    if AssistantRole(b) then Assistant else User
  }

  // ---------- Grouping ----------

  function Add(groups: seq<Group>, role: Role, blocks: seq<Block>): seq<Group> {
    if blocks == [] then groups
    else if groups != [] && groups[|groups| - 1].role == role then
      groups[|groups| - 1 := Group(role, groups[|groups| - 1].blocks + blocks)]
    else groups + [Group(role, blocks)]
  }

  function Groups(es: seq<Event>, n: nat): seq<Group>
    requires n <= |es|
  {
    if n == 0 then [] else Add(Groups(es, n - 1), RoleOf(es[n - 1].body), Translate(es[n - 1].body))
  }

  function Finalize(g: Group): (m: Message)
    ensures m.role == g.role && m.AllBlocks() == g.blocks
    ensures m.content.Plain? <==> |g.blocks| == 1 && g.blocks[0].TextBlock?
  {
    if |g.blocks| == 1 && g.blocks[0].TextBlock? then Message(g.role, Plain(g.blocks[0].text))
    else Message(g.role, Blocks(g.blocks))
  }

  function Messages(es: seq<Event>): (r: seq<Message>)
    ensures |r| == |Groups(es, |es|)|
    ensures forall k :: 0 <= k < |r| ==>
            r[k].role == Groups(es, |es|)[k].role && r[k].AllBlocks() == Groups(es, |es|)[k].blocks
  {
    var groups := Groups(es, |es|);
    seq(|groups|, k requires 0 <= k < |groups| => Finalize(groups[k]))
  }

  method Project(log: seq<Event>) returns (messages: seq<Message>)
    ensures messages == Messages(Effective(log))
    ensures Request(Effective(log), messages) && ShowsEach(Effective(log), messages)
  {
    var events := ApplyMutations(log);
    var groups := GroupByRole(events);
    messages := [];
    for k := 0 to |groups|
      invariant |messages| == k && forall i :: 0 <= i < k ==> messages[i] == Finalize(groups[i])
    {
      messages := messages + [Finalize(groups[k])];
    }
    assert messages == Messages(events);
    MessagesAreRequest(events);
    EachIsShown(events);
  }

  method GroupByRole(events: seq<Event>) returns (groups: seq<Group>)
    ensures groups == Groups(events, |events|)
  {
    groups := [];
    var current: Option<Group> := None;
    for i := 0 to |events|
      invariant Groups(events, i) == Closed(groups, current)
      invariant current == None ==> groups == []
    {
      var role, blocks := RoleOf(events[i].body), Translate(events[i].body);
      AddToCurrent(groups, current, role, blocks);
      if blocks != [] {
        if current.Some? && current.value.role == role {
          current := Some(Group(role, current.value.blocks + blocks));
        } else {
          groups := Closed(groups, current);
          current := Some(Group(role, blocks));
        }
      }
    }
    groups := Closed(groups, current);
  }

  /** The groups, once the one being filled is closed. */
  function Closed(groups: seq<Group>, current: Option<Group>): seq<Group> {
    if current == None then groups else groups + [current.value]
  }

  lemma {:induction false} AddToCurrent(groups: seq<Group>, current: Option<Group>, role: Role, blocks: seq<Block>)
    requires current == None ==> groups == []
    ensures Add(Closed(groups, current), role, blocks)
         == if blocks == [] then Closed(groups, current)
            else if current.Some? && current.value.role == role then
                groups + [Group(role, current.value.blocks + blocks)]
            else Closed(groups, current) + [Group(role, blocks)]
  {}

  /** A prepared transcript is projected as it is: mutations have been applied and applying them again changes
      nothing. */
  method ProjectPrepared(prepared: PreparedTranscript, ghost sessionID: string, ghost log: seq<Event>)
    returns (messages: seq<Message>)
    requires prepared.For(sessionID, log)
    ensures messages == Messages(Effective(log))
    ensures Request(Effective(log), messages) && ShowsEach(Effective(log), messages)
  {
    EffectiveIsIdempotent(log);
    messages := Project(prepared.transcript);
  }

  // ---------- Roles alternate and nothing is lost ----------

  ghost predicate Alternating(groups: seq<Group>) {
    forall i, j :: 0 <= i && j == i + 1 && j < |groups| ==> groups[i].role != groups[j].role
  }

  ghost predicate WellGrouped(groups: seq<Group>) {
    Alternating(groups) && forall g :: g in groups ==> g.blocks != []
  }

  /** Every block with the role it appears under, in order. */
  function Tagged(groups: seq<Group>): seq<(Role, Block)> {
    if groups == [] then []
    else
      var last := groups[|groups| - 1];
      Tagged(groups[..|groups| - 1]) + Tag(last.role, last.blocks)
  }

  function Tag(role: Role, blocks: seq<Block>): seq<(Role, Block)> {
    seq(|blocks|, i requires 0 <= i < |blocks| => (role, blocks[i]))
  }

  function TaggedEvents(es: seq<Event>, n: nat): seq<(Role, Block)>
    requires n <= |es|
  {
    if n == 0 then [] else TaggedEvents(es, n - 1) + Tag(RoleOf(es[n - 1].body), Translate(es[n - 1].body))
  }

  lemma {:induction false} TaggedLast(most: seq<Group>, last: Group)
    ensures Tagged(most + [last]) == Tagged(most) + Tag(last.role, last.blocks)
  {
    assert (most + [last])[..|most|] == most;
  }

  lemma {:induction false} TagSum(role: Role, a: seq<Block>, b: seq<Block>)
    ensures Tag(role, a + b) == Tag(role, a) + Tag(role, b)
  {}

  lemma {:induction false} AddKeepsGrouped(groups: seq<Group>, role: Role, blocks: seq<Block>)
    requires WellGrouped(groups)
    ensures WellGrouped(Add(groups, role, blocks))
  {}

  lemma {:induction false} AddToLast(groups: seq<Group>, most: seq<Group>, last: Group, blocks: seq<Block>)
    requires groups == most + [last] && blocks != []
    ensures Tagged(Add(groups, last.role, blocks)) == Tagged(groups) + Tag(last.role, blocks)
  {
    var longer := Group(last.role, last.blocks + blocks);
    assert Add(groups, last.role, blocks) == most + [longer];
    TaggedLast(most, last);
    TaggedLast(most, longer);
    TagSum(last.role, last.blocks, blocks);
  }

  lemma {:induction false} AddTags(groups: seq<Group>, role: Role, blocks: seq<Block>)
    ensures Tagged(Add(groups, role, blocks)) == Tagged(groups) + Tag(role, blocks)
  {
    if blocks == [] {
      assert |Tag(role, blocks)| == 0;
    } else if groups != [] && groups[|groups| - 1].role == role {
      var most, last := groups[..|groups| - 1], groups[|groups| - 1];
      AddToLast(groups, most, last, blocks);
    } else {
      TaggedLast(groups, Group(role, blocks));
    }
  }

  /** Neighbouring messages have different roles, no message is empty, and the messages hold exactly the events'
      blocks, in order and under the events' roles. */
  lemma {:induction false} NothingIsLost(es: seq<Event>, n: nat)
    requires n <= |es|
    ensures WellGrouped(Groups(es, n))
    ensures Tagged(Groups(es, n)) == TaggedEvents(es, n)
  {
    if n > 0 {
      var before, role, blocks := Groups(es, n - 1), RoleOf(es[n - 1].body), Translate(es[n - 1].body);
      NothingIsLost(es, n - 1);
      AddKeepsGrouped(before, role, blocks);
      AddTags(before, role, blocks);
      assert Groups(es, n) == Add(before, role, blocks);
    }
  }

  /** The tagged blocks end with `blocks` under `role`, and what comes before ends with the other role, if at all. */
  ghost predicate EndsAs(all: seq<(Role, Block)>, role: Role, blocks: seq<Block>) {
    var rest := |all| - |blocks|;
    && blocks != [] && rest >= 0
    && (forall i :: rest <= i < |all| ==> all[i] == (role, blocks[i - rest]))
    && (rest > 0 ==> all[rest - 1].0 != role)
  }

  lemma {:induction false} EndIsUnique(all: seq<(Role, Block)>, role: Role, blocks: seq<Block>, role': Role,
                                       blocks': seq<Block>)
    requires EndsAs(all, role, blocks) && EndsAs(all, role', blocks')
    ensures role == role' && blocks == blocks'
  {
    assert all[|all| - 1].0 == role == role';
    var rest, rest' := |all| - |blocks|, |all| - |blocks'|;
    assert rest == rest';
    forall i | 0 <= i < |blocks|
      ensures blocks[i] == blocks'[i]
    {
      assert all[rest + i] == (role, blocks[i]) == (role', blocks'[i]);
    }
  }

  lemma {:induction false} LastGroupEnds(rest: seq<Group>, last: Group)
    requires WellGrouped(rest + [last])
    ensures EndsAs(Tagged(rest + [last]), last.role, last.blocks)
    ensures Tagged(rest + [last]) == Tagged(rest) + Tag(last.role, last.blocks) && WellGrouped(rest)
  {
    var groups := rest + [last];
    assert groups[..|groups| - 1] == rest && last in groups;
    if rest != [] {
      var before := rest[|rest| - 1];
      assert before == groups[|rest| - 1] && before in groups && before.role != last.role;
      assert Tagged(rest) == Tagged(rest[..|rest| - 1]) + Tag(before.role, before.blocks);
    }
  }

  lemma {:induction false} SameLastGroup(a: seq<Group>, b: seq<Group>)
    requires WellGrouped(a) && WellGrouped(b) && Tagged(a) == Tagged(b) && a != [] && b != []
    ensures a[|a| - 1] == b[|b| - 1] && Tagged(a[..|a| - 1]) == Tagged(b[..|b| - 1])
    ensures WellGrouped(a[..|a| - 1]) && WellGrouped(b[..|b| - 1])
  {
    var all := Tagged(a);
    var (most, last) := (a[..|a| - 1], a[|a| - 1]);
    var (most', last') := (b[..|b| - 1], b[|b| - 1]);
    assert a == most + [last] && b == most' + [last'];
    LastGroupEnds(most, last);
    LastGroupEnds(most', last');
    EndIsUnique(all, last.role, last.blocks, last'.role, last'.blocks);
    assert Tagged(most) == all[..|all| - |last.blocks|];
    assert Tagged(most') == all[..|all| - |last.blocks|];
  }

  lemma {:induction false} NoBlocksNoGroups(groups: seq<Group>)
    requires WellGrouped(groups)
    ensures Tagged(groups) == [] <==> groups == []
  {
    if groups != [] {
      assert groups == groups[..|groups| - 1] + [groups[|groups| - 1]];
      LastGroupEnds(groups[..|groups| - 1], groups[|groups| - 1]);
    }
  }

  /** There is one way only to group tagged blocks into non-empty messages with alternating roles. */
  lemma {:induction false} GroupingIsUnique(a: seq<Group>, b: seq<Group>)
    requires WellGrouped(a) && WellGrouped(b) && Tagged(a) == Tagged(b)
    ensures a == b
  {
    NoBlocksNoGroups(a);
    NoBlocksNoGroups(b);
    if a != [] {
      SameLastGroup(a, b);
      var most, most' := a[..|a| - 1], b[..|b| - 1];
      GroupingIsUnique(most, most');
      assert a == most + [a[|a| - 1]] && b == most' + [b[|b| - 1]];
    }
  }

  // ---------- What a request says ----------

  /** What each event renders. */
  ghost function RenderingsOf(es: seq<Event>): (int, (Role, Block)) -> bool {
    (i: int, x: (Role, Block)) => 0 <= i < |es| && Renders(es[i].body, x.0, x.1)
  }

  function Tags(groups: seq<Group>): seq<seq<(Role, Block)>> {
    seq(|groups|, k requires 0 <= k < |groups| => Tag(groups[k].role, groups[k].blocks))
  }

  function GroupsIn(messages: seq<Message>): seq<Group> {
    seq(|messages|, k requires 0 <= k < |messages| => Group(messages[k].role, messages[k].AllBlocks()))
  }

  /** The messages, one after the other, say what the events render, in order and nothing else; roles alternate, no
      message is empty, and exactly a single text is plain. */
  ghost predicate Request(es: seq<Event>, messages: seq<Message>) {
    && WellGrouped(GroupsIn(messages))
    && (forall m :: m in messages ==> (m.content.Plain? <==> |m.AllBlocks()| == 1 && m.AllBlocks()[0].TextBlock?))
    && exists all, at :: Spells(all, Tags(GroupsIn(messages))) && Placed(|es|, all, at, RenderingsOf(es))
  }

  /** Whatever an event renders stands in some message under its role. */
  ghost predicate ShowsEach(es: seq<Event>, messages: seq<Message>) {
    forall e, role, block :: e in es && Renders(e.body, role, block) ==> Holds(messages, role, block)
  }

  ghost predicate Holds(messages: seq<Message>, role: Role, block: Block) {
    exists m :: m in messages && m.role == role && block in m.AllBlocks()
  }

  lemma {:induction false} EachIsShown(es: seq<Event>)
    ensures ShowsEach(es, Messages(es))
  {
    forall e, role, block | e in es && Renders(e.body, role, block)
      ensures Holds(Messages(es), role, block)
    {
      var k :| 0 <= k < |es| && es[k] == e;
      var m := |Groups(es, k + 1)| - 1;
      HeldInMessage(es, k, m);
      assert Messages(es)[m] in Messages(es);
    }
  }

  lemma {:induction false} RenderedInOrder(es: seq<Event>, n: nat) returns (at: seq<nat>)
    requires n <= |es|
    ensures Placed(n, TaggedEvents(es, n), at, RenderingsOf(es))
  {
    if n == 0 {
      at := [];
    } else {
      var before, role, blocks := TaggedEvents(es, n - 1), RoleOf(es[n - 1].body), Translate(es[n - 1].body);
      at := RenderedInOrder(es, n - 1);
      assert TaggedEvents(es, n) == before + Tag(role, blocks);
      if blocks == [] {
        assert before + Tag(role, blocks) == before;
        PlaceNone(n - 1, before, at, RenderingsOf(es));
      } else {
        assert Tag(role, blocks) == [(role, blocks[0])];
        PlaceOne(n - 1, before, at, RenderingsOf(es), (role, blocks[0]));
        at := at + [n - 1];
      }
    }
  }

  lemma {:induction false} TaggedSpells(groups: seq<Group>)
    ensures Spells(Tagged(groups), Tags(groups))
  {
    if groups == [] {
      SpellsNothing<(Role, Block)>();
      assert Tags(groups) == [];
    } else {
      var most, last := groups[..|groups| - 1], groups[|groups| - 1];
      TaggedSpells(most);
      SpellsMore(Tagged(most), Tags(most), Tag(last.role, last.blocks));
      assert Tags(groups) == Tags(most) + [Tag(last.role, last.blocks)];
    }
  }

  lemma {:induction false} MessagesAreRequest(es: seq<Event>)
    ensures Request(es, Messages(es))
  {
    var groups := Groups(es, |es|);
    assert GroupsIn(Messages(es)) == groups;
    NothingIsLost(es, |es|);
    TaggedSpells(groups);
    var at := RenderedInOrder(es, |es|);
  }

  /** Events have one request only. */
  lemma {:induction false} RequestIsUnique(es: seq<Event>, a: seq<Message>, b: seq<Message>)
    requires Request(es, a) && Request(es, b)
    ensures a == b
  {
    var all, at :| Spells(all, Tags(GroupsIn(a))) && Placed(|es|, all, at, RenderingsOf(es));
    var all', at' :| Spells(all', Tags(GroupsIn(b))) && Placed(|es|, all', at', RenderingsOf(es));
    PlacedIsUnique(|es|, all, at, all', at', RenderingsOf(es));
    TaggedSpells(GroupsIn(a));
    TaggedSpells(GroupsIn(b));
    SpellingIsUnique(all, Tagged(GroupsIn(a)), Tags(GroupsIn(a)));
    SpellingIsUnique(all, Tagged(GroupsIn(b)), Tags(GroupsIn(b)));
    GroupingIsUnique(GroupsIn(a), GroupsIn(b));
    SameGroupsSameMessages(a, b);
  }

  lemma {:induction false} SameGroupsSameMessages(a: seq<Message>, b: seq<Message>)
    requires GroupsIn(a) == GroupsIn(b)
    requires forall m :: m in a + b ==> (m.content.Plain? <==> |m.AllBlocks()| == 1 && m.AllBlocks()[0].TextBlock?)
    ensures a == b
  {
    assert |a| == |GroupsIn(a)| == |b|;
    forall k | 0 <= k < |a|
      ensures a[k] == b[k]
    {
      assert GroupsIn(a)[k] == GroupsIn(b)[k];
      assert a[k] in a + b && b[k] in a + b;
    }
  }

  // ---------- Which message holds an event ----------

  /** Messages grow, but neither their roles nor what they already hold changes. */
  ghost predicate GrowsInto(a: seq<Group>, b: seq<Group>) {
    && |a| <= |b|
    && forall k :: 0 <= k < |a| ==> a[k].role == b[k].role && a[k].blocks <= b[k].blocks
  }

  lemma {:induction false} AddGrows(groups: seq<Group>, role: Role, blocks: seq<Block>)
    ensures GrowsInto(groups, Add(groups, role, blocks))
  {}

  lemma {:induction false} GroupsGrow(es: seq<Event>, a: nat, b: nat)
    requires a <= b <= |es|
    ensures GrowsInto(Groups(es, a), Groups(es, b))
    decreases b
  {
    if a < b {
      GroupsGrow(es, a, b - 1);
      AddGrows(Groups(es, b - 1), RoleOf(es[b - 1].body), Translate(es[b - 1].body));
    }
  }

  /** Event `k` contributes its blocks to message `m`. */
  ghost predicate HeldBy(es: seq<Event>, k: int, m: int) {
    0 <= k < |es| && Translate(es[k].body) != [] && m == |Groups(es, k + 1)| - 1
  }

  lemma {:induction false} HeldInMessage(es: seq<Event>, k: int, m: int)
    requires HeldBy(es, k, m)
    ensures 0 <= m < |Messages(es)| && Messages(es)[m].role == RoleOf(es[k].body)
    ensures forall b :: b in Translate(es[k].body) ==> b in Messages(es)[m].AllBlocks()
  {
    var next := k + 1;
    AddHolds(Groups(es, k), RoleOf(es[k].body), Translate(es[k].body));
    GroupsGrow(es, next, |es|);
    GrownHolds(Groups(es, next), Groups(es, |es|), m);
  }

  lemma {:induction false} AddHolds(groups: seq<Group>, role: Role, blocks: seq<Block>)
    requires blocks != []
    ensures var r := Add(groups, role, blocks);
            r != [] && r[|r| - 1].role == role && forall b :: b in blocks ==> b in r[|r| - 1].blocks
  {}

  lemma {:induction false} GrownHolds(a: seq<Group>, b: seq<Group>, m: nat)
    requires GrowsInto(a, b) && m < |a|
    ensures m < |b| && b[m].role == a[m].role && forall x :: x in a[m].blocks ==> x in b[m].blocks
  {
    assert a[m].blocks <= b[m].blocks;
    assert forall i :: 0 <= i < |a[m].blocks| ==> a[m].blocks[i] == b[m].blocks[i];
  }

  /** The role of the message being filled after the first `n` events. */
  ghost function Speaker(es: seq<Event>, n: nat): Option<Role>
    requires n <= |es|
  {
    if Groups(es, n) == [] then None else Some(Groups(es, n)[|Groups(es, n)| - 1].role)
  }

  /** Event `k` opens a message: it contributes, and under another role than the one being filled. */
  ghost predicate Opens(es: seq<Event>, k: nat) {
    && k < |es| && Translate(es[k].body) != []
    && Speaker(es, k) != Some(RoleOf(es[k].body)) == Speaker(es, k + 1)
    && |Groups(es, k + 1)| == |Groups(es, k)| + 1
  }

  lemma {:induction false} OneMore(es: seq<Event>, k: nat)
    requires k < |es|
    ensures Opens(es, k) || (Speaker(es, k + 1) == Speaker(es, k) && |Groups(es, k + 1)| == |Groups(es, k)|)
    ensures Translate(es[k].body) != [] ==> Speaker(es, k + 1) == Some(RoleOf(es[k].body))
  {}

  /** When messages were opened between two moments, some event opened the first of them. */
  lemma {:induction false} FirstChange(es: seq<Event>, a: nat, b: nat) returns (i: nat)
    requires a <= b <= |es| && |Groups(es, a)| < |Groups(es, b)|
    ensures a <= i < b && Opens(es, i) && Speaker(es, i) == Speaker(es, a)
    ensures |Groups(es, i + 1)| == |Groups(es, a)| + 1
  {
    i := a;
    while !Opens(es, i)
      invariant a <= i < b && SameMessage(es, a, i)
      decreases b - i
    {
      StillSame(es, a, i);
      i := i + 1;
    }
  }

  /** The same message is being filled at both moments. */
  ghost predicate SameMessage(es: seq<Event>, a: nat, i: nat) {
    a <= i <= |es| && Speaker(es, i) == Speaker(es, a) && |Groups(es, i)| == |Groups(es, a)|
  }

  lemma {:induction false} StillSame(es: seq<Event>, a: nat, i: nat)
    requires i < |es| && SameMessage(es, a, i) && !Opens(es, i)
    ensures SameMessage(es, a, i + 1)
  {
    OneMore(es, i);
  }

  lemma {:induction false} LaterMessage(es: seq<Event>, a: nat, b: nat)
    requires a <= b <= |es| && Speaker(es, a).Some? && Speaker(es, a) != Speaker(es, b)
    ensures |Groups(es, a)| < |Groups(es, b)|
  {
    GroupsGrow(es, a, b);
    var last := |Groups(es, a)| - 1;
    assert Groups(es, a)[last].role == Groups(es, b)[last].role;
  }

  /** If two messages or more were opened between two moments, both sides spoke in between, in turn. */
  lemma {:induction false} TwoChanges(es: seq<Event>, a: nat, b: nat) returns (i: nat, j: nat)
    requires a <= b <= |es| && Speaker(es, a) == Some(Assistant) && |Groups(es, a)| + 1 < |Groups(es, b)|
    ensures a <= i < j < b && UserRole(es[i].body) && AssistantRole(es[j].body)
  {
    i := FirstChange(es, a, b);
    j := FirstChange(es, i + 1, b);
  }

  /** The user's side and then the assistant speak after `u`. */
  ghost predicate TurnTaken(es: seq<Event>, u: int, i: int, j: int) {
    u < i < j < |es| && 0 <= u && UserRole(es[i].body) && AssistantRole(es[j].body)
  }

  /** A user event after an assistant event is in the very next message, unless the assistant spoke again in between
      after the user had. */
  lemma {:induction false} NextMessageOrTurn(es: seq<Event>, u: int, r: int, m: int, n: int)
    requires HeldBy(es, u, m) && HeldBy(es, r, n) && u < r
    requires RoleOf(es[u].body) == Assistant && RoleOf(es[r].body) == User
    ensures n == m + 1 || exists i, j :: TurnTaken(es, u, i, j) && j < r
  {
    OneMore(es, u);
    OneMore(es, r);
    var start, end := u + 1, r + 1;
    LaterMessage(es, start, end);
    if n != m + 1 {
      TurnBetween(es, u, r);
    }
  }

  lemma {:induction false} TurnBetween(es: seq<Event>, u: int, r: int)
    requires 0 <= u < r < |es| && Speaker(es, u + 1) == Some(Assistant) && |Groups(es, u + 1)| + 1 < |Groups(es, r + 1)|
    requires !AssistantRole(es[r].body)
    ensures exists i, j :: TurnTaken(es, u, i, j) && j < r
  {
    var start, end := u + 1, r + 1;
    var i, j := TwoChanges(es, start, end);
    assert j != r;
    assert TurnTaken(es, u, i, j) && j < r;
  }

  // ---------- Results follow their uses ----------

  ghost predicate CompactionFree(log: seq<Event>) {
    forall k :: 0 <= k < |log| ==> !log[k].body.Compact? && !log[k].body.Revert?
  }

  ghost predicate Answers(messages: seq<Message>, m: int, id: string) {
    && 0 <= m && m + 1 < |messages|
    && messages[m].role == Assistant && (exists b :: b in messages[m].AllBlocks() && b.UseBlock? && b.id == id)
    && messages[m + 1].role == User && (exists b :: b in messages[m + 1].AllBlocks() && b.ResultBlock? && b.id == id)
  }

  lemma {:induction false} CompactionFreeIsItself(log: seq<Event>)
    requires CompactionFree(log)
    ensures Effective(log) == log
  {
    WithoutMutations(log, |log|);
    assert log[..|log|] == log;
  }

  ghost predicate ResultFollows(log: seq<Event>, u: int, id: string) {
    exists m :: HeldBy(log, u, m) && Answers(Messages(Effective(log)), m, id)
  }

  /** Unless an answer was interrupted, the assistant does not speak after the user before an earlier use has its
      result. */
  lemma {:induction false} NoTurnBeforeResult(log: seq<Event>, u: int, id: string, i: int, j: int, r: int)
    requires Disciplined(log) && !Interrupted(log)
    requires UseAt(log, u, id) && ResultAt(log, r, id) && TurnTaken(log, u, i, j)
    ensures r < j
  {
    if log[j].body.AssistantMessage? {
      assert MessageAt(log, j);
    } else {
      assert !InterruptedAt(log, u, i, j);
      var a :| u < a < j && MessageAt(log, a);
      assert EarlierResult(log, a, id);
    }
  }

  lemma {:induction false} UseBeforeResult(log: seq<Event>, u: int, r: int, id: string)
    requires Sound(log) && UseAt(log, u, id) && ResultAt(log, r, id)
    ensures u < r
  {
    var v :| UseAt(log, v, id) && log[v].seqNo < log[r].seqNo;
  }

  lemma {:induction false} ResultIsNext(log: seq<Event>, u: int, id: string)
    requires Disciplined(log) && CompactionFree(log) && NoPending(log) && !Interrupted(log)
    requires UseAt(log, u, id)
    ensures ResultFollows(log, u, id)
  {
    CompactionFreeIsItself(log);
    var r :| ResultAt(log, r, id);
    UseBeforeResult(log, u, r, id);
    var m, n := |Groups(log, u + 1)| - 1, |Groups(log, r + 1)| - 1;
    NextMessageOrTurn(log, u, r, m, n);
    if i, j :| TurnTaken(log, u, i, j) && j < r {
      NoTurnBeforeResult(log, u, id, i, j, r);
    }
    NeighboursAnswer(log, u, r, m, id);
    assert HeldBy(log, u, m) && Answers(Messages(Effective(log)), m, id);
  }

  lemma {:induction false} NeighboursAnswer(es: seq<Event>, u: int, r: int, m: int, id: string)
    requires UseAt(es, u, id) && ResultAt(es, r, id) && HeldBy(es, u, m) && HeldBy(es, r, m + 1)
    ensures Answers(Messages(es), m, id)
  {
    HeldInMessage(es, u, m);
    HeldInMessage(es, r, m + 1);
    var use, result := Translate(es[u].body)[0], Translate(es[r].body)[0];
    assert use in Messages(es)[m].AllBlocks() && use.UseBlock? && use.id == id;
    assert result in Messages(es)[m + 1].AllBlocks() && result.ResultBlock? && result.id == id;
  }

  /** Every block of a message was contributed to it by some event. */
  lemma {:induction false} BlockHasEvent(es: seq<Event>, n: nat, m: nat, b: Block) returns (k: int)
    requires n <= |es| && m < |Groups(es, n)| && b in Groups(es, n)[m].blocks
    ensures k < n && HeldBy(es, k, m) && b in Translate(es[k].body)
  {
    var before := Groups(es, n - 1);
    if m < |before| && b in before[m].blocks {
      k := BlockHasEvent(es, n - 1, m, b);
    } else {
      k := n - 1;
    }
  }

  lemma {:induction false} SpeakerAfter(es: seq<Event>, k: int)
    requires 0 <= k < |es| && (es[k].body.ToolUse? || UserRole(es[k].body))
    ensures Speaker(es, k + 1) == Some(RoleOf(es[k].body))
  {
    OneMore(es, k);
  }

  /** After an assistant event, each change of speaker opens another message. */
  lemma {:induction false} TurnOpensMessages(es: seq<Event>, u: int, i: int, j: int)
    requires TurnTaken(es, u, i, j) && es[u].body.ToolUse? && es[j].body.ToolUse?
    ensures |Groups(es, j + 1)| >= |Groups(es, u + 1)| + 2
  {
    ChangeOpensMessage(es, u, i);
    ChangeOpensMessage(es, i, j);
  }

  lemma {:induction false} ChangeOpensMessage(es: seq<Event>, i: int, j: int)
    requires 0 <= i < j < |es| && RoleOf(es[i].body) != RoleOf(es[j].body)
    requires (es[i].body.ToolUse? || UserRole(es[i].body)) && (es[j].body.ToolUse? || UserRole(es[j].body))
    ensures |Groups(es, i + 1)| < |Groups(es, j + 1)|
  {
    SpeakerAfter(es, i);
    SpeakerAfter(es, j);
    var from, to := i + 1, j + 1;
    LaterMessage(es, from, to);
  }

  /** An id's result stands behind an interruption of its answer. */
  lemma {:induction false} ResultAfterInterruption(log: seq<Event>, u: int, i: int, j: int, r: int)
    requires Disciplined(log) && InterruptedAt(log, u, i, j) && ResultAt(log, r, log[u].body.id)
    ensures j < r
  {
    var id := log[u].body.id;
    assert UseAt(log, u, id) && UseAt(log, j, log[j].body.id);
    UseBeforeResult(log, u, r, id);
  }

  lemma {:induction false} InterruptedSeparates(log: seq<Event>, u: int, i: int, j: int)
    requires Disciplined(log) && CompactionFree(log) && InterruptedAt(log, u, i, j)
    ensures !ResultFollows(log, u, log[u].body.id)
  {
    var id := log[u].body.id;
    CompactionFreeIsItself(log);
    if m :| HeldBy(log, u, m) && Answers(Messages(log), m, id) {
      var r := AnswerHasEvent(log, m, id);
      ResultAfterInterruption(log, u, i, j, r);
      TurnOpensMessages(log, u, i, j);
      MessagesGrow(log, j, r);
    }
  }

  lemma {:induction false} MessagesGrow(es: seq<Event>, j: int, r: int)
    requires 0 <= j < r < |es|
    ensures |Groups(es, j + 1)| <= |Groups(es, r + 1)|
  {
    var from, to := j + 1, r + 1;
    GroupsGrow(es, from, to);
  }

  /** The result block of an answered use comes from a result event. */
  lemma {:induction false} AnswerHasEvent(es: seq<Event>, m: int, id: string) returns (r: int)
    requires Answers(Messages(es), m, id)
    ensures ResultAt(es, r, id) && HeldBy(es, r, m + 1)
  {
    var n := m + 1;
    var b :| b in Messages(es)[n].AllBlocks() && b.ResultBlock? && b.id == id;
    assert Messages(es)[n].AllBlocks() == Groups(es, |es|)[n].blocks;
    r := BlockHasEvent(es, |es|, n, b);
    ResultBlockIsOfResult(es[r].body, b);
  }

  lemma {:induction false} ResultBlockIsOfResult(body: Body, b: Block)
    requires b in Translate(body) && b.ResultBlock?
    ensures body.ToolResult? && body.id == b.id
  {}

  /** What the provider sees of a session without compactions: the result of every tool use stands in the message right
      after the one with the use, exactly if no answer was interrupted. */
  lemma {:induction false} ResultsFollowTheirUses(log: seq<Event>)
    requires Disciplined(log) && CompactionFree(log) && ProviderReady(log)
    ensures (forall u, id :: UseAt(log, u, id) ==> ResultFollows(log, u, id)) <==> !Interrupted(log)
  {
    ReadyIffNothingPending(log);
    if !Interrupted(log) {
      forall u, id | UseAt(log, u, id)
        ensures ResultFollows(log, u, id)
      {
        ResultIsNext(log, u, id);
      }
    }
    if u, i, j :| InterruptedAt(log, u, i, j) {
      InterruptedSeparates(log, u, i, j);
      assert UseAt(log, u, log[u].body.id);
    }
  }
}
