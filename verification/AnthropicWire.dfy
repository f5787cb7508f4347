/**
 The translation of the history to the Anthropic wire format: group tool
 results, merge neighbours of the same role, tag the cache breakpoint.
 */
module AnthropicWire {
  import opened Prelude
  import opened Conversation

  datatype Role = UserRole | AssistantRole

  datatype ResultContent = PlainResult(text: string) | RichResult(images: seq<Image>, text: string)

  datatype Body =
    | Text(text: string)
    | Picture(image: Image)
    | ToolUse(id: string, name: string, args: string)
    | ToolResult(id: string, content: ResultContent)

  /** A content block; `cached` is its `cache_control` tag. */
  datatype Block = Block(body: Body, cached: bool)

  datatype Content = Plain(text: string) | Blocks(blocks: seq<Block>)

  datatype WireMessage = WireMessage(role: Role, content: Content)

  function BlocksOf(c: Content): seq<Block> {
    match c
    case Plain(text) => [Block(Text(text), false)]
    case Blocks(blocks) => blocks
  }

  // ── The stages ───────────────────────────────────────────────────────────────

  function Pictures(images: seq<Image>): seq<Block> {
    seq(|images|, i requires 0 <= i < |images| => Block(Picture(images[i]), false))
  }

  function Uses(calls: seq<ToolCall>): seq<Block> {
    seq(|calls|, i requires 0 <= i < |calls| =>
      Block(ToolUse(calls[i].callId, calls[i].name, calls[i].args), false))
  }

  function UserMessage(m: Message): WireMessage
    requires m.User?
  {
    WireMessage(UserRole, if m.images == [] then Plain(m.content)
                          else Blocks(Pictures(m.images) + [Block(Text(m.content), false)]))
  }

  function AssistantMessage(m: Message): WireMessage
    requires m.Assistant?
  {
    WireMessage(AssistantRole, Blocks((if m.content != "" then [Block(Text(m.content), false)] else []) +
                                      Uses(m.calls)))
  }

  function ResultBlock(m: Message): Block
    requires m.Tool?
  {
    Block(ToolResult(m.callId,
          if m.images == [] then PlainResult(m.content) else RichResult(m.images, m.content)), false)
  }

  /** How many tool messages `ms` starts with. */
  function ToolRun(ms: seq<Message>): (n: nat)
    ensures n <= |ms|
  {
    if ms == [] || !ms[0].Tool? then 0 else 1 + ToolRun(ms[1..])
  }

  /** The result blocks of the tool messages `ms` starts with. */
  function RunResults(ms: seq<Message>): (blocks: seq<Block>)
    ensures |blocks| == ToolRun(ms)
  {
    if ms == [] || !ms[0].Tool? then [] else [ResultBlock(ms[0])] + RunResults(ms[1..])
  }

  /** One wire message per user or assistant message and per run of tool messages. */
  function Grouped(ms: seq<Message>): seq<WireMessage> {
    if ms == [] then []
    else
      match ms[0]
      case User(_, _) => [UserMessage(ms[0])] + Grouped(ms[1..])
      case Assistant(_, _) => [AssistantMessage(ms[0])] + Grouped(ms[1..])
      case Tool(_, _, _, _) =>
        [WireMessage(UserRole, Blocks(RunResults(ms)))] + Grouped(ms[ToolRun(ms)..])
  }

  /** Appends a message, into the last one when the roles agree. */
  function Push(out: seq<WireMessage>, m: WireMessage): seq<WireMessage> {
    if out != [] && out[|out| - 1].role == m.role then
      var last := out[|out| - 1];
      out[..|out| - 1] + [WireMessage(m.role, Blocks(BlocksOf(last.content) + BlocksOf(m.content)))]
    else out + [m]
  }

  function MergeInto(out: seq<WireMessage>, ms: seq<WireMessage>): seq<WireMessage>
    decreases |ms|
  {
    if ms == [] then out else MergeInto(Push(out, ms[0]), ms[1..])
  }

  /** The position of the last user message before `n`, or the length when there is none. */
  function LastUserBelow(out: seq<WireMessage>, n: nat): (i: nat)
    requires n <= |out|
    ensures i < n || i == |out|
    ensures i < |out| ==> out[i].role == UserRole
    ensures forall k :: 0 <= k < n && (i == |out| || i < k) ==> out[k].role != UserRole
  {
    if n == 0 then |out|
    else if out[n - 1].role == UserRole then n - 1
    else LastUserBelow(out, n - 1)
  }

  function LastUser(out: seq<WireMessage>): nat {
    LastUserBelow(out, |out|)
  }

  function TagLast(c: Content): Content {
    var blocks := BlocksOf(c);
    if blocks == [] then c
    else Blocks(blocks[|blocks| - 1 := blocks[|blocks| - 1].(cached := true)])
  }

  function Tagged(out: seq<WireMessage>): seq<WireMessage> {
    var i := LastUser(out);
    if |out| > 1 && i < |out| then out[i := out[i].(content := TagLast(out[i].content))] else out
  }

  function Wire(ms: seq<Message>, caching: bool): seq<WireMessage> {
    var out := MergeInto([], Grouped(ms));
    if caching then Tagged(out) else out
  }

  // ── As the program runs it ───────────────────────────────────────────────────

  method CollectResults(ms: seq<Message>, start: nat) returns (results: seq<Block>, i: nat)
    requires start <= |ms|
    ensures i == start + ToolRun(ms[start..]) && results == RunResults(ms[start..])
  {
    results, i := [], start;
    while i < |ms| && ms[i].Tool?
      invariant start <= i <= |ms|
      invariant i + ToolRun(ms[i..]) == start + ToolRun(ms[start..])
      invariant results + RunResults(ms[i..]) == RunResults(ms[start..])
    {
      assert ms[i..][1..] == ms[i + 1..];
      Assoc(results, [ResultBlock(ms[i])], RunResults(ms[i + 1..]));
      results := results + [ResultBlock(ms[i])];
      i := i + 1;
    }
    assert results + [] == results;
  }

  method Group(ms: seq<Message>) returns (out: seq<WireMessage>)
    ensures out == Grouped(ms)
  {
    out := [];
    var i := 0;
    while i < |ms|
      invariant 0 <= i <= |ms|
      invariant out + Grouped(ms[i..]) == Grouped(ms)
    {
      var m: WireMessage, next: nat;
      match ms[i] {
        case User(_, _) => m, next := UserMessage(ms[i]), i + 1;
        case Assistant(_, _) => m, next := AssistantMessage(ms[i]), i + 1;
        case Tool(_, _, _, _) =>
          var results;
          results, next := CollectResults(ms, i);
          m := WireMessage(UserRole, Blocks(results));
      }
      assert ms[i..][next - i..] == ms[next..];
      assert Grouped(ms[i..]) == [m] + Grouped(ms[next..]);
      Assoc(out, [m], Grouped(ms[next..]));
      out, i := out + [m], next;
    }
  }

  method Merge(ms: seq<WireMessage>) returns (merged: seq<WireMessage>)
    ensures merged == MergeInto([], ms)
  {
    merged := [];
    for k := 0 to |ms|
      invariant MergeInto(merged, ms[k..]) == MergeInto([], ms)
    {
      assert ms[k..][0] == ms[k] && ms[k..][1..] == ms[k + 1..];
      var n, before := |merged|, merged;
      if n > 0 && merged[n - 1].role == ms[k].role {
        var previous := BlocksOf(merged[n - 1].content);
        merged := merged[n - 1 := WireMessage(ms[k].role, Blocks(previous + BlocksOf(ms[k].content)))];
      } else {
        merged := merged + [ms[k]];
      }
      assert merged == Push(before, ms[k]);
    }
  }

  method TagBreakpoint(plain: seq<WireMessage>) returns (out: seq<WireMessage>)
    ensures out == Tagged(plain)
  {
    out := plain;
    if |out| > 1 {
      var i := |out|;
      while i > 0 && out[i - 1].role != UserRole
        invariant 0 <= i <= |out|
        invariant forall k :: i <= k < |out| ==> out[k].role != UserRole
      {
        i := i - 1;
      }
      if i > 0 {
        var blocks := BlocksOf(out[i - 1].content);
        if blocks != [] {
          var last := |blocks| - 1;
          out := out[i - 1 := out[i - 1].(content := Blocks(blocks[last := blocks[last].(cached := true)]))];
        }
      }
    }
  }

  method MessagesToAnthropic(ms: seq<Message>, caching: bool) returns (out: seq<WireMessage>)
    ensures out == Wire(ms, caching)
  {
    out := Group(ms);
    out := Merge(out);
    if caching {
      out := TagBreakpoint(out);
    }
  }

  // ── Strict alternation, nothing lost ─────────────────────────────────────────

  predicate Alternates(out: seq<WireMessage>) {
    forall k :: 0 < k < |out| ==> out[k].role != out[k - 1].role
  }

  /** The (role, block) stream of wire messages. */
  function Flat(out: seq<WireMessage>): seq<(Role, Block)> {
    if out == [] then [] else Flat(out[..|out| - 1]) + Mark(out[|out| - 1].role, BlocksOf(out[|out| - 1].content))
  }

  function Mark(role: Role, blocks: seq<Block>): seq<(Role, Block)> {
    seq(|blocks|, i requires 0 <= i < |blocks| => (role, blocks[i]))
  }

  /**
   The (role, block) stream one history message stands for: a user's images and
   then the text; an assistant's text, if any, and then each call with its id,
   name and arguments; a tool's output under the id of the call it answers.
   */
  function Meaning(m: Message): seq<(Role, Block)> {
    match m
    case User(content, images) =>
      seq(|images|, i requires 0 <= i < |images| => (UserRole, Block(Picture(images[i]), false)))
      + [(UserRole, Block(Text(content), false))]
    case Assistant(content, calls) =>
      (if content == "" then [] else [(AssistantRole, Block(Text(content), false))])
      + seq(|calls|, i requires 0 <= i < |calls| =>
          (AssistantRole, Block(ToolUse(calls[i].callId, calls[i].name, calls[i].args), false)))
    case Tool(id, _, content, images) =>
      if images == [] then [(UserRole, Block(ToolResult(id, PlainResult(content)), false))]
      else [(UserRole, Block(ToolResult(id, RichResult(images, content)), false))]
  }

  lemma {:induction false} UserMeaning(m: Message)
    requires m.User?
    ensures Mark(UserRole, BlocksOf(UserMessage(m).content)) == Meaning(m)
  {
    var pictures, text := Pictures(m.images), [Block(Text(m.content), false)];
    MarkConcat(UserRole, pictures, text);
    assert m.images == [] ==> pictures + text == text;
  }

  lemma {:induction false} AssistantMeaning(m: Message)
    requires m.Assistant?
    ensures Mark(AssistantRole, BlocksOf(AssistantMessage(m).content)) == Meaning(m)
  {
    var text := if m.content != "" then [Block(Text(m.content), false)] else [];
    MarkConcat(AssistantRole, text, Uses(m.calls));
  }

  function MeaningOf(ms: seq<Message>): seq<(Role, Block)> {
    if ms == [] then [] else Meaning(ms[0]) + MeaningOf(ms[1..])
  }

  lemma {:induction false} MarkConcat(role: Role, a: seq<Block>, b: seq<Block>)
    ensures Mark(role, a + b) == Mark(role, a) + Mark(role, b)
  {
  }

  lemma {:induction false} FlatSnoc(out: seq<WireMessage>, m: WireMessage)
    ensures Flat(out + [m]) == Flat(out) + Mark(m.role, BlocksOf(m.content))
  {
    assert (out + [m])[..|out|] == out;
  }

  lemma {:induction false} PushFlat(out: seq<WireMessage>, m: WireMessage)
    ensures Flat(Push(out, m)) == Flat(out) + Mark(m.role, BlocksOf(m.content))
  {
    if out != [] && out[|out| - 1].role == m.role {
      var front, last := out[..|out| - 1], out[|out| - 1];
      FlatSnoc(front, WireMessage(m.role, Blocks(BlocksOf(last.content) + BlocksOf(m.content))));
      MarkConcat(m.role, BlocksOf(last.content), BlocksOf(m.content));
    } else {
      FlatSnoc(out, m);
    }
  }

  /** The same stream, read from the front. */
  function Stream(ms: seq<WireMessage>): seq<(Role, Block)> {
    if ms == [] then [] else Mark(ms[0].role, BlocksOf(ms[0].content)) + Stream(ms[1..])
  }

  lemma {:induction false} MergeFlat(out: seq<WireMessage>, ms: seq<WireMessage>)
    ensures Flat(MergeInto(out, ms)) == Flat(out) + Stream(ms)
    decreases |ms|
  {
    if ms != [] {
      PushFlat(out, ms[0]);
      MergeFlat(Push(out, ms[0]), ms[1..]);
      Assoc(Flat(out), Mark(ms[0].role, BlocksOf(ms[0].content)), Stream(ms[1..]));
    }
  }

  lemma {:induction false} ToolMeaning(m: Message, more: seq<Block>, rest: seq<(Role, Block)>)
    requires m.Tool?
    ensures Mark(UserRole, [ResultBlock(m)] + more) + rest == Meaning(m) + (Mark(UserRole, more) + rest)
  {
    MarkConcat(UserRole, [ResultBlock(m)], more);
    assert Mark(UserRole, [ResultBlock(m)]) == Meaning(m);
    Assoc(Meaning(m), Mark(UserRole, more), rest);
  }

  lemma {:induction false} ToolsMeaning(ms: seq<Message>)
    ensures MeaningOf(ms) == Mark(UserRole, RunResults(ms)) + MeaningOf(ms[ToolRun(ms)..])
  {
    if ms != [] && ms[0].Tool? {
      var tail := ms[1..];
      var n := ToolRun(tail);
      ToolsMeaning(tail);
      ToolMeaning(ms[0], RunResults(tail), MeaningOf(tail[n..]));
      assert ToolRun(ms) == n + 1 && ms[n + 1..] == tail[n..];
    } else {
      assert ToolRun(ms) == 0 && RunResults(ms) == [] && ms[0..] == ms;
    }
  }

  lemma {:induction false} GroupedStream(ms: seq<Message>)
    ensures Stream(Grouped(ms)) == MeaningOf(ms)
  {
    if ms != [] {
      var n := if ms[0].Tool? then ToolRun(ms) else 1;
      GroupedStream(ms[n..]);
      assert Grouped(ms)[1..] == Grouped(ms[n..]);
      if ms[0].Tool? {
        ToolsMeaning(ms);
      } else if ms[0].User? {
        UserMeaning(ms[0]);
      } else {
        AssistantMeaning(ms[0]);
      }
    }
  }

  lemma {:induction false} MergeAlternates(out: seq<WireMessage>, ms: seq<WireMessage>)
    requires Alternates(out)
    ensures Alternates(MergeInto(out, ms))
    decreases |ms|
  {
    if ms != [] {
      MergeAlternates(Push(out, ms[0]), ms[1..]);
    }
  }

  /** The output never has two neighbours of one role, with or without caching. */
  lemma {:induction false} WireAlternates(ms: seq<Message>, caching: bool)
    ensures Alternates(Wire(ms, caching))
  {
    MergeAlternates([], Grouped(ms));
  }

  /** The uncached output carries exactly the (role, block) stream of the history. */
  lemma {:induction false} WireLosesNothing(ms: seq<Message>)
    ensures Flat(Wire(ms, false)) == MeaningOf(ms)
  {
    MergeFlat([], Grouped(ms));
    GroupedStream(ms);
  }

  // ── The cache breakpoint ─────────────────────────────────────────────────────

  predicate UsersSaySomething(out: seq<WireMessage>) {
    forall k :: 0 <= k < |out| && out[k].role == UserRole ==> BlocksOf(out[k].content) != []
  }

  lemma {:induction false} GroupedUsers(ms: seq<Message>)
    ensures UsersSaySomething(Grouped(ms))
  {
    if ms != [] {
      GroupedUsers(ms[if ms[0].Tool? then ToolRun(ms) else 1..]);
    }
  }

  lemma {:induction false} MergedUsers(out: seq<WireMessage>, ms: seq<WireMessage>)
    requires UsersSaySomething(out) && UsersSaySomething(ms)
    ensures UsersSaySomething(MergeInto(out, ms))
    decreases |ms|
  {
    if ms != [] {
      MergedUsers(Push(out, ms[0]), ms[1..]);
    }
  }

  /**
   With at least two messages, caching adds one tag: to the last block of the
   last user message, everything else being as without it. With fewer it adds none.
   */
  lemma {:induction false} CachingTagsOneBlock(ms: seq<Message>)
    ensures var plain, cached := Wire(ms, false), Wire(ms, true);
            if |plain| <= 1 then cached == plain
            else
              var i := LastUser(plain);
              && i < |plain| == |cached|
              && (forall k :: 0 <= k < |plain| && k != i ==> cached[k] == plain[k])
              && cached[i].role == UserRole
              && var blocks, tagged := BlocksOf(plain[i].content), BlocksOf(cached[i].content);
                 && |blocks| == |tagged| > 0
                 && tagged[..|tagged| - 1] == blocks[..|blocks| - 1]
                 && tagged[|tagged| - 1] == blocks[|blocks| - 1].(cached := true)
  {
    var plain := Wire(ms, false);
    MergeAlternates([], Grouped(ms));
    GroupedUsers(ms);
    MergedUsers([], Grouped(ms));
    if |plain| > 1 {
      assert plain[1].role != plain[0].role;
    }
  }

  // ── Every tool use is answered ───────────────────────────────────────────────

  function UseIds(blocks: seq<Block>): seq<string> {
    if blocks == [] then []
    else
      var last := blocks[|blocks| - 1].body;
      UseIds(blocks[..|blocks| - 1]) + (if last.ToolUse? then [last.id] else [])
  }

  /** `blocks` starts with one tool result per id, in order, and holds no other tool result. */
  predicate LeadingResults(blocks: seq<Block>, ids: seq<string>) {
    && |ids| <= |blocks|
    && (forall i :: 0 <= i < |ids| ==> blocks[i].body.ToolResult? && blocks[i].body.id == ids[i])
    && (forall i :: |ids| <= i < |blocks| ==> !blocks[i].body.ToolResult?)
  }

  /** The tool uses of the last message. */
  function OpenIds(out: seq<WireMessage>): seq<string> {
    if out == [] then [] else UseIds(BlocksOf(out[|out| - 1].content))
  }

  /** Each user message leads with the answers to the tool uses of the message before it, and uses no tool itself. */
  predicate Linked(out: seq<WireMessage>) {
    out != [] ==>
      var front, last := out[..|out| - 1], out[|out| - 1];
      && Linked(front)
      && (last.role == UserRole ==>
            LeadingResults(BlocksOf(last.content), OpenIds(front)) && UseIds(BlocksOf(last.content)) == [])
  }

  predicate EveryUseAnswered(out: seq<WireMessage>) {
    Linked(out) && OpenIds(out) == []
  }

  lemma {:induction false} LinkedSnoc(front: seq<WireMessage>, last: WireMessage)
    requires Linked(front)
    requires last.role == UserRole ==>
               LeadingResults(BlocksOf(last.content), OpenIds(front)) && UseIds(BlocksOf(last.content)) == []
    ensures Linked(front + [last]) && OpenIds(front + [last]) == UseIds(BlocksOf(last.content))
  {
    assert (front + [last])[..|front|] == front;
  }

  lemma {:induction false} UseIdsConcat(a: seq<Block>, b: seq<Block>)
    ensures UseIds(a + b) == UseIds(a) + UseIds(b)
  {
    if b == [] {
      assert a + b == a;
    } else {
      UseIdsConcat(a, b[..|b| - 1]);
      assert (a + b)[..|a + b| - 1] == a + b[..|b| - 1];
    }
  }

  function CallIds(calls: seq<ToolCall>): seq<string> {
    seq(|calls|, i requires 0 <= i < |calls| => calls[i].callId)
  }

  lemma {:induction false} UsesIds(calls: seq<ToolCall>)
    ensures UseIds(Uses(calls)) == CallIds(calls)
  {
    if calls != [] {
      UsesIds(calls[..|calls| - 1]);
      assert Uses(calls)[..|calls| - 1] == Uses(calls[..|calls| - 1]);
      assert CallIds(calls) == CallIds(calls[..|calls| - 1]) + [calls[|calls| - 1].callId];
    }
  }

  lemma {:induction false} NoUses(blocks: seq<Block>)
    requires forall i :: 0 <= i < |blocks| ==> !blocks[i].body.ToolUse?
    ensures UseIds(blocks) == []
  {
    if blocks != [] {
      NoUses(blocks[..|blocks| - 1]);
    }
  }

  lemma {:induction false} AssistantIds(m: Message)
    requires m.Assistant?
    ensures UseIds(BlocksOf(AssistantMessage(m).content)) == CallIds(m.calls)
  {
    var text := if m.content != "" then [Block(Text(m.content), false)] else [];
    UseIdsConcat(text, Uses(m.calls));
    NoUses(text);
    UsesIds(m.calls);
  }

  /** A user message without results may follow anything that is fully answered. */
  lemma {:induction false} PushUser(out: seq<WireMessage>, m: WireMessage)
    requires EveryUseAnswered(out) && m.role == UserRole
    requires forall i :: 0 <= i < |BlocksOf(m.content)| ==>
               !BlocksOf(m.content)[i].body.ToolResult? && !BlocksOf(m.content)[i].body.ToolUse?
    ensures EveryUseAnswered(Push(out, m))
  {
    NoUses(BlocksOf(m.content));
    if out != [] && out[|out| - 1].role == UserRole {
      var front, last := out[..|out| - 1], out[|out| - 1];
      UseIdsConcat(BlocksOf(last.content), BlocksOf(m.content));
      LinkedSnoc(front, WireMessage(UserRole, Blocks(BlocksOf(last.content) + BlocksOf(m.content))));
    } else {
      LinkedSnoc(out, m);
    }
  }

  lemma {:induction false} PushAsking(out: seq<WireMessage>, m: Message)
    requires EveryUseAnswered(out) && m.Assistant?
    ensures var asked := Push(out, AssistantMessage(m));
            && Linked(asked) && OpenIds(asked) == CallIds(m.calls)
            && asked != [] && asked[|asked| - 1].role == AssistantRole
  {
    var a := AssistantMessage(m);
    AssistantIds(m);
    if out != [] && out[|out| - 1].role == AssistantRole {
      var front, last := out[..|out| - 1], out[|out| - 1];
      UseIdsConcat(BlocksOf(last.content), BlocksOf(a.content));
      LinkedSnoc(front, WireMessage(AssistantRole, Blocks(BlocksOf(last.content) + BlocksOf(a.content))));
    } else {
      LinkedSnoc(out, a);
    }
  }

  /** The answers to `calls`, read off the messages that start with them. */
  lemma {:induction false} AnswersRun(ms: seq<Message>, calls: seq<ToolCall>)
    requires StartsWithAnswers(ms, calls) && Paired(ms[|calls|..])
    ensures ToolRun(ms) == |calls|
    ensures LeadingResults(RunResults(ms), CallIds(calls)) && UseIds(RunResults(ms)) == []
  {
    if calls == [] {
      assert ms[0..] == ms;
    } else {
      var tail, rest := ms[1..], calls[1..];
      assert tail[|rest|..] == ms[|calls|..];
      AnswersRun(tail, rest);
      AnswerCons(ResultBlock(ms[0]), RunResults(tail), CallIds(rest));
      assert CallIds(calls) == [calls[0].callId] + CallIds(rest);
    }
  }

  lemma {:induction false} AnswerCons(b: Block, blocks: seq<Block>, ids: seq<string>)
    requires b.body.ToolResult? && LeadingResults(blocks, ids) && UseIds(blocks) == []
    ensures LeadingResults([b] + blocks, [b.body.id] + ids) && UseIds([b] + blocks) == []
  {
    UseIdsConcat([b], blocks);
    NoUses([b]);
    LeadingCons(b, blocks, ids);
  }

  lemma {:induction false} LeadingCons(b: Block, blocks: seq<Block>, ids: seq<string>)
    requires b.body.ToolResult? && LeadingResults(blocks, ids)
    ensures LeadingResults([b] + blocks, [b.body.id] + ids)
  {
  }

  lemma {:induction false} UserBlocks(m: Message)
    requires m.User?
    ensures forall i :: 0 <= i < |BlocksOf(UserMessage(m).content)| ==>
              !BlocksOf(UserMessage(m).content)[i].body.ToolResult?
              && !BlocksOf(UserMessage(m).content)[i].body.ToolUse?
  {
  }

  /** Pushing an assistant message and then, if there are any, the answers to its calls. */
  lemma {:induction false} PushTurn(out: seq<WireMessage>, m: Message, tail: seq<Message>)
    requires EveryUseAnswered(out) && m.Assistant?
    requires StartsWithAnswers(tail, m.calls) && Paired(tail[|m.calls|..])
    ensures var asked := Push(out, AssistantMessage(m));
            if m.calls == [] then EveryUseAnswered(asked)
            else EveryUseAnswered(Push(asked, WireMessage(UserRole, Blocks(RunResults(tail)))))
  {
    var asked := Push(out, AssistantMessage(m));
    PushAsking(out, m);
    AnswersRun(tail, m.calls);
    if m.calls != [] {
      LinkedSnoc(asked, WireMessage(UserRole, Blocks(RunResults(tail))));
    }
  }

  lemma {:induction false} PairedMergesAnswered(out: seq<WireMessage>, ms: seq<Message>)
    requires EveryUseAnswered(out) && Paired(ms)
    ensures EveryUseAnswered(MergeInto(out, Grouped(ms)))
    decreases |ms|
  {
    if ms != [] {
      var tail := ms[1..];
      if ms[0].User? {
        UserBlocks(ms[0]);
        PushUser(out, UserMessage(ms[0]));
        PairedMergesAnswered(Push(out, UserMessage(ms[0])), tail);
        MergeCons(out, UserMessage(ms[0]), Grouped(tail));
      } else {
        var n := |ms[0].calls|;
        PushTurn(out, ms[0], tail);
        var asked := Push(out, AssistantMessage(ms[0]));
        MergeCons(out, AssistantMessage(ms[0]), Grouped(tail));
        if n == 0 {
          PairedMergesAnswered(asked, tail);
        } else {
          AnswersRun(tail, ms[0].calls);
          var r := WireMessage(UserRole, Blocks(RunResults(tail)));
          MergeCons(asked, r, Grouped(tail[n..]));
          PairedMergesAnswered(Push(asked, r), tail[n..]);
        }
      }
    }
  }

  lemma {:induction false} MergeCons(out: seq<WireMessage>, m: WireMessage, ms: seq<WireMessage>)
    ensures MergeInto(out, [m] + ms) == MergeInto(Push(out, m), ms)
  {
    assert ([m] + ms)[1..] == ms;
  }

  lemma {:induction false} LinkedMeans(out: seq<WireMessage>, k: nat)
    requires Linked(out) && Alternates(out) && k + 1 < |out| && UseIds(BlocksOf(out[k].content)) != []
    ensures out[k + 1].role == UserRole
    ensures LeadingResults(BlocksOf(out[k + 1].content), UseIds(BlocksOf(out[k].content)))
  {
    var front := out[..|out| - 1];
    if k + 2 < |out| {
      LinkedMeans(front, k);
    } else {
      if out[k].role == UserRole {
        LinkedUsers(out, k);
      }
      assert out[k + 1].role != out[k].role;
      assert OpenIds(front) == UseIds(BlocksOf(out[k].content));
    }
  }

  lemma {:induction false} LinkedUsers(out: seq<WireMessage>, k: nat)
    requires Linked(out) && k < |out| && out[k].role == UserRole
    ensures UseIds(BlocksOf(out[k].content)) == []
  {
    if k + 1 < |out| {
      LinkedUsers(out[..|out| - 1], k);
    }
  }

  /** Blocks that say the same, whatever their cache tags. */
  predicate SameBodies(a: seq<Block>, b: seq<Block>) {
    |a| == |b| && forall i :: 0 <= i < |a| ==> a[i].body == b[i].body
  }

  lemma {:induction false} SameUseIds(a: seq<Block>, b: seq<Block>)
    requires SameBodies(a, b)
    ensures UseIds(a) == UseIds(b)
    ensures forall ids :: LeadingResults(a, ids) <==> LeadingResults(b, ids)
  {
    if a != [] {
      SameUseIds(a[..|a| - 1], b[..|b| - 1]);
    }
  }

  /** Caching changes no role and no body. */
  lemma {:induction false} TaggedSaysTheSame(out: seq<WireMessage>, k: nat)
    requires k < |out|
    ensures |Tagged(out)| == |out| && Tagged(out)[k].role == out[k].role
    ensures SameBodies(BlocksOf(Tagged(out)[k].content), BlocksOf(out[k].content))
  {
  }

  lemma {:induction false} AnsweredMeans(out: seq<WireMessage>, k: nat)
    requires EveryUseAnswered(out) && Alternates(out)
    requires k < |out| && UseIds(BlocksOf(out[k].content)) != []
    ensures k + 1 < |out| && out[k + 1].role == UserRole
    ensures LeadingResults(BlocksOf(out[k + 1].content), UseIds(BlocksOf(out[k].content)))
  {
    assert OpenIds(out) == UseIds(BlocksOf(out[|out| - 1].content));
    LinkedMeans(out, k);
  }

  lemma {:induction false} UncachedIsAnswered(ms: seq<Message>, k: nat)
    requires Paired(ms)
    requires k < |Wire(ms, false)| && UseIds(BlocksOf(Wire(ms, false)[k].content)) != []
    ensures k + 1 < |Wire(ms, false)| && Wire(ms, false)[k + 1].role == UserRole
    ensures LeadingResults(BlocksOf(Wire(ms, false)[k + 1].content), UseIds(BlocksOf(Wire(ms, false)[k].content)))
  {
    PairedMergesAnswered([], ms);
    MergeAlternates([], Grouped(ms));
    AnsweredMeans(Wire(ms, false), k);
  }

  /**
   The wire form of a paired history, with or without caching: every message
   that uses tools is followed by a user message whose leading blocks answer
   those uses, in order.
   */
  lemma {:induction false} PairedWireIsAnswered(ms: seq<Message>, caching: bool, k: nat)
    requires Paired(ms)
    requires k < |Wire(ms, caching)| && UseIds(BlocksOf(Wire(ms, caching)[k].content)) != []
    ensures var out := Wire(ms, caching);
            && k + 1 < |out| && out[k + 1].role == UserRole
            && LeadingResults(BlocksOf(out[k + 1].content), UseIds(BlocksOf(out[k].content)))
  {
    var plain, out := Wire(ms, false), Wire(ms, caching);
    if caching {
      assert out == Tagged(plain);
      TaggedSaysTheSame(plain, k);
      SameUseIds(BlocksOf(out[k].content), BlocksOf(plain[k].content));
      UncachedIsAnswered(ms, k);
      TaggedSaysTheSame(plain, k + 1);
      SameUseIds(BlocksOf(out[k + 1].content), BlocksOf(plain[k + 1].content));
    } else {
      UncachedIsAnswered(ms, k);
    }
  }
}
