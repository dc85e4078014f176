/**
 Rewriting the message list loses nothing, reorders nothing and leaves turns
 Anthropic takes; a translated reply replayed by the caller comes back as the
 blocks it came from.
*/
module AnthropicRequestLaws {
  import opened Wrappers
  import opened Text
  import opened JsonValues
  import Chat
  import opened AnthropicReply
  import opened AnthropicRequest

  // ----- Merging preserves content -----

  function Tagged(role: Role, blocks: seq<Block>): seq<(Role, Block)> {
    seq(|blocks|, i requires 0 <= i < |blocks| => (role, blocks[i]))
  }

  function Flatten(turns: seq<Turn>): seq<(Role, Block)> {
    if turns == [] then []
    else Flatten(turns[..|turns| - 1]) + Tagged(turns[|turns| - 1].role, turns[|turns| - 1].content)
  }

  /** What one message contributes by itself, system messages aside. */
  function Contribution(entry: Entry, at: nat, env: Env): Result<seq<(Role, Block)>, Refusal> {
    if entry.NotAnObject? || IsSystem(entry) then Ok([])
    else if entry.role == "tool" then Ok([(User, ResultBlock(entry, env.codec))])
    else
      match SpokenBlocks(entry, at, env)
      case Err(refusal) => Err(refusal)
      case Ok(blocks) => Ok(Tagged(if entry.role == "assistant" then Assistant else User, blocks))
  }

  function Contributions(entries: seq<Entry>, env: Env): seq<(Role, Block)> {
    if entries == [] then []
    else
      var n := |entries| - 1;
      Contributions(entries[..n], env) +
      match Contribution(entries[n], n, env)
      case Err(_) => []
      case Ok(pairs) => pairs
  }

  lemma FlattenAppend(turns: seq<Turn>, turn: Turn)
    ensures Flatten(turns + [turn]) == Flatten(turns) + Tagged(turn.role, turn.content)
  {
    assert (turns + [turn])[..|turns|] == turns;
  }

  lemma FlattenGrowsLast(turns: seq<Turn>, block: Block)
    requires turns != []
    ensures var last := turns[|turns| - 1];
            Flatten(turns[|turns| - 1 := Turn(last.role, last.content + [block])]) == Flatten(turns) + [(last.role, block)]
  {
    var n, last := |turns| - 1, turns[|turns| - 1];
    var grown := turns[n := Turn(last.role, last.content + [block])];
    assert grown[..n] == turns[..n];
    assert Tagged(last.role, last.content + [block]) == Tagged(last.role, last.content) + [(last.role, block)];
  }

  lemma EntryKeepsContent(draft: Draft, entry: Entry, at: nat, env: Env)
    ensures AddEntry(draft, entry, at, env).Ok? <==> Contribution(entry, at, env).Ok?
    ensures AddEntry(draft, entry, at, env).Err? ==> AddEntry(draft, entry, at, env).error == Contribution(entry, at, env).error
    ensures AddEntry(draft, entry, at, env).Ok? ==>
              Flatten(AddEntry(draft, entry, at, env).value.turns) == Flatten(draft.turns) + Contribution(entry, at, env).value
  {
    if entry.NotAnObject? || IsSystem(entry) {
    } else if entry.role == "tool" {
      var block := ResultBlock(entry, env.codec);
      if TakesResult(draft.turns) {
        FlattenGrowsLast(draft.turns, block);
      } else {
        FlattenAppend(draft.turns, Turn(User, [block]));
        assert Tagged(User, [block]) == [(User, block)];
      }
    } else if SpokenBlocks(entry, at, env).Ok? {
      var blocks := SpokenBlocks(entry, at, env).value;
      var role := if entry.role == "assistant" then Assistant else User;
      FlattenAppend(draft.turns, Turn(role, blocks));
      assert blocks == [] ==> Tagged(role, blocks) == [];
    }
  }

  /** Every message before the `n`-th can be sent. */
  ghost predicate SendableBefore(entries: seq<Entry>, n: nat, env: Env)
    requires n <= |entries|
  {
    forall i | 0 <= i < n :: Contribution(entries[i], i, env).Ok?
  }

  lemma SendableSnoc(entries: seq<Entry>, env: Env)
    requires entries != []
    ensures var n := |entries| - 1;
            && (forall k: nat | k <= n :: SendableBefore(entries, k, env) <==> SendableBefore(entries[..n], k, env))
            && (SendableBefore(entries, |entries|, env) <==>
                SendableBefore(entries, n, env) && Contribution(entries[n], n, env).Ok?)
  {
    var n := |entries| - 1;
    forall k: nat | k <= n ensures SendableBefore(entries, k, env) <==> SendableBefore(entries[..n], k, env) {
      forall i | 0 <= i < k ensures entries[..n][i] == entries[i] {
      }
    }
  }

  lemma {:induction false} RefusesAtFirst(entries: seq<Entry>, env: Env) returns (i: nat)
    ensures DraftOf(entries, env).Ok? <==> SendableBefore(entries, |entries|, env)
    ensures DraftOf(entries, env).Err? ==>
              && i < |entries| && SendableBefore(entries, i, env)
              && Contribution(entries[i], i, env) == Err(DraftOf(entries, env).error)
  {
    i := 0;
    if entries != [] {
      var n := |entries| - 1;
      i := RefusesAtFirst(entries[..n], env);
      SendableSnoc(entries, env);
      if DraftOf(entries[..n], env).Ok? {
        EntryKeepsContent(DraftOf(entries[..n], env).value, entries[n], n, env);
        i := n;
      }
    }
  }

  lemma {:induction false} DraftKeepsContent(entries: seq<Entry>, env: Env)
    requires DraftOf(entries, env).Ok?
    ensures Flatten(DraftOf(entries, env).value.turns) == Contributions(entries, env)
  {
    if entries != [] {
      var n := |entries| - 1;
      DraftKeepsContent(entries[..n], env);
      EntryKeepsContent(DraftOf(entries[..n], env).value, entries[n], n, env);
    }
  }

  /**
   * Flattened to (role, block) pairs, the turns are the messages' own blocks
   * in order; the request is refused exactly when some message is, for the
   * first such message's reason.
   */
  lemma MergePreservesContent(entries: seq<Entry>, env: Env)
    ensures DraftOf(entries, env).Ok? <==> SendableBefore(entries, |entries|, env)
    ensures DraftOf(entries, env).Ok? ==> Flatten(DraftOf(entries, env).value.turns) == Contributions(entries, env)
    ensures DraftOf(entries, env).Err? ==>
              exists i | 0 <= i < |entries| ::
                SendableBefore(entries, i, env) && Contribution(entries[i], i, env) == Err(DraftOf(entries, env).error)
  {
    var i := RefusesAtFirst(entries, env);
    if DraftOf(entries, env).Ok? {
      DraftKeepsContent(entries, env);
    }
  }

  // ----- System text -----

  function SystemTexts(entries: seq<Entry>, codec: Codec): seq<string> {
    if entries == [] then []
    else
      var n := |entries| - 1;
      var before := SystemTexts(entries[..n], codec);
      if IsSystem(entries[n]) && TextOf(entries[n].content, codec) != ""
      then before + [TextOf(entries[n].content, codec)]
      else before
  }

  function JoinLines(texts: seq<string>): string {
    if texts == [] then ""
    else if |texts| == 1 then texts[0]
    else JoinLines(texts[..|texts| - 1]) + "\n" + texts[|texts| - 1]
  }

  lemma {:induction false} JoinedTextIsEmpty(texts: seq<string>)
    requires forall t | t in texts :: t != ""
    ensures JoinLines(texts) == "" <==> texts == []
  {
    if |texts| == 1 {
      assert texts[0] in texts;
    } else if texts != [] {
      assert |JoinLines(texts)| >= |"\n"|;
    }
  }

  lemma {:induction false} SystemTextIsJoined(entries: seq<Entry>, env: Env)
    requires DraftOf(entries, env).Ok?
    ensures DraftOf(entries, env).value.system == JoinLines(SystemTexts(entries, env.codec))
    ensures forall t | t in SystemTexts(entries, env.codec) :: t != ""
  {
    if entries != [] {
      var n := |entries| - 1;
      SystemTextIsJoined(entries[..n], env);
      var before, all := SystemTexts(entries[..n], env.codec), SystemTexts(entries, env.codec);
      JoinedTextIsEmpty(before);
      if all != before {
        assert all[..|all| - 1] == before;
      }
    }
  }

  // ----- The turns are ones Anthropic takes -----

  predicate NoResults(blocks: seq<Block>) {
    forall i | 0 <= i < |blocks| :: !blocks[i].ToolResult?
  }

  predicate IsResultTurn(turn: Turn) {
    turn.role == User && AllResults(turn.content)
  }

  predicate SoundTurn(turn: Turn) {
    && turn.content != []
    && ((turn.role == User && AllResults(turn.content)) || NoResults(turn.content))
  }

  ghost predicate SoundTurns(turns: seq<Turn>) {
    && (forall i | 0 <= i < |turns| :: SoundTurn(turns[i]))
    && (forall i | 0 < i < |turns| :: !(IsResultTurn(turns[i - 1]) && IsResultTurn(turns[i])))
  }

  lemma {:induction false} PartsHoldNoResults(parts: seq<Json>)
    ensures PartsBlocks(parts).Ok? ==> NoResults(PartsBlocks(parts).value)
  {
    if parts != [] {
      PartsHoldNoResults(parts[..|parts| - 1]);
    }
  }

  lemma {:induction false} KeptAreThinking(details: seq<Json>)
    ensures forall i | 0 <= i < |KeptThinking(details)| :: KeptThinking(details)[i].ThinkingBlock?
  {
    if details != [] {
      KeptAreThinking(details[..|details| - 1]);
    }
  }

  lemma {:induction false} CallsAreUses(calls: seq<Json>, at: nat, env: Env)
    ensures forall i | 0 <= i < |CallsBlocks(calls, at, env)| :: CallsBlocks(calls, at, env)[i].ToolUse?
  {
    if calls != [] {
      CallsAreUses(calls[..|calls| - 1], at, env);
    }
  }

  lemma SpokenHoldsNoResults(entry: Entry, at: nat, env: Env)
    requires entry.Said? && SpokenBlocks(entry, at, env).Ok?
    ensures NoResults(SpokenBlocks(entry, at, env).value)
  {
    if entry.content.Arr? {
      PartsHoldNoResults(entry.content.items);
    }
    if entry.details.Arr? {
      KeptAreThinking(entry.details.items);
    }
    if entry.toolCalls.Arr? {
      CallsAreUses(entry.toolCalls.items, at, env);
    }
  }

  lemma EntryKeepsTurnsSound(draft: Draft, entry: Entry, at: nat, env: Env)
    requires SoundTurns(draft.turns) && AddEntry(draft, entry, at, env).Ok?
    ensures SoundTurns(AddEntry(draft, entry, at, env).value.turns)
  {
    if entry.NotAnObject? || IsSystem(entry) {
    } else if entry.role == "tool" {
      var block := ResultBlock(entry, env.codec);
      if TakesResult(draft.turns) {
        GrowSound(draft.turns, block);
      } else {
        AppendSound(draft.turns, Turn(User, [block]));
      }
    } else {
      SpokenHoldsNoResults(entry, at, env);
      var blocks := SpokenBlocks(entry, at, env).value;
      if blocks != [] {
        assert !AllResults(blocks) by {
          assert !blocks[0].ToolResult?;
        }
        AppendSound(draft.turns, Turn(if entry.role == "assistant" then Assistant else User, blocks));
      }
    }
  }

  lemma AppendSound(turns: seq<Turn>, turn: Turn)
    requires SoundTurns(turns) && SoundTurn(turn)
    requires TakesResult(turns) ==> !IsResultTurn(turn)
    ensures SoundTurns(turns + [turn])
  {
    var all := turns + [turn];
    forall i | 0 < i < |all| ensures !(IsResultTurn(all[i - 1]) && IsResultTurn(all[i])) {
      if i < |turns| {
        assert all[i] == turns[i] && all[i - 1] == turns[i - 1];
      }
    }
  }

  lemma GrowSound(turns: seq<Turn>, block: Block)
    requires SoundTurns(turns) && TakesResult(turns) && block.ToolResult?
    ensures var n := |turns| - 1; SoundTurns(turns[n := Turn(User, turns[n].content + [block])])
  {
    var n := |turns| - 1;
    var grown := turns[n := Turn(User, turns[n].content + [block])];
    forall i | 0 < i < |grown| ensures !(IsResultTurn(grown[i - 1]) && IsResultTurn(grown[i])) {
      assert grown[i - 1] == turns[i - 1];
      assert IsResultTurn(turns[n]);
    }
  }

  /**
   * No turn is empty, a user turn is all tool results or has none, and no two
   * tool-result turns are adjacent.
   */
  lemma {:induction false} TurnsAreSound(entries: seq<Entry>, env: Env)
    requires DraftOf(entries, env).Ok?
    ensures SoundTurns(DraftOf(entries, env).value.turns)
  {
    if entries != [] {
      var n := |entries| - 1;
      TurnsAreSound(entries[..n], env);
      EntryKeepsTurnsSound(DraftOf(entries[..n], env).value, entries[n], n, env);
    }
  }

  // ----- Replaying a reply -----

  /** A translated message as the caller hands it back on the next request. */
  function CallJson(call: Chat.ToolCall): Json {
    Obj(map[
      "id" := call.id,
      "type" := Str("function"),
      "function" := Obj(map["name" := call.name, "arguments" := Str(call.arguments)])])
  }

  function CallsJson(calls: seq<Chat.ToolCall>): seq<Json> {
    seq(|calls|, i requires 0 <= i < |calls| => CallJson(calls[i]))
  }

  function AsEntry(message: Chat.Message): Entry {
    Said(
      "assistant",
      if message.content.Some? then Str(message.content.value) else Null,
      if message.toolCalls == [] then Null else Arr(CallsJson(message.toolCalls)),
      if message.details == [] then Null else Arr(message.details),
      Null,
      Null)
  }

  function Replay(reply: Reply, at: nat, env: Env): Blocks {
    SpokenBlocks(AsEntry(Complete(reply, env.codec).message), at, env)
  }

  function ThinkingOf(details: seq<Json>): seq<Block> {
    seq(|details|, i requires 0 <= i < |details| => ThinkingBlock(details[i]))
  }

  /** Thinking verbatim and in order, then the joined text if any, then the tool calls. */
  function NormalForm(blocks: seq<Block>): seq<Block> {
    ThinkingOf(DetailsIn(blocks)) + (if TextIn(blocks) == "" then [] else [TextBlock(TextIn(blocks))]) + ToolsIn(blocks)
  }

  /** Thinking blocks are what they say they are, and calls are named. */
  ghost predicate Replayable(blocks: seq<Block>) {
    && (forall b | b in blocks && b.ThinkingBlock? :: IsThinking(b.raw))
    && (forall b | b in blocks && b.ToolUse? :: Truthy(b.id) && Truthy(b.name))
  }

  lemma {:induction false} KeptThinkingIsAll(details: seq<Json>)
    requires forall d | d in details :: IsThinking(d)
    ensures KeptThinking(details) == ThinkingOf(details)
  {
    if details != [] {
      KeptThinkingIsAll(details[..|details| - 1]);
    }
  }

  lemma {:induction false} ReadingsComeFromBlocks(blocks: seq<Block>)
    ensures forall d | d in DetailsIn(blocks) :: ThinkingBlock(d) in blocks
    ensures forall t | t in ToolsIn(blocks) :: t in blocks
  {
    if blocks != [] {
      ReadingsComeFromBlocks(blocks[..|blocks| - 1]);
    }
  }

  /** A call replayed with an object input is the call; with any other input it is not. */
  lemma CallComesBack(tool: Block, minted: string, codec: Codec)
    requires tool.ToolUse? && Truthy(tool.id) && Truthy(tool.name)
    requires codec.Keeps(Or(tool.input, Obj(map[])))
    ensures var back := CallBlocks(CallJson(CallFor(tool, codec)), minted, codec);
            && |back| == 1 && back[0].ToolUse? && back[0].id == tool.id && back[0].name == tool.name
            && (back[0] == tool <==> tool.input.Obj?)
  {
    var call := CallFor(tool, codec);
    var json := CallJson(call);
    assert Field(json, "id") == tool.id;
    assert Field(Field(json, "function"), "name") == tool.name;
    assert Field(Field(json, "function"), "arguments") == Str(call.arguments);
    assert codec.parse(call.arguments) == Some(Or(tool.input, Obj(map[])));
  }

  /** Position by position, a block comes back exactly when it is a call on an object. */
  ghost predicate ComeBack(back: seq<Block>, tools: seq<Block>)
    requires forall t | t in tools :: t.ToolUse?
  {
    && |back| == |tools|
    && forall i | 0 <= i < |tools| :: back[i] == tools[i] <==> tools[i].input.Obj?
  }

  lemma ComeBackSnoc(back: seq<Block>, tools: seq<Block>, last: seq<Block>, tool: Block)
    requires tool.ToolUse? && forall t | t in tools :: t.ToolUse?
    requires ComeBack(back, tools) && |last| == 1 && (last[0] == tool <==> tool.input.Obj?)
    ensures forall t | t in tools + [tool] :: t.ToolUse?
    ensures ComeBack(back + last, tools + [tool])
  {
  }

  lemma CallsBlocksSnoc(calls: seq<Json>, call: Json, at: nat, env: Env)
    ensures CallsBlocks(calls + [call], at, env) == CallsBlocks(calls, at, env) + CallBlocks(call, env.mint(at, |calls|), env.codec)
  {
    assert (calls + [call])[..|calls|] == calls;
  }

  lemma CallsJsonSnoc(tools: seq<Block>, tool: Block, codec: Codec)
    requires tool.ToolUse? && forall t | t in tools :: t.ToolUse?
    ensures forall t | t in tools + [tool] :: t.ToolUse?
    ensures CallsJson(CallsFor(tools + [tool], codec)) == CallsJson(CallsFor(tools, codec)) + [CallJson(CallFor(tool, codec))]
  {
  }

  lemma {:induction false} CallsComeBack(tools: seq<Block>, at: nat, env: Env)
    requires forall t | t in tools :: t.ToolUse? && Truthy(t.id) && Truthy(t.name)
    requires forall t | t in tools :: env.codec.Keeps(Or(t.input, Obj(map[])))
    ensures ComeBack(CallsBlocks(CallsJson(CallsFor(tools, env.codec)), at, env), tools)
  {
    if tools != [] {
      var n := |tools| - 1;
      var front, tool := tools[..n], tools[n];
      assert tool in tools && tools == front + [tool];
      CallsComeBack(front, at, env);
      CallsJsonSnoc(front, tool, env.codec);
      var json := CallsJson(CallsFor(front, env.codec));
      CallsBlocksSnoc(json, CallJson(CallFor(tool, env.codec)), at, env);
      CallComesBack(tool, env.mint(at, |json|), env.codec);
      ComeBackSnoc(CallsBlocks(json, at, env), front, CallBlocks(CallJson(CallFor(tool, env.codec)), env.mint(at, |json|), env.codec), tool);
    }
  }

  /**
   * The replay round trip: with named calls and object inputs, and only then,
   * the blocks come back in normal form.
   */
  lemma ReplayRoundTrip(reply: Reply, at: nat, env: Env)
    requires KeepsInputs(env.codec, reply.content) && Replayable(reply.content)
    ensures Replay(reply, at, env) == Ok(NormalForm(reply.content)) <==>
            forall t | t in ToolsIn(reply.content) :: t.input.Obj?
  {
    var blocks, tools := reply.content, ToolsIn(reply.content);
    var entry := AsEntry(Complete(reply, env.codec).message);
    ReadingsComeFromBlocks(blocks);
    KeptThinkingIsAll(DetailsIn(blocks));
    CallsComeBack(tools, at, env);
    assert ReasoningBlocks(entry.details) == ThinkingOf(DetailsIn(blocks));
    var text := if TextIn(blocks) == "" then [] else [TextBlock(TextIn(blocks))];
    assert ContentBlocks(entry.content, env.codec) == Ok(text);
    SameTail(ThinkingOf(DetailsIn(blocks)) + text, ToolUseBlocks(entry.toolCalls, at, env), tools);
  }

  /** An input that is not an object comes back as another one. */
  lemma TextInputIsLost(env: Env, text: string)
    requires env.codec.Keeps(Or(Str(text), Obj(map[])))
    ensures var reply := Reply([ToolUse(Str("t1"), Str("search"), Str(text))], Some("tool_use"), Null);
            Replayable(reply.content) && Replay(reply, 0, env) != Ok(NormalForm(reply.content))
  {
    var tool := ToolUse(Str("t1"), Str("search"), Str(text));
    var reply := Reply([tool], Some("tool_use"), Null);
    assert [tool][..0] == [];
    assert ToolsIn([tool]) == [tool];
    ReplayRoundTrip(reply, 0, env);
  }

  lemma SameTail(head: seq<Block>, a: seq<Block>, b: seq<Block>)
    requires |a| == |b|
    ensures head + a == head + b <==> forall i | 0 <= i < |a| :: a[i] == b[i]
  {
    if head + a == head + b {
      forall i | 0 <= i < |a| ensures a[i] == b[i] {
        assert (head + a)[|head| + i] == (head + b)[|head| + i];
      }
    }
  }

  // ----- The normal form is a fixed point -----

  lemma ReadingsSnoc(front: seq<Block>, last: Block)
    ensures TextIn(front + [last]) == TextIn(front) + TextIn([last])
    ensures DetailsIn(front + [last]) == DetailsIn(front) + DetailsIn([last])
    ensures ToolsIn(front + [last]) == ToolsIn(front) + ToolsIn([last])
  {
    var blocks := front + [last];
    assert blocks[..|blocks| - 1] == front && blocks[|blocks| - 1] == last;
    assert [last][..0] == [];
  }

  lemma {:induction false} ReadingsAppend(a: seq<Block>, b: seq<Block>)
    ensures TextIn(a + b) == TextIn(a) + TextIn(b)
    ensures DetailsIn(a + b) == DetailsIn(a) + DetailsIn(b)
    ensures ToolsIn(a + b) == ToolsIn(a) + ToolsIn(b)
  {
    if b == [] {
      assert a + b == a;
    } else {
      var front, last := b[..|b| - 1], b[|b| - 1];
      assert b == front + [last] && a + b == (a + front) + [last];
      ReadingsAppend(a, front);
      ReadingsSnoc(front, last);
      ReadingsSnoc(a + front, last);
    }
  }

  lemma {:induction false} ThinkingReads(details: seq<Json>)
    ensures TextIn(ThinkingOf(details)) == "" && DetailsIn(ThinkingOf(details)) == details && ToolsIn(ThinkingOf(details)) == []
  {
    if details != [] {
      var n := |details| - 1;
      ThinkingReads(details[..n]);
      assert ThinkingOf(details)[..n] == ThinkingOf(details[..n]);
    }
  }

  lemma {:induction false} ToolsRead(tools: seq<Block>)
    requires forall t | t in tools :: t.ToolUse?
    ensures TextIn(tools) == "" && DetailsIn(tools) == [] && ToolsIn(tools) == tools
  {
    if tools != [] {
      assert tools[|tools| - 1] in tools;
      ToolsRead(tools[..|tools| - 1]);
    }
  }

  lemma TextReads(text: string)
    ensures var blocks := if text == "" then [] else [TextBlock(text)];
            TextIn(blocks) == text && DetailsIn(blocks) == [] && ToolsIn(blocks) == []
  {
    if text != "" {
      assert [TextBlock(text)][..0] == [];
    }
  }

  lemma NormalFormReads(blocks: seq<Block>)
    ensures TextIn(NormalForm(blocks)) == TextIn(blocks)
    ensures DetailsIn(NormalForm(blocks)) == DetailsIn(blocks)
    ensures ToolsIn(NormalForm(blocks)) == ToolsIn(blocks)
  {
    var thinking := ThinkingOf(DetailsIn(blocks));
    var text := if TextIn(blocks) == "" then [] else [TextBlock(TextIn(blocks))];
    ThinkingReads(DetailsIn(blocks));
    TextReads(TextIn(blocks));
    ToolsRead(ToolsIn(blocks));
    ReadingsAppend(thinking, text);
    ReadingsAppend(thinking + text, ToolsIn(blocks));
  }

  /** Replaying a normal form gives it back unchanged. */
  lemma NormalFormIsFixed(reply: Reply, at: nat, env: Env)
    requires KeepsInputs(env.codec, reply.content) && Replayable(reply.content)
    requires forall t | t in ToolsIn(reply.content) :: t.input.Obj?
    ensures NormalForm(NormalForm(reply.content)) == NormalForm(reply.content)
    ensures Replay(reply.(content := NormalForm(reply.content)), at, env) == Ok(NormalForm(reply.content))
  {
    var normal := NormalForm(reply.content);
    NormalFormReads(reply.content);
    ReadingsComeFromBlocks(reply.content);
    forall b | b in normal
      ensures b.ThinkingBlock? ==> IsThinking(b.raw)
      ensures b.ToolUse? ==> b in ToolsIn(reply.content)
    {
    }
    assert Replayable(normal);
    ReplayRoundTrip(reply.(content := normal), at, env);
  }
}
