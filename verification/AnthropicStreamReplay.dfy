/**
 Replaying what was read from a stream: the chunks carry the thinking text but
 not the signed thinking blocks, so a reply that holds any cannot be handed
 back as it was.
*/
module AnthropicStreamReplay {
  import opened Wrappers
  import opened JsonValues
  import opened Chat
  import opened AnthropicReply
  import opened AnthropicRefinement
  import opened AnthropicRequestLaws
  import Request = AnthropicRequest
  import Stream = AnthropicStream

  ghost predicate CallsInOrder(r: Reading) {
    forall n: nat :: n in r.calls <==> n < |r.calls|
  }

  function CallsRead(r: Reading): seq<ToolCall>
    requires CallsInOrder(r)
  {
    seq(|r.calls|, n requires 0 <= n < |r.calls| => r.calls[n])
  }

  /** The assistant message a client makes of what it read. */
  function MessageRead(r: Reading): Message
    requires CallsInOrder(r)
  {
    Message(if r.text == "" then None else Some(r.text), CallsRead(r), [], r.thoughts)
  }

  /** Whatever id would be minted, the call is read back as this tool block. */
  ghost predicate ComesBackAs(call: ToolCall, tool: Block, codec: Codec) {
    forall minted :: Request.CallBlocks(CallJson(call), minted, codec) == [tool]
  }

  lemma ReadCallIsTool(call: ToolCall, whole: ToolCall, tool: Block, codec: Codec)
    requires tool.ToolUse? && Truthy(tool.id) && Truthy(tool.name) && tool.input.Obj?
    requires codec.Keeps(Or(tool.input, Obj(map[]))) && whole == CallFor(tool, codec)
    requires call.id == whole.id && call.name == whole.name
    requires SameArguments(call.arguments, whole.arguments, codec) <==> call.arguments != ""
    requires Truthy(tool.input) ==> call.arguments != ""
    ensures ComesBackAs(call, tool, codec)
  {
    var json := CallJson(call);
    assert Field(json, "id") == tool.id;
    assert Field(Field(json, "function"), "name") == tool.name;
    assert Field(Field(json, "function"), "arguments") == Str(call.arguments);
    assert Or(tool.input, Obj(map[])) == tool.input;
    assert codec.parse(whole.arguments) == Some(tool.input);
  }

  lemma {:induction false} ReadCallsAreTools(calls: seq<ToolCall>, tools: seq<Block>, at: nat, env: Request.Env)
    requires |calls| == |tools|
    requires forall n | 0 <= n < |calls| :: ComesBackAs(calls[n], tools[n], env.codec)
    ensures Request.CallsBlocks(CallsJson(calls), at, env) == tools
  {
    if calls != [] {
      var n := |calls| - 1;
      var front, call := calls[..n], calls[n];
      ReadCallsAreTools(front, tools[..n], at, env);
      CallsJsonGrow(front, call);
      OneMoreCall(CallsJson(front), call, tools[n], at, env);
      assert calls == front + [call] && tools == tools[..n] + [tools[n]];
    }
  }

  lemma CallsJsonGrow(front: seq<ToolCall>, call: ToolCall)
    ensures CallsJson(front + [call]) == CallsJson(front) + [CallJson(call)]
  {
  }

  lemma OneMoreCall(json: seq<Json>, call: ToolCall, tool: Block, at: nat, env: Request.Env)
    requires ComesBackAs(call, tool, env.codec)
    ensures Request.CallsBlocks(json + [CallJson(call)], at, env) == Request.CallsBlocks(json, at, env) + [tool]
  {
    CallsBlocksSnoc(json, CallJson(call), at, env);
    assert Request.CallBlocks(CallJson(call), env.mint(at, |json|), env.codec) == [tool];
  }

  /** What the refinement says of the calls is enough to hand them back. */
  lemma AgreedCallsAreTools(r: Reading, blocks: seq<Block>, at: nat, env: Request.Env)
    requires KeepsInputs(env.codec, blocks) && Replayable(blocks)
    requires forall t | t in ToolsIn(blocks) :: t.input.Obj?
    requires CallsAgree(r.calls, CallsFor(ToolsIn(blocks), env.codec), ToolsIn(blocks), env.codec)
    ensures CallsInOrder(r) && |CallsRead(r)| == |ToolsIn(blocks)|
    ensures Request.CallsBlocks(CallsJson(CallsRead(r)), at, env) == ToolsIn(blocks)
  {
    var tools := ToolsIn(blocks);
    CountedCalls(r.calls, |tools|);
    var calls := CallsRead(r);
    ReadingsComeFromBlocks(blocks);
    forall n | 0 <= n < |calls| ensures ComesBackAs(calls[n], tools[n], env.codec) {
      assert tools[n] in tools;
      ReadCallIsTool(calls[n], CallsFor(tools, env.codec)[n], tools[n], env.codec);
    }
    ReadCallsAreTools(calls, tools, at, env);
  }

  /**
   * A streamed reply handed back by its reader comes back in normal form
   * exactly when it held no thinking block.
   */
  lemma StreamedReplay(events: seq<Stream.Event>, reply: Reply, at: nat, env: Request.Env,
                       streamEnv: Stream.Env, holder: map<string, int>)
    requires KeepsInputs(env.codec, reply.content) && Delivers(events, reply, env.codec)
    requires Replayable(reply.content) && forall t | t in ToolsIn(reply.content) :: t.input.Obj?
    ensures var r := Read(Stream.Translate(events, Stream.Exhausted, streamEnv, holder, None).out);
            && CallsInOrder(r)
            && (Request.SpokenBlocks(AsEntry(MessageRead(r)), at, env) == Ok(NormalForm(reply.content)) <==>
                DetailsIn(reply.content) == [])
  {
    var r := Read(Stream.Translate(events, Stream.Exhausted, streamEnv, holder, None).out);
    StreamRefinesWholeReply(events, reply, env.codec, streamEnv, holder);
    AgreedCallsAreTools(r, reply.content, at, env);
    MessageComesBack(MessageRead(r), ToolsIn(reply.content), at, env);
    NormalWithoutThinking(reply.content, r.text);
  }

  lemma NormalWithoutThinking(blocks: seq<Block>, text: string)
    requires text == TextIn(blocks)
    ensures (if text == "" then [] else [TextBlock(text)]) + ToolsIn(blocks) == NormalForm(blocks) <==> DetailsIn(blocks) == []
  {
    var spoken := (if text == "" then [] else [TextBlock(text)]) + ToolsIn(blocks);
    assert NormalForm(blocks) == ThinkingOf(DetailsIn(blocks)) + spoken;
    assert |NormalForm(blocks)| == |DetailsIn(blocks)| + |spoken|;
  }

  lemma MessageComesBack(message: Message, tools: seq<Block>, at: nat, env: Request.Env)
    requires message.details == [] && Request.CallsBlocks(CallsJson(message.toolCalls), at, env) == tools
    requires |message.toolCalls| == |tools| && message.content != Some("")
    ensures Request.SpokenBlocks(AsEntry(message), at, env) ==
            Ok((if message.content.Some? then [TextBlock(message.content.value)] else []) + tools)
  {
    var entry := AsEntry(message);
    var text := if message.content.Some? then [TextBlock(message.content.value)] else [];
    assert Request.ReasoningBlocks(entry.details) == [];
    assert Request.ContentBlocks(entry.content, env.codec) == Ok(text);
    assert Request.ToolUseBlocks(entry.toolCalls, at, env) == tools;
    assert [] + text + tools == text + tools;
  }

  /** A map over the first numbers holds as many entries. */
  lemma {:induction false} CountedCalls(calls: map<nat, ToolCall>, n: nat)
    requires forall k: nat :: k in calls <==> k < n
    ensures |calls| == n
  {
    if n == 0 {
      assert calls == map[];
    } else {
      var fewer := calls - {n - 1};
      CountedCalls(fewer, n - 1);
      assert calls == fewer[n - 1 := calls[n - 1]];
    }
  }
}
