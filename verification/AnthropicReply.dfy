/**
 Anthropic Messages content blocks, token counts, and the translation of a
 whole reply into a Chat Completions response.
*/
module AnthropicReply {
  import opened Wrappers
  import opened Text
  import opened JsonValues
  import opened Chat

  datatype Block =
    | TextBlock(text: string)
    | ImageBlock(source: Json)
    | ThinkingBlock(raw: Json)
    | ToolUse(id: Json, name: Json, input: Json)
    | ToolResult(toolUseId: Json, result: string)
    | OtherBlock

  datatype Reply = Reply(content: seq<Block>, stop: Option<string>, usage: Json)

  const OVERFLOW_STOP := "model_context_window_exceeded"

  function FinishFor(stop: string): string {
    if stop == "max_tokens" then "length"
    else if stop == "tool_use" then "tool_calls"
    else if stop == "refusal" then "content_filter"
    else "stop"
  }

  // ----- Token counts -----

  /** The counts of one usage object that an OpenAI `usage` is made of. */
  datatype Counts = Counts(input: Option<int>, read: Option<int>, created: Option<int>, output: Option<int>)

  function CountsOf(usage: Json): Counts {
    Counts(
      AsCount(Field(usage, "input_tokens")),
      AsCount(Field(usage, "cache_read_input_tokens")),
      AsCount(Field(usage, "cache_creation_input_tokens")),
      AsCount(Field(usage, "output_tokens")))
  }

  function PromptTotal(c: Counts): (total: Option<int>)
    ensures total.Some? ==> total.value != 0
  {
    if c.input.None? && c.read.None? && c.created.None? then None
    else
      var sum := c.input.GetOr(0) + c.read.GetOr(0) + c.created.GetOr(0);
      if sum == 0 then None else Some(sum)
  }

  function UsageToChat(c: Counts): Option<Usage> {
    var prompt := PromptTotal(c);
    if prompt.None? then None
    else
      var output := c.output.GetOr(0);
      Some(Usage(prompt.value, output, prompt.value + output, c.read, c.created, None))
  }

  /**
   * Every count that went in can be computed from the usage that comes out,
   * and there is none exactly when no prompt field is known or they sum to zero.
   */
  lemma UsageIsRecoverable(c: Counts)
    ensures UsageToChat(c).None? <==>
            (c.input.None? && c.read.None? && c.created.None?)
            || c.input.GetOr(0) + c.read.GetOr(0) + c.created.GetOr(0) == 0
    ensures UsageToChat(c).Some? ==>
              var u := UsageToChat(c).value;
              && u.prompt - u.cached.GetOr(0) - u.cacheWritten.GetOr(0) == c.input.GetOr(0)
              && u.total - u.prompt == u.completion == c.output.GetOr(0)
              && u.cached == c.read && u.cacheWritten == c.created
  {
  }

  // ----- The reply -----

  function ThoughtIn(raw: Json): string {
    var thinking := Field(raw, "thinking");
    if thinking.Str? then thinking.s else ""
  }

  function TextIn(blocks: seq<Block>): string {
    if blocks == [] then ""
    else
      var before := TextIn(blocks[..|blocks| - 1]);
      match blocks[|blocks| - 1]
      case TextBlock(text) => before + text
      case _ => before
  }

  function ThoughtsIn(blocks: seq<Block>): string {
    if blocks == [] then ""
    else
      var before := ThoughtsIn(blocks[..|blocks| - 1]);
      match blocks[|blocks| - 1]
      case ThinkingBlock(raw) => before + ThoughtIn(raw)
      case _ => before
  }

  function DetailsIn(blocks: seq<Block>): seq<Json> {
    if blocks == [] then []
    else
      var before := DetailsIn(blocks[..|blocks| - 1]);
      match blocks[|blocks| - 1]
      case ThinkingBlock(raw) => before + [raw]
      case _ => before
  }

  function ToolsIn(blocks: seq<Block>): (tools: seq<Block>)
    ensures forall t | t in tools :: t.ToolUse?
  {
    if blocks == [] then []
    else
      var before := ToolsIn(blocks[..|blocks| - 1]);
      var block := blocks[|blocks| - 1];
      if block.ToolUse? then before + [block] else before
  }

  function CallFor(tool: Block, codec: Codec): ToolCall
    requires tool.ToolUse?
  {
    ToolCall(tool.id, tool.name, codec.dump(Or(tool.input, Obj(map[]))))
  }

  /** The codec keeps the inputs the calls are dumped with. */
  ghost predicate KeepsInputs(codec: Codec, blocks: seq<Block>) {
    forall t | t in ToolsIn(blocks) :: codec.Keeps(Or(t.input, Obj(map[])))
  }

  /** For every reply there is such a codec. */
  lemma SomeCodecKeepsInputs(blocks: seq<Block>) returns (codec: Codec)
    ensures KeepsInputs(codec, blocks)
  {
    var tools := ToolsIn(blocks);
    var inputs := seq(|tools|, i requires 0 <= i < |tools| => Or(tools[i].input, Obj(map[])));
    codec := SomeCodecKeeps(inputs);
    forall t | t in tools ensures codec.Keeps(Or(t.input, Obj(map[]))) {
      var i :| 0 <= i < |tools| && tools[i] == t;
      assert inputs[i] == Or(t.input, Obj(map[]));
    }
  }

  function CallsFor(tools: seq<Block>, codec: Codec): seq<ToolCall>
    requires forall t | t in tools :: t.ToolUse?
  {
    seq(|tools|, i requires 0 <= i < |tools| => CallFor(tools[i], codec))
  }

  function Complete(reply: Reply, codec: Codec): Completion {
    var text := TextIn(reply.content);
    var calls := CallsFor(ToolsIn(reply.content), codec);
    Completion(
      Message(if text == "" then None else Some(text), calls, DetailsIn(reply.content), ThoughtsIn(reply.content)),
      if calls != [] && (reply.stop == None || reply.stop == Some("tool_use")) then "tool_calls"
      else FinishFor(reply.stop.GetOr("")),
      UsageToChat(CountsOf(reply.usage)))
  }

  method TransformReply(reply: Reply, codec: Codec) returns (completion: Completion)
    ensures completion == Complete(reply, codec)
  {
    var text, thoughts := "", "";
    var details: seq<Json> := [];
    var calls: seq<ToolCall> := [];
    for i := 0 to |reply.content|
      invariant text == TextIn(reply.content[..i])
      invariant thoughts == ThoughtsIn(reply.content[..i])
      invariant details == DetailsIn(reply.content[..i])
      invariant calls == CallsFor(ToolsIn(reply.content[..i]), codec)
    {
      assert reply.content[..i + 1][..i] == reply.content[..i];
      match reply.content[i] {
        case TextBlock(t) =>
          text := text + t;
        case ThinkingBlock(raw) =>
          details := details + [raw];
          thoughts := thoughts + ThoughtIn(raw);
        case ToolUse(id, name, input) =>
          calls := calls + [ToolCall(id, name, codec.dump(Or(input, Obj(map[]))))];
        case _ =>
      }
    }
    assert reply.content[..|reply.content|] == reply.content;
    var finish := FinishFor(reply.stop.GetOr(""));
    if calls != [] && (reply.stop == None || reply.stop == Some("tool_use")) {
      finish := "tool_calls";
    }
    completion := Completion(
      Message(if text == "" then None else Some(text), calls, details, thoughts),
      finish,
      UsageToChat(CountsOf(reply.usage)));
  }
}
