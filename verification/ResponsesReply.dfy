/**
 Responses API replies: their items, their token counts, and the translation
 of a whole reply into a Chat Completions response.
*/
module ResponsesReply {
  import opened Wrappers
  import opened Text
  import opened JsonValues
  import opened Chat

  datatype Item =
    | MessageItem(parts: seq<string>)
    | CallItem(id: string, callId: string, name: Json, arguments: string)
    | OtherItem

  datatype Reply = Reply(items: seq<Item>, outputText: Option<string>, status: Option<string>, usage: Json)

  function MapFinish(status: string): string {
    if status == "incomplete" then "length" else "stop"
  }

  /** Cached tokens are already part of the prompt figure here; without a prompt figure there is no usage. */
  function MapUsage(usage: Json): Option<Usage> {
    var prompt := AsCount(Field(usage, "input_tokens"));
    if prompt.GetOr(0) == 0 then None
    else
      var completion := AsCount(Field(usage, "output_tokens")).GetOr(0);
      Some(Usage(
        prompt.value,
        completion,
        AsCount(Field(usage, "total_tokens")).GetOr(prompt.value + completion),
        AsCount(Field(Field(usage, "input_tokens_details"), "cached_tokens")),
        None,
        AsCount(Field(Field(usage, "output_tokens_details"), "reasoning_tokens"))))
  }

  /** A call is named by its call id, else its item id. */
  function CallName(callId: string, id: string): Json {
    Str(if callId != "" then callId else id)
  }

  function TextIn(items: seq<Item>): string {
    if items == [] then ""
    else
      var before := TextIn(items[..|items| - 1]);
      match items[|items| - 1]
      case MessageItem(parts) => before + Concat(parts)
      case _ => before
  }

  function CallItems(items: seq<Item>): (calls: seq<Item>)
    ensures forall c | c in calls :: c.CallItem?
  {
    if items == [] then []
    else
      var before := CallItems(items[..|items| - 1]);
      var item := items[|items| - 1];
      if item.CallItem? then before + [item] else before
  }

  function CallFor(item: Item): ToolCall
    requires item.CallItem?
  {
    ToolCall(CallName(item.callId, item.id), item.name, if item.arguments != "" then item.arguments else "{}")
  }

  function CallsFor(items: seq<Item>): seq<ToolCall>
    requires forall c | c in items :: c.CallItem?
  {
    seq(|items|, i requires 0 <= i < |items| => CallFor(items[i]))
  }

  function FinishWith(status: string, sawTool: bool): string {
    if sawTool && MapFinish(status) == "stop" then "tool_calls" else MapFinish(status)
  }

  function Complete(reply: Reply): Completion {
    var calls := CallsFor(CallItems(reply.items));
    Completion(
      Message(Some(reply.outputText.GetOr(TextIn(reply.items))), calls, [], ""),
      FinishWith(reply.status.GetOr("completed"), calls != []),
      MapUsage(reply.usage))
  }

  method TransformReply(reply: Reply) returns (completion: Completion)
    ensures completion == Complete(reply)
  {
    var calls: seq<ToolCall> := [];
    var parts: seq<string> := [];
    for i := 0 to |reply.items|
      invariant calls == CallsFor(CallItems(reply.items[..i]))
      invariant Concat(parts) == TextIn(reply.items[..i])
    {
      assert reply.items[..i + 1][..i] == reply.items[..i];
      match reply.items[i] {
        case MessageItem(texts) =>
          ConcatAppend(parts, texts);
          parts := parts + texts;
        case CallItem(id, callId, name, arguments) =>
          calls := calls + [ToolCall(CallName(callId, id), name, if arguments != "" then arguments else "{}")];
        case OtherItem =>
      }
    }
    assert reply.items[..|reply.items|] == reply.items;
    var content := reply.outputText.GetOr(Concat(parts));
    var finish := MapFinish(reply.status.GetOr("completed"));
    if calls != [] && finish == "stop" {
      finish := "tool_calls";
    }
    completion := Completion(Message(Some(content), calls, [], ""), finish, MapUsage(reply.usage));
  }
}
