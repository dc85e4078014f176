/**
 What a finished Responses turn is reported as: its finish reason, its counts,
 the names of its calls and, where it failed, the kind of failure, each told
 from the reply or the events themselves.
*/
module ResponsesFinish {
  import opened Wrappers
  import opened Text
  import opened JsonValues
  import opened Chat
  import opened ResponsesReply
  import opened ResponsesStream
  import opened ResponsesLaws

  // ----- Finish reasons -----

  /** Some call was numbered: an item was added for it, or argument text came. */
  ghost predicate CallsTool(events: seq<Event>) {
    exists e :: e in events && (e.CallAdded? || e.ArgumentsDelta?)
  }

  lemma {:induction false} SlotsIffCalls(events: seq<Event>)
    ensures SlotsOf(events) != [] <==> CallsTool(events)
  {
    if events != [] {
      var front, e := events[..|events| - 1], events[|events| - 1];
      assert events == front + [e];
      SlotsIffCalls(front);
      assert CallsTool(events) <==> CallsTool(front) || e.CallAdded? || e.ArgumentsDelta?;
    }
  }

  /**
   * The finish reason an end event is reported with: `length` for a turn that is
   * incomplete by its stated status, or by the event where none is stated;
   * otherwise `tool_calls` for one that calls a tool, and `stop` for every other.
   */
  lemma StreamFinishMeans(events: seq<Event>, incomplete: bool, status: Option<string>, usage: Json,
                          holder: map<string, Json>, spot: Spotter)
    requires Flowing(events)
    ensures var out, before := Fold(events + [TurnEnded(incomplete, status, usage)], holder, spot).out, Fold(events, holder, spot).out;
            var cut := status == Some("incomplete") || (incomplete && (status == None || status == Some("")));
            && |out| == |before| + 1 && out[..|before|] == before && out[|before|].Finish?
            && var reason := out[|before|].reason;
            && (reason == "length" <==> cut)
            && (reason == "tool_calls" <==> !cut && CallsTool(events))
            && (reason == "stop" <==> !cut && !CallsTool(events))
  {
    var e := TurnEnded(incomplete, status, usage);
    var s := Fold(events, holder, spot);
    PhaseFollowsEvents(events, holder, spot);
    SlotsAreNumbers(events, holder, spot);
    SlotsIffCalls(events);
    assert (events + [e])[..|events|] == events;
    StepParts(s, e, spot);
  }

  ghost predicate HoldsCall(items: seq<Item>) {
    exists item :: item in items && item.CallItem?
  }

  lemma {:induction false} CallItemsIffHeld(items: seq<Item>)
    ensures CallItems(items) != [] <==> HoldsCall(items)
  {
    if items != [] {
      var front, last := items[..|items| - 1], items[|items| - 1];
      CallItemsIffHeld(front);
      assert items == front + [last];
    }
  }

  /** The finish reason of a whole reply. */
  lemma WholeFinishMeans(reply: Reply)
    ensures var reason, cut := Complete(reply).finish, reply.status == Some("incomplete");
            && (reason == "length" <==> cut)
            && (reason == "tool_calls" <==> !cut && HoldsCall(reply.items))
            && (reason == "stop" <==> !cut && !HoldsCall(reply.items))
  {
    CallItemsIffHeld(reply.items);
  }

  // ----- Counts -----

  function CountIn(usage: Json, key: string): Option<int> {
    if usage.Obj? && key in usage.fields then AsCount(usage.fields[key]) else None
  }

  function ObjectIn(usage: Json, key: string): Json {
    if usage.Obj? && key in usage.fields then usage.fields[key] else Null
  }

  /** What the counts reported under the names of the Responses API come to in a Chat Completions usage. */
  predicate UsageIs(chat: Option<Usage>, usage: Json) {
    var prompt, completion := CountIn(usage, "input_tokens").GetOr(0), CountIn(usage, "output_tokens").GetOr(0);
    && (chat.None? <==> prompt == 0)
    && (chat.Some? ==>
          && chat.value.prompt == prompt && chat.value.completion == completion
          && chat.value.total == CountIn(usage, "total_tokens").GetOr(prompt + completion)
          && chat.value.cached == CountIn(ObjectIn(usage, "input_tokens_details"), "cached_tokens")
          && chat.value.reasoned == CountIn(ObjectIn(usage, "output_tokens_details"), "reasoning_tokens")
          && chat.value.cacheWritten == None)
  }

  lemma WholeUsageMeans(reply: Reply)
    ensures UsageIs(Complete(reply).usage, reply.usage)
  {
    MappedUsageMeans(reply.usage);
  }

  lemma MappedUsageMeans(usage: Json)
    ensures UsageIs(MapUsage(usage), usage)
  {
  }

  lemma StreamUsageMeans(events: seq<Event>, incomplete: bool, status: Option<string>, usage: Json,
                         holder: map<string, Json>, spot: Spotter)
    requires Flowing(events)
    ensures var out := Fold(events + [TurnEnded(incomplete, status, usage)], holder, spot).out;
            out != [] && out[|out| - 1].Finish? && UsageIs(out[|out| - 1].usage, usage)
  {
    var e := TurnEnded(incomplete, status, usage);
    PhaseFollowsEvents(events, holder, spot);
    assert (events + [e])[..|events|] == events;
    StepParts(Fold(events, holder, spot), e, spot);
    MappedUsageMeans(usage);
  }

  /** What the end events report under a key, in order. */
  function Reported(events: seq<Event>, key: string): seq<Json> {
    if events == [] then []
    else
      var before := Reported(events[..|events| - 1], key);
      match events[|events| - 1]
      case TurnEnded(_, _, usage) => if usage.Obj? && key in usage.fields then before + [usage.fields[key]] else before
      case _ => before
  }

  /** The metering row shows the last value reported under each key, and keeps its own where none was. */
  lemma {:induction false} MeteringShowsTheLast(events: seq<Event>, holder: map<string, Json>, spot: Spotter, key: string)
    requires Flowing(events)
    ensures var reported := Reported(events, key);
            Lookup(Fold(events, holder, spot).metered, key) ==
            if reported == [] then Lookup(holder, key) else Some(reported[|reported| - 1])
  {
    if events != [] {
      var front, e := events[..|events| - 1], events[|events| - 1];
      assert events == front + [e];
      FlowingSnoc(front, e);
      MeteringShowsTheLast(front, holder, spot, key);
      PhaseFollowsEvents(front, holder, spot);
      MeteredStep(Fold(front, holder, spot), e, spot);
    }
  }

  lemma MeteredStep(s: State, e: Event, spot: Spotter)
    requires s.phase == Running
    ensures Step(s, e, spot).metered == if e.TurnEnded? && e.usage.Obj? then s.metered + e.usage.fields else s.metered
  {
    assert s.metered + map[] == s.metered;
  }

  // ----- Text and calls -----

  /** A whole reply's text is what it states as its output text, or else that of its messages. */
  lemma WholeTextMeans(reply: Reply, parts: seq<string>)
    ensures reply.outputText.Some? ==> Complete(reply).message.content == reply.outputText
    ensures reply.outputText.None? ==>
              var more := reply.(items := reply.items + [MessageItem(parts)]);
              Complete(more).message.content == Some(Complete(reply).message.content.value + Concat(parts))
  {
    assert (reply.items + [MessageItem(parts)])[..|reply.items|] == reply.items;
  }

  /** A whole reply's calls, in order: named by call id, or by item id where there is none, with `{}` for no arguments. */
  lemma WholeCallsMean(reply: Reply, n: nat)
    requires n < |CallItems(reply.items)|
    ensures var item, calls := CallItems(reply.items)[n], Complete(reply).message.toolCalls;
            && |calls| == |CallItems(reply.items)| && calls[n].name == item.name
            && (item.callId != "" ==> calls[n].id == Str(item.callId))
            && (item.callId == "" ==> calls[n].id == Str(item.id))
            && (item.arguments != "" ==> calls[n].arguments == item.arguments)
            && (item.arguments == "" ==> calls[n].arguments == "{}")
  {
  }

  /** An added item opens a call of the next number, named the same way. */
  lemma AddedCallMeans(events: seq<Event>, id: string, callId: string, name: Json, position: string,
                       holder: map<string, Json>, spot: Spotter)
    requires Flowing(events)
    ensures Fold(events + [CallAdded(id, callId, name, position)], holder, spot).out ==
            Fold(events, holder, spot).out + [ToolOpen(|SlotsOf(events)|, Str(if callId == "" then id else callId), name)]
  {
    var e := CallAdded(id, callId, name, position);
    PhaseFollowsEvents(events, holder, spot);
    SlotsAreNumbers(events, holder, spot);
    assert (events + [e])[..|events|] == events;
    StepParts(Fold(events, holder, spot), e, spot);
  }

  /** Right after an item is added, an argument delta that shares its id, or its position where neither has an id, goes to it. */
  lemma DeltaFindsItsItem(events: seq<Event>, id: string, name: Json, position: string, delta: string,
                          holder: map<string, Json>, spot: Spotter)
    requires Flowing(events)
    ensures var begun := events + [CallAdded(id, "", name, position)];
            Fold(begun + [ArgumentsDelta(id, position, delta)], holder, spot).out ==
            Fold(begun, holder, spot).out + [ToolArguments(|SlotsOf(events)|, delta)]
  {
    var e := CallAdded(id, "", name, position);
    var begun := events + [e];
    assert begun[..|events|] == events;
    FlowingSnoc(events, e);
    ToolsAreNumbered(begun, id, position, delta, holder, spot);
    assert SlotsOf(begun) == SlotsOf(events) + [DeltaKey(id, position)];
  }

  // ----- Failures -----

  /** An error that is no overflow keeps its type and code, and its words; without any it is given some. */
  lemma ErrorIsRelayed(events: seq<Event>, error: ErrorObject, holder: map<string, Json>, spot: Spotter)
    requires Flowing(events) && spot(error).GetOr("") == ""
    ensures var out := Translate(events + [TurnFailed(error)], holder, spot);
            && out != [] && out[|out| - 1].Failure?
            && var told := out[|out| - 1].error;
            && told.code == error.code
            && told.kind == (if error.kind == None || error.kind == Some("") then Some("api_error") else error.kind)
            && told.message == if error.message == "" then "upstream stream error" else error.message
  {
    PhaseFollowsEvents(events, holder, spot);
    var e := TurnFailed(error);
    assert (events + [e])[..|events|] == events;
    FailureStep(Fold(events, holder, spot), error, spot);
  }
}
