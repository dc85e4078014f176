/**
 What a finished Anthropic turn is reported as: its finish reason, its counts,
 its thinking text and, where it failed, the kind of failure, each told from
 the reply or the events themselves.
*/
module AnthropicFinish {
  import opened Wrappers
  import opened Text
  import opened JsonValues
  import opened Chat
  import opened AnthropicReply
  import opened AnthropicStream
  import opened AnthropicStreamLaws
  import opened AnthropicReassembly
  import opened AnthropicRefinement

  // ----- Finish reasons -----

  /** Some tool block was opened. */
  ghost predicate OpensTool(events: seq<Event>) {
    exists e :: e in events && e.ToolStart?
  }

  lemma {:induction false} SawToolIffOpened(events: seq<Event>, env: Env)
    requires Healthy(events)
    ensures Fold(events, env).sawTool <==> OpensTool(events)
  {
    if events != [] {
      var front, e := events[..|events| - 1], events[|events| - 1];
      assert events == front + [e];
      HealthySnoc(front, e);
      SawToolIffOpened(front, env);
      FailureIsSeen(front, env);
      StepTool(Fold(front, env), e, env);
      assert OpensTool(events) <==> OpensTool(front) || e.ToolStart?;
    }
  }

  lemma StepTool(s: State, e: Event, env: Env)
    requires s.failed.None?
    ensures Step(s, e, env).sawTool <==> s.sawTool || e.ToolStart?
  {
  }

  /**
   * The finish reason a stream ends with: `length` for a turn cut at its token
   * limit, `content_filter` for a refused one, `tool_calls` for one that calls
   * a tool or says so, and `stop` for every other.
   */
  lemma StreamFinishMeans(events: seq<Event>, ending: Ending, env: Env, holder: map<string, int>, outcome: Option<string>,
                          reason: string, usage: Option<Usage>)
    requires Finish(reason, usage) in Translate(events, ending, env, holder, outcome).out
    ensures var stop := LastStop(events).GetOr("");
            && (reason == "length" <==> stop == "max_tokens")
            && (reason == "content_filter" <==> stop == "refusal")
            && (reason == "tool_calls" <==>
                stop == "tool_use" || (OpensTool(events) && stop != "max_tokens" && stop != "refusal"))
            && (reason == "stop" <==>
                !OpensTool(events) && stop != "max_tokens" && stop != "refusal" && stop != "tool_use")
  {
    var s := Fold(events, env);
    LoopYieldsBody(events, env);
    assert Finish(reason, usage) !in s.out;
    FailureIsSeen(events, env);
    assert Finish(reason, usage) in Tail(s);
    assert s.failed.None? && reason == LastFinish(s);
    SawToolIffOpened(events, env);
    FinishFollowsLastStop(events, env);
    FinishWords(s.finish, s.sawTool, LastStop(events).GetOr(""));
  }

  lemma FinishWords(finish: string, sawTool: bool, stop: string)
    requires finish == if stop == "" then "stop" else FinishFor(stop)
    ensures var reason := if sawTool && finish == "stop" then "tool_calls" else finish;
            && (reason == "length" <==> stop == "max_tokens")
            && (reason == "content_filter" <==> stop == "refusal")
            && (reason == "tool_calls" <==> stop == "tool_use" || (sawTool && stop != "max_tokens" && stop != "refusal"))
            && (reason == "stop" <==> !sawTool && stop != "max_tokens" && stop != "refusal" && stop != "tool_use")
  {
  }

  /** The last stop reason stated, read off the events. */
  lemma {:induction false} LastStopIsLast(events: seq<Event>)
    ensures LastStop(events).None? <==> forall e | e in events :: !(e.MessageDelta? && e.stop.GetOr("") != "")
    ensures LastStop(events).Some? ==>
              exists k | 0 <= k < |events| ::
                && events[k].MessageDelta? && events[k].stop == LastStop(events) && LastStop(events) != Some("")
                && forall later | k < later < |events| :: !(events[later].MessageDelta? && events[later].stop.GetOr("") != "")
  {
    if events != [] {
      var n := |events| - 1;
      var front, e := events[..n], events[n];
      LastStopIsLast(front);
      assert events == front + [e];
      if !(e.MessageDelta? && e.stop.GetOr("") != "") && LastStop(front).Some? {
        var k :| 0 <= k < n && front[k].MessageDelta? && front[k].stop == LastStop(front)
                 && forall later | k < later < n :: !(front[later].MessageDelta? && front[later].stop.GetOr("") != "");
        assert events[k] == front[k];
        forall later | k < later < |events| ensures !(events[later].MessageDelta? && events[later].stop.GetOr("") != "") {
          assert later < n ==> events[later] == front[later];
        }
      }
    }
  }

  ghost predicate HoldsTool(blocks: seq<Block>) {
    exists b :: b in blocks && b.ToolUse?
  }

  lemma {:induction false} ToolsIffHeld(blocks: seq<Block>)
    ensures ToolsIn(blocks) != [] <==> HoldsTool(blocks)
  {
    if blocks != [] {
      var front, last := blocks[..|blocks| - 1], blocks[|blocks| - 1];
      ToolsIffHeld(front);
      assert blocks == front + [last];
    }
  }

  /** The finish reason of a whole reply. */
  lemma WholeFinishMeans(reply: Reply, codec: Codec)
    ensures var reason, stop, tools := Complete(reply, codec).finish, reply.stop, HoldsTool(reply.content);
            && (reason == "length" <==> stop == Some("max_tokens"))
            && (reason == "content_filter" <==> stop == Some("refusal"))
            && (reason == "tool_calls" <==> stop == Some("tool_use") || (tools && stop == None))
            && (reason == "stop" <==>
                !(tools && stop == None) && stop != Some("max_tokens") && stop != Some("refusal") && stop != Some("tool_use"))
  {
    ToolsIffHeld(reply.content);
  }

  // ----- Counts -----

  /** What the counts reported under Anthropic's names come to in a Chat Completions usage. */
  predicate UsageIs(usage: Option<Usage>, input: Option<int>, read: Option<int>, written: Option<int>, output: Option<int>) {
    var prompt := input.GetOr(0) + read.GetOr(0) + written.GetOr(0);
    && (usage.None? <==> prompt == 0)
    && (usage.Some? ==>
          && usage.value.prompt == prompt && usage.value.completion == output.GetOr(0)
          && usage.value.total == prompt + output.GetOr(0)
          && usage.value.cached == read && usage.value.cacheWritten == written && usage.value.reasoned == None)
  }

  lemma WholeUsageMeans(reply: Reply, codec: Codec)
    ensures UsageIs(Complete(reply, codec).usage,
                    CountAt(reply.usage, "input_tokens"), CountAt(reply.usage, "cache_read_input_tokens"),
                    CountAt(reply.usage, "cache_creation_input_tokens"), CountAt(reply.usage, "output_tokens"))
  {
  }

  /** The counts on a stream's finish chunk are made of the greatest counts reported under each name. */
  lemma StreamUsageMeans(events: seq<Event>, ending: Ending, env: Env, holder: map<string, int>, outcome: Option<string>,
                         reason: string, usage: Option<Usage>,
                         input: Option<int>, read: Option<int>, written: Option<int>, output: Option<int>)
    requires Finish(reason, usage) in Translate(events, ending, env, holder, outcome).out
    requires IsMaximum(input, Reports(events, "input_tokens")) && IsMaximum(output, Reports(events, "output_tokens"))
    requires IsMaximum(read, Reports(events, "cache_read_input_tokens"))
    requires IsMaximum(written, Reports(events, "cache_creation_input_tokens"))
    ensures UsageIs(usage, input, read, written, output)
  {
    var s := Fold(events, env);
    LoopYieldsBody(events, env);
    assert Finish(reason, usage) !in s.out;
    FailureIsSeen(events, env);
    assert Finish(reason, usage) in Tail(s);
    CapturedIs(events, env, "input_tokens", input);
    CapturedIs(events, env, "output_tokens", output);
    CapturedIs(events, env, "cache_read_input_tokens", read);
    CapturedIs(events, env, "cache_creation_input_tokens", written);
    StateUsageMeans(s.captured);
  }

  lemma CapturedIs(events: seq<Event>, env: Env, key: string, best: Option<int>)
    requires Healthy(events) && IsMaximum(best, Reports(events, key))
    ensures Lookup(Fold(events, env).captured, key) == best
  {
    CapturedIsMaximum(events, env, key);
    MaximumIsUnique(Lookup(Fold(events, env).captured, key), best, Reports(events, key));
  }

  lemma StateUsageMeans(captured: map<string, int>)
    ensures UsageIs(StateUsage(captured), Lookup(captured, "input_tokens"), Lookup(captured, "cache_read_input_tokens"),
                    Lookup(captured, "cache_creation_input_tokens"), Lookup(captured, "output_tokens"))
  {
  }

  // ----- Thinking -----

  /** A thinking block adds the text it states, and a redacted one none. */
  lemma ThinkingIsRead(blocks: seq<Block>, fields: map<string, Json>)
    ensures ThoughtsIn(blocks + [ThinkingBlock(Obj(fields))]) ==
            ThoughtsIn(blocks) + if "thinking" in fields && fields["thinking"].Str? then fields["thinking"].s else ""
  {
    assert (blocks + [ThinkingBlock(Obj(fields))])[..|blocks|] == blocks;
  }

  // ----- Failures -----

  /** A stream that stops short of the end of its turn says so. */
  lemma TruncationIsNamed(events: seq<Event>, env: Env, holder: map<string, int>, outcome: Option<string>)
    requires Healthy(events) && forall e | e in events :: !EndsTurn(e)
    ensures var run := Translate(events, Exhausted, env, holder, outcome);
            && run.outcome == Some("upstream_stream_truncated") && run.out != []
            && run.out[|run.out| - 1] ==
               Failure(ErrorObject("Upstream stream ended before the turn completed", Some("api_error"), None))
  {
    FailureIsSeen(events, env);
    EndedIsEarned(events, env);
  }

  /** An upstream error that is no overflow is metered by its code, else its type, else a name of the proxy's own. */
  lemma UpstreamErrorIsNamed(front: seq<Event>, error: ErrorObject, ending: Ending, env: Env, holder: map<string, int>,
                             outcome: Option<string>)
    requires Healthy(front) && env.overflowIn(error).GetOr("") == ""
    ensures var named := Translate(front + [ErrorEvent(Some(error))], ending, env, holder, outcome).outcome;
            && (error.code.GetOr("") != "" ==> named == error.code)
            && (error.code.GetOr("") == "" && error.kind.GetOr("") != "" ==> named == error.kind)
            && (error.code.GetOr("") == "" && error.kind.GetOr("") == "" ==> named == Some("upstream_stream_error"))
  {
    FailureIsSeen(front, env);
    var events := front + [ErrorEvent(Some(error))];
    assert events[..|events| - 1] == front;
    assert Fold(events, env) == Step(Fold(front, env), ErrorEvent(Some(error)), env);
  }

  /** An error event without an error is given words of the proxy's own. */
  lemma WordlessErrorIsNamed(front: seq<Event>, ending: Ending, env: Env, holder: map<string, int>, outcome: Option<string>)
    requires Healthy(front)
    requires env.overflowIn(ErrorObject("upstream stream error", None, None)).GetOr("") == ""
    ensures var run := Translate(front + [ErrorEvent(None)], ending, env, holder, outcome);
            && run.outcome == Some("upstream_stream_error")
            && run.out != [] && run.out[|run.out| - 1] == Failure(ErrorObject("upstream stream error", None, None))
  {
    FailureIsSeen(front, env);
    var events := front + [ErrorEvent(None)];
    assert events[..|events| - 1] == front;
    assert Fold(events, env) == Step(Fold(front, env), ErrorEvent(None), env);
  }

  /** A run cut off keeps the name of an error found before, or gets one. */
  lemma AbortIsNamedOnce(events: seq<Event>, env: Env, holder: map<string, int>, outcome: Option<string>)
    requires Healthy(events)
    ensures Translate(events, Aborted, env, holder, outcome).outcome ==
            if outcome == None || outcome == Some("") then Some("upstream_stream_aborted") else outcome
  {
    FailureIsSeen(events, env);
  }

  predicate NamesWindow(error: ErrorObject, model: string) {
    && error.code == Some("context_length_exceeded") && error.kind == Some("invalid_request_error")
    && Contains(error.message, model) && Contains(error.message, "model_context_window_exceeded")
  }

  /** A turn that runs into the model's context window is an overflow, which names the model and the stop reason. */
  lemma ContextWindowIsAnOverflow(front: seq<Event>, usage: Json, ending: Ending, env: Env, holder: map<string, int>,
                                  outcome: Option<string>)
    requires Healthy(front)
    ensures var e := MessageDelta(Some("model_context_window_exceeded"), usage);
            var run := Translate(front + [e], ending, env, holder, outcome);
            && run.outcome == Some("context_length_exceeded")
            && run.out != [] && run.out[|run.out| - 1].Failure? && NamesWindow(run.out[|run.out| - 1].error, env.model)
  {
    var e := MessageDelta(Some("model_context_window_exceeded"), usage);
    var events := front + [e];
    FailureIsSeen(front, env);
    assert events[..|events| - 1] == front;
    var s := Fold(events, env);
    assert s == Step(Fold(front, env), e, env);
    WindowStep(Fold(front, env), usage, env);
    OverflowIsTyped(OverflowSentence(env.model));
    SentenceSays(env.model);
  }

  lemma WindowStep(s: State, usage: Json, env: Env)
    requires s.failed.None?
    ensures Step(s, MessageDelta(Some("model_context_window_exceeded"), usage), env).failed ==
            Some(OverflowError(OverflowSentence(env.model)))
  {
  }

  lemma SentenceSays(model: string)
    ensures NamesWindow(OverflowError(OverflowSentence(model)), model)
  {
    var sentence, message := OverflowSentence(model), OverflowError(OverflowSentence(model)).message;
    OverflowIsTyped(sentence);
    var head := model + " reached its context window mid-turn (stop_reason ";
    assert sentence == head + OVERFLOW_STOP + ")";
    ContainsMiddle("", model, sentence[|model|..]);
    ContainsMiddle(head, OVERFLOW_STOP, ")");
    assert "" + model + sentence[|model|..] == sentence;
    EndingContains(message, sentence, model);
    EndingContains(message, sentence, OVERFLOW_STOP);
  }

  lemma EndingContains(s: string, ending: string, word: string)
    requires EndsWith(s, ending) && Contains(ending, word)
    ensures Contains(s, word)
  {
    var i :| 0 <= i <= |ending| - |word| && OccursAt(ending, word, i);
    var start := |s| - |ending|;
    assert s[start + i..start + i + |word|] == s[start..][i..i + |word|];
    assert OccursAt(s, word, start + i);
  }
}
