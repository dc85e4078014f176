/**
 The streamed translation refines the whole-reply translation: for every
 stream of events that delivers a reply, the reassembled chunks say what the
 translated reply says.
*/
module AnthropicRefinement {
  import opened Wrappers
  import opened Text
  import opened JsonValues
  import opened Chat
  import opened AnthropicReply
  import opened AnthropicStream
  import opened AnthropicStreamLaws
  import opened AnthropicReassembly

  /** All argument text sent for a block. */
  function InputsFor(events: seq<Event>, key: Option<int>): string {
    if events == [] then ""
    else
      var before := InputsFor(events[..|events| - 1], key);
      var e := events[|events| - 1];
      if e.InputDelta? && e.key == key then before + e.partial else before
  }

  ghost predicate StartedBefore(events: seq<Event>, p: nat, key: Option<int>)
    requires p <= |events|
  {
    exists q | 0 <= q < p :: events[q].ToolStart? && events[q].key == key
  }

  /** Blocks are opened under different keys, and no argument text precedes its block. */
  ghost predicate OrderlyBlocks(events: seq<Event>) {
    && (forall m, n | 0 <= m < n < |StartsOf(events)| :: StartsOf(events)[m].key != StartsOf(events)[n].key)
    && (forall p | 0 <= p < |events| && events[p].InputDelta? :: StartedBefore(events, p, events[p].key))
  }

  /** An input arrives as its JSON text, in pieces; an empty one may also arrive as no text at all. */
  predicate Spells(text: string, input: Json, codec: Codec) {
    codec.parse(text) == Some(Or(input, Obj(map[]))) || (text == "" && !Truthy(input))
  }

  ghost predicate AnnouncesTools(starts: seq<Start>, tools: seq<Block>)
    requires forall t | t in tools :: t.ToolUse?
  {
    && |starts| == |tools|
    && forall n | 0 <= n < |starts| :: starts[n].id == tools[n].id && starts[n].name == tools[n].name
  }

  /**
   * The events carry this reply: its texts, thoughts and argument texts in
   * any pieces and any interleaving, its tool blocks in order, its stop
   * reason, and its counts as the greatest reported.
   */
  ghost predicate Delivers(events: seq<Event>, reply: Reply, codec: Codec) {
    && Healthy(events)
    && (exists e :: e in events && EndsTurn(e))
    && TextOf(events) == TextIn(reply.content)
    && ThoughtsOf(events) == ThoughtsIn(reply.content)
    && OrderlyBlocks(events)
    && AnnouncesTools(StartsOf(events), ToolsIn(reply.content))
    && (forall n | 0 <= n < |StartsOf(events)| ::
          Spells(InputsFor(events, StartsOf(events)[n].key), ToolsIn(reply.content)[n].input, codec))
    && LastStop(events) == (if reply.stop.GetOr("") == "" then None else reply.stop)
    && (forall key :: IsMaximum(CountAt(reply.usage, key), Reports(events, key)))
  }

  // ----- Each call gets exactly the text of its own block -----

  lemma {:induction false} StartsGrow(events: seq<Event>, i: nat)
    requires i <= |events|
    ensures StartsOf(events[..i]) <= StartsOf(events)
    decreases |events|
  {
    if i == |events| {
      assert events[..i] == events;
    } else {
      var front := events[..|events| - 1];
      assert front[..i] == events[..i];
      StartsGrow(front, i);
    }
  }

  lemma {:induction false} StartIsListed(events: seq<Event>, q: nat) returns (m: nat)
    requires q < |events| && events[q].ToolStart?
    ensures m < |StartsOf(events)| && StartsOf(events)[m].key == events[q].key
    decreases |events|
  {
    var front := events[..|events| - 1];
    if q == |events| - 1 {
      m := |StartsOf(front)|;
    } else {
      m := StartIsListed(front, q);
    }
  }

  /** Where an argument delta of an orderly stream goes. */
  lemma OrderlyOwner(events: seq<Event>, p: nat, n: nat)
    requires OrderlyBlocks(events)
    requires p < |events| && events[p].InputDelta? && n < |StartsOf(events)|
    ensures OwnerIn(StartsOf(events[..p]), events[p].key) == Some(n) <==> StartsOf(events)[n].key == events[p].key
  {
    var key, before := events[p].key, events[..p];
    assert StartedBefore(events, p, key);
    var q :| 0 <= q < p && events[q].ToolStart? && events[q].key == key;
    var m := StartIsListed(before, q);
    StartsGrow(events, p);
    OwnerIsLast(StartsOf(before), key, m);
    var owner := OwnerIn(StartsOf(before), key).value;
    OwnerIsLast(StartsOf(before), key, owner);
    assert StartsOf(events)[owner].key == key;
    if StartsOf(events)[n].key == key && owner != n {
      if owner < n { assert false; } else { assert false; }
    }
  }

  lemma {:induction false} InputIsItsOwn(events: seq<Event>, i: nat, n: nat)
    requires OrderlyBlocks(events)
    requires i <= |events| && n < |StartsOf(events)|
    ensures InputOf(events[..i], n) == InputsFor(events[..i], StartsOf(events)[n].key)
  {
    if i > 0 {
      InputIsItsOwn(events, i - 1, n);
      assert events[..i][..i - 1] == events[..i - 1];
      if events[i - 1].InputDelta? {
        OrderlyOwner(events, i - 1, n);
      }
    }
  }

  // ----- Finish reason and usage -----

  lemma StepFinish(s: State, e: Event, env: Env)
    requires s.failed.None? && !Fails(e)
    ensures Step(s, e, env).finish ==
            if e.MessageDelta? && e.stop.GetOr("") != "" then FinishFor(e.stop.value) else s.finish
  {
  }

  lemma {:induction false} FinishFollowsLastStop(events: seq<Event>, env: Env)
    requires Healthy(events)
    ensures Fold(events, env).finish ==
            if LastStop(events).None? then "stop" else FinishFor(LastStop(events).value)
  {
    if events != [] {
      var front, e := events[..|events| - 1], events[|events| - 1];
      assert events == front + [e];
      HealthySnoc(front, e);
      FinishFollowsLastStop(front, env);
      FailureIsSeen(front, env);
      StepFinish(Fold(front, env), e, env);
    }
  }

  lemma MaximumIsUnique(a: Option<int>, b: Option<int>, counts: seq<int>)
    requires IsMaximum(a, counts) && IsMaximum(b, counts)
    ensures a == b
  {
  }

  lemma UsageAgrees(events: seq<Event>, reply: Reply, env: Env)
    requires Healthy(events)
    requires forall key :: IsMaximum(CountAt(reply.usage, key), Reports(events, key))
    ensures StateUsage(Fold(events, env).captured) == UsageToChat(CountsOf(reply.usage))
  {
    forall key ensures Lookup(Fold(events, env).captured, key) == AsCount(Field(reply.usage, key)) {
      CapturedIsMaximum(events, env, key);
      MaximumIsUnique(Lookup(Fold(events, env).captured, key), CountAt(reply.usage, key), Reports(events, key));
    }
  }

  // ----- The refinement -----

  /** Two argument texts that are the same JSON. */
  ghost predicate SameArguments(a: string, b: string, codec: Codec) {
    codec.parse(a).Some? && codec.parse(a) == codec.parse(b)
  }

  /**
   * The read calls are the translated ones, in order, with the same arguments
   * wherever any text was sent for them, as it was for every non-empty input.
   */
  ghost predicate CallsAgree(read: map<nat, ToolCall>, whole: seq<ToolCall>, tools: seq<Block>, codec: Codec)
    requires |whole| == |tools| && forall t | t in tools :: t.ToolUse?
  {
    && (forall n: nat :: n in read <==> n < |whole|)
    && forall n: nat | n < |whole| ::
         && read[n].id == whole[n].id
         && read[n].name == whole[n].name
         && (SameArguments(read[n].arguments, whole[n].arguments, codec) <==> read[n].arguments != "")
         && (Truthy(tools[n].input) ==> read[n].arguments != "")
  }

  lemma DeliveredCallsAgree(events: seq<Event>, reply: Reply, codec: Codec)
    requires KeepsInputs(codec, reply.content) && Delivers(events, reply, codec)
    ensures var tools := ToolsIn(reply.content);
            CallsAgree(CallsOf(events), CallsFor(tools, codec), tools, codec)
  {
    var tools, starts := ToolsIn(reply.content), StartsOf(events);
    var whole := CallsFor(tools, codec);
    forall n: nat | n < |whole|
      ensures CallAt(events, n).id == whole[n].id && CallAt(events, n).name == whole[n].name
      ensures SameArguments(InputOf(events, n), whole[n].arguments, codec) <==> InputOf(events, n) != ""
      ensures Truthy(tools[n].input) ==> InputOf(events, n) != ""
    {
      assert tools[n] in tools && codec.Keeps(Or(tools[n].input, Obj(map[])));
      assert events[..|events|] == events;
      InputIsItsOwn(events, |events|, n);
      assert Spells(InputsFor(events, starts[n].key), tools[n].input, codec);
      assert codec.parse(whole[n].arguments) == Some(Or(tools[n].input, Obj(map[])));
    }
  }

  /** The one case where the two translations name different finishes. */
  predicate FinishesDiffer(reply: Reply) {
    ToolsIn(reply.content) != [] && reply.stop.Some? && FinishFor(reply.stop.value) == "stop"
  }

  /**
   * The stream's client and the whole-reply translation agree on text,
   * reasoning, tool calls and usage; on the finish reason they agree unless a
   * tool call is present and the stated stop reason maps to `stop`, where the
   * stream says `tool_calls`.
   */
  lemma StreamRefinesWholeReply(events: seq<Event>, reply: Reply, codec: Codec, env: Env, holder: map<string, int>)
    requires KeepsInputs(codec, reply.content) && Delivers(events, reply, codec)
    ensures var r := Read(Translate(events, Exhausted, env, holder, None).out);
            var whole := Complete(reply, codec);
            && r.done && r.error.None?
            && whole.message.content == (if r.text == "" then None else Some(r.text))
            && r.thoughts == whole.message.reasoning
            && CallsAgree(r.calls, whole.message.toolCalls, ToolsIn(reply.content), codec)
            && r.usage == whole.usage
            && (r.finish == Some(whole.finish) <==> !FinishesDiffer(reply))
            && (FinishesDiffer(reply) ==> r.finish == Some("tool_calls") && whole.finish == "stop")
  {
    var s := Fold(events, env);
    FailureIsSeen(events, env);
    EndedIsEarned(events, env);
    Reassembles(events, env);
    IndexesAreOwners(events, env);
    DeliveredCallsAgree(events, reply, codec);
    UsageAgrees(events, reply, env);
    FinishFollowsLastStop(events, env);
    ReadSuccess(s);
    FinishesCompared(s, reply, codec);
  }

  /** What a client reads of a run that ended well. */
  lemma ReadSuccess(s: State)
    requires s.failed.None? && s.ended && Read(s.out).usage.None?
    ensures Read(s.out + Tail(s)) ==
            Read(s.out).(finish := Some(LastFinish(s)), usage := StateUsage(s.captured), done := true)
  {
    var finish := Finish(LastFinish(s), StateUsage(s.captured));
    ReadOne(s.out, finish);
    ReadOne(s.out + [finish], Done);
    assert s.out + Tail(s) == s.out + [finish] + [Done];
  }

  lemma FinishesCompared(s: State, reply: Reply, codec: Codec)
    requires s.sawTool <==> ToolsIn(reply.content) != []
    requires s.finish == if reply.stop.GetOr("") == "" then "stop" else FinishFor(reply.stop.value)
    ensures LastFinish(s) == Complete(reply, codec).finish <==> !FinishesDiffer(reply)
    ensures FinishesDiffer(reply) ==> LastFinish(s) == "tool_calls" && Complete(reply, codec).finish == "stop"
  {
  }
}
