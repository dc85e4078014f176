/**
 The streamed Responses translation refines the whole-reply translation, for
 every splitting and interleaving of a reply's deltas.
*/
module ResponsesRefinement {
  import opened Wrappers
  import opened Text
  import opened JsonValues
  import opened Chat
  import opened ResponsesReply
  import opened ResponsesStream
  import opened ResponsesLaws

  // ----- What the events themselves say -----

  function TextOf(events: seq<Event>): string {
    if events == [] then ""
    else
      var before := TextOf(events[..|events| - 1]);
      match events[|events| - 1]
      case TextDelta(text) => before + text
      case _ => before
  }

  /** A call as it was added. */
  datatype Added = Added(key: string, id: Json, name: Json)

  function AddedIn(events: seq<Event>): seq<Added> {
    if events == [] then []
    else
      var before := AddedIn(events[..|events| - 1]);
      match events[|events| - 1]
      case CallAdded(id, callId, name, position) =>
        before + [Added(AddedKey(id, callId, position), CallName(callId, id), name)]
      case _ => before
  }

  /** All argument text sent under a key. */
  function ArgumentsFor(events: seq<Event>, key: string): string {
    if events == [] then ""
    else
      var before := ArgumentsFor(events[..|events| - 1], key);
      match events[|events| - 1]
      case ArgumentsDelta(itemId, position, delta) =>
        if DeltaKey(itemId, position) == key then before + delta else before
      case _ => before
  }

  predicate Plain(e: Event) {
    e.CallAdded? || e.ArgumentsDelta? || e.TextDelta? || e.OtherEvent?
  }

  ghost predicate Keyed(added: seq<Added>, key: string) {
    exists n | 0 <= n < |added| :: added[n].key == key
  }

  ghost predicate Distinct(added: seq<Added>) {
    forall m, n | 0 <= m < n < |added| :: added[m].key != added[n].key
  }

  /** Calls are added under different keys, and no argument text precedes its call. */
  ghost predicate Orderly(events: seq<Event>) {
    && (forall i | 0 <= i < |events| :: Plain(events[i]))
    && Distinct(AddedIn(events))
    && forall p | 0 <= p < |events| && events[p].ArgumentsDelta? ::
         Keyed(AddedIn(events[..p]), DeltaKey(events[p].itemId, events[p].position))
  }

  function CallAt(events: seq<Event>, n: nat): ToolCall
    requires n < |AddedIn(events)|
  {
    var added := AddedIn(events)[n];
    ToolCall(added.id, added.name, ArgumentsFor(events, added.key))
  }

  function CallsOf(events: seq<Event>): map<nat, ToolCall> {
    map n: nat | n < |AddedIn(events)| :: CallAt(events, n)
  }

  // ----- Orderly streams -----

  lemma ReadingsSnoc(front: seq<Event>, e: Event, key: string)
    ensures AddedIn(front + [e]) ==
            if e.CallAdded? then AddedIn(front) + [Added(AddedKey(e.id, e.callId, e.position), CallName(e.callId, e.id), e.name)]
            else AddedIn(front)
    ensures ArgumentsFor(front + [e], key) ==
            if e.ArgumentsDelta? && DeltaKey(e.itemId, e.position) == key then ArgumentsFor(front, key) + e.delta
            else ArgumentsFor(front, key)
  {
    assert (front + [e])[..|front|] == front;
  }

  lemma OrderlyFront(front: seq<Event>, e: Event)
    requires Orderly(front + [e])
    ensures Orderly(front) && Plain(e)
    ensures e.ArgumentsDelta? ==> Keyed(AddedIn(front), DeltaKey(e.itemId, e.position))
    ensures e.CallAdded? ==> !Keyed(AddedIn(front), AddedKey(e.id, e.callId, e.position))
  {
    var events := front + [e];
    ReadingsSnoc(front, e, "");
    assert events[|front|] == e && events[..|front|] == front;
    forall i | 0 <= i < |front| ensures events[i] == front[i] {
    }
    forall m, n | 0 <= m < n < |AddedIn(front)| ensures AddedIn(front)[m].key != AddedIn(front)[n].key {
      assert AddedIn(events)[m] == AddedIn(front)[m] && AddedIn(events)[n] == AddedIn(front)[n];
    }
    forall p | 0 <= p < |front| && front[p].ArgumentsDelta?
      ensures Keyed(AddedIn(front[..p]), DeltaKey(front[p].itemId, front[p].position))
    {
      assert events[p] == front[p] && events[..p] == front[..p];
    }
    if e.CallAdded? {
      forall n | 0 <= n < |AddedIn(front)| ensures AddedIn(front)[n].key != AddedKey(e.id, e.callId, e.position) {
        assert AddedIn(events)[n] == AddedIn(front)[n];
        assert AddedIn(events)[|AddedIn(front)|].key == AddedKey(e.id, e.callId, e.position);
      }
    }
  }

  lemma {:induction false} NoArgumentsYet(events: seq<Event>, key: string)
    requires Orderly(events) && !Keyed(AddedIn(events), key)
    ensures ArgumentsFor(events, key) == ""
  {
    if events != [] {
      var front, e := events[..|events| - 1], events[|events| - 1];
      assert events == front + [e];
      OrderlyFront(front, e);
      ReadingsSnoc(front, e, key);
      forall n | 0 <= n < |AddedIn(front)| ensures AddedIn(front)[n].key != key {
        assert AddedIn(events)[n] == AddedIn(front)[n];
      }
      NoArgumentsYet(front, key);
    }
  }

  lemma {:induction false} SlotsAreAdded(events: seq<Event>)
    requires Orderly(events)
    ensures |SlotsOf(events)| == |AddedIn(events)|
    ensures forall n | 0 <= n < |AddedIn(events)| :: SlotsOf(events)[n] == AddedIn(events)[n].key
  {
    if events != [] {
      var front, e := events[..|events| - 1], events[|events| - 1];
      assert events == front + [e];
      OrderlyFront(front, e);
      SlotsAreAdded(front);
      if e.ArgumentsDelta? {
        var n :| 0 <= n < |AddedIn(front)| && AddedIn(front)[n].key == DeltaKey(e.itemId, e.position);
        assert SlotsOf(front)[n] == DeltaKey(e.itemId, e.position);
      }
    }
  }

  lemma OrderlyFlows(events: seq<Event>)
    requires Orderly(events)
    ensures Flowing(events)
  {
  }

  // ----- What a client reads -----

  lemma CallsAdded(front: seq<Event>, e: Event)
    requires e.CallAdded? && Orderly(front) && !Keyed(AddedIn(front), AddedKey(e.id, e.callId, e.position))
    ensures CallsOf(front + [e]) == CallsOf(front)[|AddedIn(front)| := ToolCall(CallName(e.callId, e.id), e.name, "")]
  {
    NoArgumentsYet(front, AddedKey(e.id, e.callId, e.position));
    ReadingsSnoc(front, e, "");
    forall n: nat | n < |AddedIn(front + [e])|
      ensures n < |AddedIn(front)| ==> CallAt(front + [e], n) == CallAt(front, n)
      ensures n == |AddedIn(front)| ==> CallAt(front + [e], n) == ToolCall(CallName(e.callId, e.id), e.name, "")
    {
      ReadingsSnoc(front, e, AddedIn(front + [e])[n].key);
    }
  }

  lemma CallsSent(front: seq<Event>, e: Event, n: nat)
    requires e.ArgumentsDelta? && Distinct(AddedIn(front))
    requires n < |AddedIn(front)| && AddedIn(front)[n].key == DeltaKey(e.itemId, e.position)
    ensures CallsOf(front + [e]) ==
            CallsOf(front)[n := CallAt(front, n).(arguments := CallAt(front, n).arguments + e.delta)]
  {
    ReadingsSnoc(front, e, "");
    forall m: nat | m < |AddedIn(front)|
      ensures CallAt(front + [e], m) ==
              if m == n then CallAt(front, n).(arguments := CallAt(front, n).arguments + e.delta) else CallAt(front, m)
    {
      ReadingsSnoc(front, e, AddedIn(front)[m].key);
      if m < n || n < m {
        assert AddedIn(front)[m].key != AddedIn(front)[n].key;
      }
    }
  }

  lemma CallsKept(front: seq<Event>, e: Event)
    requires e.TextDelta? || e.OtherEvent?
    ensures CallsOf(front + [e]) == CallsOf(front)
  {
    ReadingsSnoc(front, e, "");
    forall n: nat | n < |AddedIn(front)| ensures CallAt(front + [e], n) == CallAt(front, n) {
      ReadingsSnoc(front, e, AddedIn(front)[n].key);
    }
  }

  lemma ReadAdded(s: State, calls: map<nat, ToolCall>, e: Event, spot: Spotter)
    requires e.CallAdded? && Read(s.out).calls == calls && s.next !in calls
    ensures Read(s.out + Emission(s, e, spot)) ==
            Read(s.out).(calls := calls[s.next := ToolCall(CallName(e.callId, e.id), e.name, "")])
  {
    ReadOne(s.out, ToolOpen(s.next, CallName(e.callId, e.id), e.name));
  }

  lemma ReadArguments(s: State, calls: map<nat, ToolCall>, e: Event, n: nat, spot: Spotter)
    requires e.ArgumentsDelta? && Read(s.out).calls == calls && n in calls
    requires Lookup(s.indexOf, DeltaKey(e.itemId, e.position)) == Some(n)
    ensures Read(s.out + Emission(s, e, spot)) ==
            Read(s.out).(calls := calls[n := calls[n].(arguments := calls[n].arguments + e.delta)])
  {
    ReadOne(s.out, ToolArguments(n, e.delta));
  }

  lemma ReadOther(s: State, e: Event, spot: Spotter)
    requires e.TextDelta? || e.OtherEvent?
    ensures var r := Read(s.out);
            Read(s.out + Emission(s, e, spot)) == if e.TextDelta? then r.(text := r.text + e.text) else r
  {
    if e.TextDelta? {
      ReadOne(s.out, Content(e.text));
    } else {
      assert s.out + [] == s.out;
    }
  }

  lemma TextSnoc(front: seq<Event>, e: Event)
    ensures TextOf(front + [e]) == if e.TextDelta? then TextOf(front) + e.text else TextOf(front)
  {
    assert (front + [e])[..|front|] == front;
  }

  lemma ReadStep(s: State, front: seq<Event>, e: Event, spot: Spotter)
    requires Orderly(front + [e]) && Orderly(front)
    requires Numbers(s, SlotsOf(front))
    requires Read(s.out) == Reading(TextOf(front), "", CallsOf(front), None, None, None, false)
    ensures Read(s.out + Emission(s, e, spot)) == Reading(TextOf(front + [e]), "", CallsOf(front + [e]), None, None, None, false)
  {
    OrderlyFront(front, e);
    SlotsAreAdded(front);
    TextSnoc(front, e);
    match e {
      case CallAdded(_, _, _, _) =>
        CallsAdded(front, e);
        ReadAdded(s, CallsOf(front), e, spot);
      case ArgumentsDelta(itemId, position, _) =>
        var n := OwnerAmong(AddedIn(front), SlotsOf(front), DeltaKey(itemId, position));
        assert Lookup(s.indexOf, DeltaKey(itemId, position)) == Some(n);
        CallsSent(front, e, n);
        ReadArguments(s, CallsOf(front), e, n, spot);
      case _ =>
        CallsKept(front, e);
        ReadOther(s, e, spot);
    }
  }

  lemma {:induction false} Reassembles(events: seq<Event>, holder: map<string, Json>, spot: Spotter)
    requires Orderly(events)
    ensures Fold(events, holder, spot).phase == Running
    ensures Fold(events, holder, spot).sawTool <==> AddedIn(events) != []
    ensures Read(Fold(events, holder, spot).out) ==
            Reading(TextOf(events), "", CallsOf(events), None, None, None, false)
  {
    OrderlyFlows(events);
    SlotsAreNumbers(events, holder, spot);
    SlotsAreAdded(events);
    PhaseFollowsEvents(events, holder, spot);
    if events == [] {
      ReadOne([], Opening);
      assert [] + [Opening] == [Opening];
    } else {
      var front, e := events[..|events| - 1], events[|events| - 1];
      assert events == front + [e];
      OrderlyFront(front, e);
      Reassembles(front, holder, spot);
      OrderlyFlows(front);
      SlotsAreNumbers(front, holder, spot);
      StepParts(Fold(front, holder, spot), e, spot);
      ReadStep(Fold(front, holder, spot), front, e, spot);
    }
  }

  lemma OwnerAmong(added: seq<Added>, slots: seq<string>, key: string) returns (n: nat)
    requires Keyed(added, key)
    requires |slots| == |added| && forall n | 0 <= n < |added| :: slots[n] == added[n].key
    ensures n < |added| && added[n].key == key && LastSlot(slots, key) == Some(n)
  {
    var m :| 0 <= m < |added| && added[m].key == key;
    LastSlotIsLast(slots, key, m);
    n := LastSlot(slots, key).value;
  }

  // ----- The refinement -----

  ghost predicate Announces(added: seq<Added>, calls: seq<Item>)
    requires forall c | c in calls :: c.CallItem?
  {
    && |added| == |calls|
    && forall n | 0 <= n < |added| ::
         added[n].id == CallName(calls[n].callId, calls[n].id) && added[n].name == calls[n].name
  }

  /** The events carry the items of this reply, in any pieces and any interleaving. */
  ghost predicate Delivers(events: seq<Event>, reply: Reply) {
    && Orderly(events)
    && TextOf(events) == reply.outputText.GetOr(TextIn(reply.items))
    && Announces(AddedIn(events), CallItems(reply.items))
    && forall n | 0 <= n < |AddedIn(events)| ::
         ArgumentsFor(events, AddedIn(events)[n].key) == CallItems(reply.items)[n].arguments
  }

  /** The lines end, or the end marker comes, before anything else is said. */
  predicate Silent(rest: seq<Event>) {
    rest == [] || rest[0].DoneMarker? || (rest[0].OtherEvent? && Silent(rest[1..]))
  }

  lemma {:induction false} SilenceAddsNothing(events: seq<Event>, rest: seq<Event>, holder: map<string, Json>, spot: Spotter)
    requires Silent(rest) && Fold(events, holder, spot).phase == Running
    ensures Fold(events + rest, holder, spot).out == Fold(events, holder, spot).out
    ensures Fold(events + rest, holder, spot).phase != Broken
    decreases |rest|
  {
    if rest == [] {
      assert events + rest == events;
    } else {
      var one := events + [rest[0]];
      assert one[..|events|] == events;
      assert events + rest == one + rest[1..];
      if rest[0].DoneMarker? {
        assert (one + rest[1..])[..|one|] == one;
        StoppedStays(one + rest[1..], |one|, holder, spot);
      } else {
        SilenceAddsNothing(one, rest[1..], holder, spot);
      }
    }
  }

  /** The status a reply ends with is only read one way when it is stated. */
  predicate StatusUnstated(reply: Reply, incomplete: bool) {
    incomplete && reply.status.GetOr("") == ""
  }

  /**
   * The stream's client and the whole-reply translation agree on text, usage
   * and tool calls, whose arguments agree as text exactly where they are not
   * empty; they agree on the finish reason unless the reply of an
   * `incomplete` event states no status.
   */
  lemma StreamRefinesWholeReply(body: seq<Event>, reply: Reply, incomplete: bool, rest: seq<Event>,
                                holder: map<string, Json>, spot: Spotter)
    requires Delivers(body, reply) && Silent(rest)
    ensures var events := body + [TurnEnded(incomplete, reply.status, reply.usage)] + rest;
            var r := Read(Translate(events, holder, spot));
            var whole := Complete(reply);
            && r.done && r.error.None?
            && whole.message.content == Some(r.text)
            && r.usage == whole.usage
            && CallsAgree(r.calls, whole.message.toolCalls, CallItems(reply.items))
            && (r.finish == Some(whole.finish) <==> !StatusUnstated(reply, incomplete))
  {
    var ended := TurnEnded(incomplete, reply.status, reply.usage);
    var heard := body + [ended];
    assert heard[..|body|] == body;
    Reassembles(body, holder, spot);
    var s := Fold(body, holder, spot);
    StepParts(s, ended, spot);
    StepPhase(s, ended, spot);
    SilenceAddsNothing(heard, rest, holder, spot);
    ReadSuccess(s.out, FinishWith(EndStatus(incomplete, reply.status), s.sawTool), MapUsage(reply.usage));
    CallsCompared(body, reply);
  }

  lemma ReadSuccess(out: seq<Chunk>, reason: string, usage: Option<Usage>)
    requires Read(out).usage.None?
    ensures Read(out + [Finish(reason, usage)] + [Done]) ==
            Read(out).(finish := Some(reason), usage := usage, done := true)
  {
    var finish := Finish(reason, usage);
    var finished := out + [finish];
    ReadOne(out, finish);
    ReadOne(finished, Done);
    assert out + [finish] + [Done] == finished + [Done];
  }

  ghost predicate CallsAgree(read: map<nat, ToolCall>, whole: seq<ToolCall>, items: seq<Item>)
    requires |whole| == |items| && forall c | c in items :: c.CallItem?
  {
    && (forall n: nat :: n in read <==> n < |whole|)
    && forall n: nat | n < |whole| ::
         && read[n].id == whole[n].id && read[n].name == whole[n].name
         && (read[n].arguments == whole[n].arguments <==> items[n].arguments != "")
  }

  lemma CallsCompared(body: seq<Event>, reply: Reply)
    requires Delivers(body, reply)
    ensures CallsAgree(CallsOf(body), Complete(reply).message.toolCalls, CallItems(reply.items))
  {
    var items := CallItems(reply.items);
    forall n: nat | n < |items|
      ensures CallAt(body, n).id == CallFor(items[n]).id && CallAt(body, n).name == CallFor(items[n]).name
      ensures CallAt(body, n).arguments == items[n].arguments
    {
    }
  }
}
