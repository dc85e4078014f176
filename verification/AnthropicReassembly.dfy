/**
 A client reassembling the streamed chunks gets what the whole-reply
 translation gives, however the upstream split and interleaved its deltas.
*/
module AnthropicReassembly {
  import opened Wrappers
  import opened Text
  import opened JsonValues
  import opened Chat
  import opened AnthropicReply
  import opened AnthropicStream
  import opened AnthropicStreamLaws

  // ----- What the events themselves say -----

  function TextOf(events: seq<Event>): string {
    if events == [] then ""
    else
      var before := TextOf(events[..|events| - 1]);
      match events[|events| - 1]
      case TextDelta(text) => before + text
      case _ => before
  }

  function ThoughtsOf(events: seq<Event>): string {
    if events == [] then ""
    else
      var before := ThoughtsOf(events[..|events| - 1]);
      match events[|events| - 1]
      case ThinkingDelta(thinking) => before + thinking
      case _ => before
  }

  /** A tool block as it was announced. */
  datatype Start = Start(key: Option<int>, id: Json, name: Json)

  function StartsOf(events: seq<Event>): seq<Start> {
    if events == [] then []
    else
      var before := StartsOf(events[..|events| - 1]);
      match events[|events| - 1]
      case ToolStart(key, id, name) => before + [Start(key, id, name)]
      case _ => before
  }

  /** The position of the last of `starts` that opened block `key`. */
  function OwnerIn(starts: seq<Start>, key: Option<int>): (owner: Option<nat>)
    ensures owner.Some? ==> owner.value < |starts|
  {
    if starts == [] then None
    else if starts[|starts| - 1].key == key then Some(|starts| - 1)
    else OwnerIn(starts[..|starts| - 1], key)
  }

  lemma {:induction false} OwnerIsLast(starts: seq<Start>, key: Option<int>, m: nat)
    requires m < |starts|
    ensures starts[m].key == key ==> OwnerIn(starts, key).Some? && m <= OwnerIn(starts, key).value
    ensures OwnerIn(starts, key) == Some(m) ==> starts[m].key == key
  {
    if starts[|starts| - 1].key != key && m < |starts| - 1 {
      OwnerIsLast(starts[..|starts| - 1], key, m);
    }
  }

  /** The argument text of tool call `n`: deltas for the block it was the last to open. */
  function InputOf(events: seq<Event>, n: nat): string {
    if events == [] then ""
    else
      var front, e := events[..|events| - 1], events[|events| - 1];
      if e.InputDelta? && OwnerIn(StartsOf(front), e.key) == Some(n)
      then InputOf(front, n) + e.partial
      else InputOf(front, n)
  }

  function CallAt(events: seq<Event>, n: nat): ToolCall
    requires n < |StartsOf(events)|
  {
    ToolCall(StartsOf(events)[n].id, StartsOf(events)[n].name, InputOf(events, n))
  }

  function CallsOf(events: seq<Event>): map<nat, ToolCall> {
    map n: nat | n < |StartsOf(events)| :: CallAt(events, n)
  }

  function LastStop(events: seq<Event>): Option<string> {
    if events == [] then None
    else
      var e := events[|events| - 1];
      if e.MessageDelta? && e.stop.GetOr("") != "" then e.stop else LastStop(events[..|events| - 1])
  }

  // ----- The state keeps the tool index of every open block -----

  ghost predicate Indexed(s: State, starts: seq<Start>) {
    && s.next == |starts|
    && (s.sawTool <==> starts != [])
    && forall key :: Lookup(s.indexOf, key) == OwnerIn(starts, key)
  }

  lemma IndexedStep(s: State, starts: seq<Start>, e: Event, env: Env)
    requires Indexed(s, starts) && s.failed.None?
    ensures Indexed(Step(s, e, env), if e.ToolStart? then starts + [Start(e.key, e.id, e.name)] else starts)
  {
    if e.ToolStart? {
      var starts' := starts + [Start(e.key, e.id, e.name)];
      var s' := Step(s, e, env);
      assert starts'[..|starts|] == starts;
      forall key ensures Lookup(s'.indexOf, key) == OwnerIn(starts', key) {
        assert Lookup(s.indexOf, key) == OwnerIn(starts, key);
      }
    }
  }

  lemma {:induction false} IndexesAreOwners(events: seq<Event>, env: Env)
    requires Healthy(events)
    ensures Fold(events, env).failed.None? && Indexed(Fold(events, env), StartsOf(events))
  {
    if events != [] {
      var front, e := events[..|events| - 1], events[|events| - 1];
      assert events == front + [e];
      HealthySnoc(front, e);
      IndexesAreOwners(front, env);
      StepFails(Fold(front, env), e, env);
      IndexedStep(Fold(front, env), StartsOf(front), e, env);
    }
  }

  lemma {:induction false} NoInputBeforeStart(events: seq<Event>, n: nat)
    requires |StartsOf(events)| <= n
    ensures InputOf(events, n) == ""
  {
    if events != [] {
      NoInputBeforeStart(events[..|events| - 1], n);
    }
  }

  /** The calls after one more event. */
  function CallsAfter(front: seq<Event>, e: Event): map<nat, ToolCall> {
    if e.ToolStart? then CallsOf(front)[|StartsOf(front)| := ToolCall(e.id, e.name, "")]
    else if e.InputDelta? && OwnerIn(StartsOf(front), e.key).Some? then
      var n := OwnerIn(StartsOf(front), e.key).value;
      CallsOf(front)[n := CallAt(front, n).(arguments := InputOf(front, n) + e.partial)]
    else CallsOf(front)
  }

  lemma CallsStep(front: seq<Event>, e: Event)
    ensures CallsOf(front + [e]) == CallsAfter(front, e)
  {
    var events := front + [e];
    assert events[..|events| - 1] == front && events[|events| - 1] == e;
    var starts, starts' := StartsOf(front), StartsOf(events);
    if e.ToolStart? {
      assert starts' == starts + [Start(e.key, e.id, e.name)];
      NoInputBeforeStart(front, |starts|);
      forall n: nat | n < |starts'| ensures CallAt(events, n) == CallsAfter(front, e)[n] {
        assert InputOf(events, n) == InputOf(front, n);
      }
    } else {
      assert starts' == starts;
      forall n: nat | n < |starts| ensures CallAt(events, n) == CallsAfter(front, e)[n] {
        assert CallsOf(front)[n] == CallAt(front, n);
      }
    }
  }

  /** For every stream of events without a failure, what a client reads. */
  lemma {:induction false} Reassembles(events: seq<Event>, env: Env)
    requires Healthy(events)
    ensures var r := Read(Fold(events, env).out);
            r == Reading(TextOf(events), ThoughtsOf(events), CallsOf(events), None, None, None, false)
  {
    if events == [] {
      assert Read([Opening]) == ReadChunk(Read([]), Opening) by {
        ReadOne([], Opening);
        assert [] + [Opening] == [Opening];
      }
    } else {
      var front, e := events[..|events| - 1], events[|events| - 1];
      assert events == front + [e];
      HealthySnoc(front, e);
      Reassembles(front, env);
      IndexesAreOwners(front, env);
      StepYields(Fold(front, env), e, env);
      ReadStep(Fold(front, env), front, e);
      CallsStep(front, e);
    }
  }

  lemma ReadStart(s: State, front: seq<Event>, e: Event)
    requires e.ToolStart?
    requires s.next == |StartsOf(front)| && Read(s.out).calls == CallsOf(front)
    ensures Read(s.out + Emission(s, e)) == Read(s.out).(calls := CallsAfter(front, e))
  {
    ReadOne(s.out, ToolOpen(s.next, e.id, e.name));
    assert s.next !in CallsOf(front);
  }

  lemma ReadInput(s: State, front: seq<Event>, e: Event)
    requires e.InputDelta?
    requires Lookup(s.indexOf, e.key) == OwnerIn(StartsOf(front), e.key)
    requires Read(s.out).calls == CallsOf(front)
    ensures Read(s.out + Emission(s, e)) == Read(s.out).(calls := CallsAfter(front, e))
  {
    if e.key in s.indexOf {
      var n := s.indexOf[e.key];
      ReadOne(s.out, ToolArguments(n, e.partial));
      assert n in CallsOf(front) && CallsOf(front)[n] == CallAt(front, n);
    } else {
      assert s.out + [] == s.out;
    }
  }

  lemma ReadTextStep(s: State, e: Event)
    requires e.TextDelta? || e.ThinkingDelta?
    ensures var r := Read(s.out);
            Read(s.out + Emission(s, e)) ==
            if e.TextDelta? then r.(text := r.text + e.text) else r.(thoughts := r.thoughts + e.thinking)
  {
    var r := Read(s.out);
    if Emission(s, e) == [] {
      assert s.out + Emission(s, e) == s.out;
      assert r.text + "" == r.text;
      assert r.thoughts + "" == r.thoughts;
    } else {
      ReadOne(s.out, Emission(s, e)[0]);
    }
  }

  lemma ReadStep(s: State, front: seq<Event>, e: Event)
    requires Indexed(s, StartsOf(front))
    requires Read(s.out).calls == CallsOf(front)
    ensures var r, r' := Read(s.out), Read(s.out + Emission(s, e));
            && r'.text == (if e.TextDelta? then r.text + e.text else r.text)
            && r'.thoughts == (if e.ThinkingDelta? then r.thoughts + e.thinking else r.thoughts)
            && r'.calls == CallsAfter(front, e)
            && r' == r.(text := r'.text, thoughts := r'.thoughts, calls := r'.calls)
  {
    match e {
      case ToolStart(_, _, _) => ReadStart(s, front, e);
      case InputDelta(key, _) =>
        assert Lookup(s.indexOf, key) == OwnerIn(StartsOf(front), key);
        ReadInput(s, front, e);
      case TextDelta(_) => ReadTextStep(s, e);
      case ThinkingDelta(_) => ReadTextStep(s, e);
      case _ => assert s.out + Emission(s, e) == s.out;
    }
  }

  // ----- Tool numbering -----

  ghost predicate WellNumbered(s: State) {
    && DenselyNumbered(s.out)
    && Numbered(s.out) == s.next
    && Announced(s.out)
    && forall n: nat | n < s.next :: OpenedBefore(s.out, |s.out|, n)
  }

  lemma StepIndexes(s: State, e: Event, env: Env)
    requires s.failed.None?
    ensures e.ToolStart? ==> Step(s, e, env).next == s.next + 1 && Step(s, e, env).indexOf == s.indexOf[e.key := s.next]
    ensures !e.ToolStart? ==> Step(s, e, env).next == s.next && Step(s, e, env).indexOf == s.indexOf
  {
  }

  ghost predicate IndexesBelow(s: State) {
    forall key | key in s.indexOf :: s.indexOf[key] < s.next
  }

  lemma NumberingStep(s: State, e: Event, s': State)
    requires WellNumbered(s) && IndexesBelow(s)
    requires s'.out == s.out + Emission(s, e)
    requires s'.next == if e.ToolStart? then s.next + 1 else s.next
    ensures WellNumbered(s')
  {
    if Emission(s, e) == [] {
      assert s'.out == s.out;
    } else {
      NumberingOne(s, Emission(s, e)[0], s');
    }
  }

  lemma NumberingOne(s: State, c: Chunk, s': State)
    requires WellNumbered(s) && s'.out == s.out + [c]
    requires c.ToolArguments? ==> c.index < s.next
    requires c.ToolOpen? ==> c.index == s.next
    requires s'.next == if c.ToolOpen? then s.next + 1 else s.next
    ensures WellNumbered(s')
  {
    assert c.ToolArguments? ==> OpenedBefore(s.out, |s.out|, c.index);
    DenseAppend(s.out, c);
    AnnouncedAppend(s.out, c);
    forall n: nat | n < s'.next ensures OpenedBefore(s'.out, |s'.out|, n) {
      assert n < s.next ==> OpenedBefore(s.out, |s.out|, n);
    }
  }

  lemma {:induction false} RunIsWellNumbered(events: seq<Event>, env: Env)
    ensures WellNumbered(Fold(events, env)) && IndexesBelow(Fold(events, env))
  {
    if events == [] {
      assert [Opening][..0] == [];
    } else {
      var front, e := events[..|events| - 1], events[|events| - 1];
      var s, s' := Fold(front, env), Fold(events, env);
      RunIsWellNumbered(front, env);
      if s.failed.Some? {
        StepFails(s, e, env);
      } else {
        StepYields(s, e, env);
        StepIndexes(s, e, env);
        NumberingStep(s, e, s');
      }
    }
  }

  lemma {:induction false} NumberingExtends(chunks: seq<Chunk>, more: seq<Chunk>)
    requires DenselyNumbered(chunks) && Announced(chunks)
    requires forall c | c in more :: !IsTool(c)
    ensures DenselyNumbered(chunks + more) && Announced(chunks + more)
    decreases |more|
  {
    if more == [] {
      assert chunks + more == chunks;
    } else {
      DenseAppend(chunks, more[0]);
      AnnouncedAppend(chunks, more[0]);
      assert chunks + more == (chunks + [more[0]]) + more[1..];
      NumberingExtends(chunks + [more[0]], more[1..]);
    }
  }

  /** In every run, tool indices first appear as 0, 1, 2, ... and each call is announced before its arguments. */
  lemma ToolsAreNumbered(events: seq<Event>, ending: Ending, env: Env,
                         holder: map<string, int>, outcome: Option<string>)
    ensures var out := Translate(events, ending, env, holder, outcome).out;
            DenselyNumbered(out) && Announced(out)
  {
    RunIsWellNumbered(events, env);
    NumberingExtends(Fold(events, env).out, Tail(Fold(events, env)));
  }

  /** An argument delta goes to the call its block last opened, or nowhere if it opened none. */
  lemma DeltaGoesToItsOwner(events: seq<Event>, key: Option<int>, partial: string, env: Env)
    requires Healthy(events)
    ensures var owner := OwnerIn(StartsOf(events), key);
            Fold(events + [InputDelta(key, partial)], env).out ==
            Fold(events, env).out + if owner.Some? then [ToolArguments(owner.value, partial)] else []
    ensures OwnerIn(StartsOf(events), key).None? <==> forall m | 0 <= m < |StartsOf(events)| :: StartsOf(events)[m].key != key
  {
    var all := events + [InputDelta(key, partial)];
    assert all[..|events|] == events;
    IndexesAreOwners(events, env);
    assert Lookup(Fold(events, env).indexOf, key) == OwnerIn(StartsOf(events), key);
    forall m | 0 <= m < |StartsOf(events)| ensures StartsOf(events)[m].key == key ==> OwnerIn(StartsOf(events), key).Some? {
      OwnerIsLast(StartsOf(events), key, m);
    }
    if OwnerIn(StartsOf(events), key).Some? {
      OwnerIsLast(StartsOf(events), key, OwnerIn(StartsOf(events), key).value);
    }
  }
}
