/**
 The streaming translation of an Anthropic reply: the generator, as a loop over
 parsed events, and the state machine that specifies it.
*/
module AnthropicStream {
  import opened Wrappers
  import opened Text
  import opened JsonValues
  import opened Chat
  import opened AnthropicReply

  /** One parsed `data:` line; a missing text, id or name reads as "". */
  datatype Event =
    | MessageStart(usage: Json)
    | ToolStart(key: Option<int>, id: Json, name: Json)
    | TextDelta(text: string)
    | ThinkingDelta(thinking: string)
    | InputDelta(key: Option<int>, partial: string)
    | MessageDelta(stop: Option<string>, usage: Json)
    | MessageStop(usage: Json)
    | ErrorEvent(error: Option<ErrorObject>)
    | OtherEvent

  /** Whether the lines ran out, or the transport or the caller ended the run. */
  datatype Ending = Exhausted | Aborted

  datatype Env = Env(model: string, overflowIn: ErrorObject -> Option<string>)

  datatype State = State(
    out: seq<Chunk>,
    captured: map<string, int>,
    indexOf: map<Option<int>, nat>,
    next: nat,
    sawTool: bool,
    finish: string,
    ended: bool,
    failed: Option<ErrorObject>
  )

  datatype Run = Run(out: seq<Chunk>, metered: map<string, int>, outcome: Option<string>)

  const START := State([Opening], map[], map[], 0, false, "stop", false, None)

  // ----- Usage -----

  function MaxOf(a: Option<int>, b: Option<int>): Option<int> {
    if a.None? then b
    else if b.None? || b.value <= a.value then a
    else b
  }

  /** The valid count an object reports under a key. */
  function CountAt(usage: Json, key: string): Option<int> {
    if usage.Obj? && key in usage.fields then AsCount(usage.fields[key]) else None
  }

  /** `captured` with every count of `usage` folded in as a high-water mark. */
  function Absorb(captured: map<string, int>, usage: Json): map<string, int> {
    if !usage.Obj? then captured
    else
      map k | k in captured.Keys + usage.fields.Keys
              && MaxOf(Lookup(captured, k), CountAt(usage, k)).Some?
        :: MaxOf(Lookup(captured, k), CountAt(usage, k)).value
  }

  lemma AbsorbAt(captured: map<string, int>, usage: Json, key: string)
    ensures Lookup(Absorb(captured, usage), key) == MaxOf(Lookup(captured, key), CountAt(usage, key))
  {
  }

  /** Fold one event's counts into what is known, and publish it to the metering row. */
  method RecordUsage(captured: map<string, int>, metered: map<string, int>, usage: Json, ghost holder: map<string, int>)
    returns (merged: map<string, int>, published: map<string, int>)
    requires metered == holder + captured
    ensures merged == Absorb(captured, usage)
    ensures published == holder + merged
  {
    merged, published := captured, metered;
    if !usage.Obj? {
      return;
    }
    var pending := usage.fields.Keys;
    while pending != {}
      invariant pending <= usage.fields.Keys
      invariant forall k ::
                  Lookup(merged, k) ==
                  if k in usage.fields && k !in pending then MaxOf(Lookup(captured, k), CountAt(usage, k))
                  else Lookup(captured, k)
      decreases pending
    {
      var key :| key in pending;
      var count := AsCount(usage.fields[key]);
      if count.Some? {
        var previous := Lookup(merged, key);
        merged := merged[key := if previous.None? || previous.value < count.value then count.value else previous.value];
      }
      pending := pending - {key};
    }
    MapsAgree(merged, Absorb(captured, usage));
    published := metered + merged;
    forall k | k in captured ensures k in merged {
      assert Lookup(merged, k).Some?;
    }
  }

  lemma MapsAgree(a: map<string, int>, b: map<string, int>)
    requires forall k :: Lookup(a, k) == Lookup(b, k)
    ensures a == b
  {
    forall k ensures k in a <==> k in b {
      assert Lookup(a, k) == Lookup(b, k);
    }
    forall k | k in a ensures a[k] == b[k] {
      assert Lookup(a, k) == Lookup(b, k);
    }
  }

  // ----- The state machine -----

  function OverflowSentence(model: string): string {
    model + " reached its context window mid-turn (stop_reason " + OVERFLOW_STOP + ")"
  }

  function ReportedFailure(error: Option<ErrorObject>, env: Env): ErrorObject {
    var failed := error.GetOr(ErrorObject("upstream stream error", None, None));
    var overflow := env.overflowIn(failed);
    if overflow.GetOr("") != "" then OverflowError(overflow.value) else failed
  }

  function Step(s: State, e: Event, env: Env): State {
    if s.failed.Some? then s
    else
      match e
      case MessageStart(usage) =>
        s.(captured := Absorb(s.captured, usage))
      case ToolStart(key, id, name) =>
        s.(sawTool := true, next := s.next + 1, indexOf := s.indexOf[key := s.next],
           out := s.out + [ToolOpen(s.next, id, name)])
      case TextDelta(text) =>
        if text == "" then s else s.(out := s.out + [Content(text)])
      case ThinkingDelta(thinking) =>
        if thinking == "" then s else s.(out := s.out + [Reasoning(thinking)])
      case InputDelta(key, partial) =>
        if key in s.indexOf then s.(out := s.out + [ToolArguments(s.indexOf[key], partial)]) else s
      case MessageDelta(stop, usage) =>
        var s' := s.(captured := Absorb(s.captured, usage));
        if stop == Some(OVERFLOW_STOP) then s'.(failed := Some(OverflowError(OverflowSentence(env.model))))
        else if stop.GetOr("") != "" then s'.(finish := FinishFor(stop.value), ended := true)
        else s'
      case MessageStop(usage) =>
        s.(captured := Absorb(s.captured, usage), ended := true)
      case ErrorEvent(error) =>
        s.(failed := Some(ReportedFailure(error, env)))
      case OtherEvent => s
  }

  function Fold(events: seq<Event>, env: Env): State {
    if events == [] then START
    else Step(Fold(events[..|events| - 1], env), events[|events| - 1], env)
  }

  lemma FoldOne(events: seq<Event>, i: nat, env: Env)
    requires i < |events|
    ensures Fold(events[..i + 1], env) == Step(Fold(events[..i], env), events[i], env)
  {
    assert events[..i + 1][..i] == events[..i];
  }

  lemma {:induction false} FailedStays(events: seq<Event>, i: nat, env: Env)
    requires i <= |events| && (i == |events| || Fold(events[..i], env).failed.Some?)
    ensures Fold(events, env) == Fold(events[..i], env)
    decreases |events|
  {
    if i == |events| {
      assert events[..i] == events;
    } else {
      var front := events[..|events| - 1];
      assert front[..i] == events[..i];
      FailedStays(front, i, env);
    }
  }

  // ----- The end of the run -----

  function StateUsage(captured: map<string, int>): Option<Usage> {
    UsageToChat(Counts(
      Lookup(captured, "input_tokens"),
      Lookup(captured, "cache_read_input_tokens"),
      Lookup(captured, "cache_creation_input_tokens"),
      Lookup(captured, "output_tokens")))
  }

  function PartialCounts(captured: map<string, int>): seq<Chunk> {
    var usage := StateUsage(captured);
    if usage.Some? then [UsageOnly(usage.value)] else []
  }

  function ErrorType(error: ErrorObject): string {
    if error.code.GetOr("") != "" then error.code.value
    else if error.kind.GetOr("") != "" then error.kind.value
    else "upstream_stream_error"
  }

  const TRUNCATED := ErrorObject("Upstream stream ended before the turn completed", Some("api_error"), None)

  function LastFinish(s: State): string {
    if s.sawTool && s.finish == "stop" then "tool_calls" else s.finish
  }

  /** The chunks after the event loop, when the lines ran out or it failed. */
  function Tail(s: State): seq<Chunk> {
    if s.failed.Some? then PartialCounts(s.captured) + [Failure(s.failed.value)]
    else if !s.ended then PartialCounts(s.captured) + [Failure(TRUNCATED)]
    else [Finish(LastFinish(s), StateUsage(s.captured)), Done]
  }

  function Translate(events: seq<Event>, ending: Ending, env: Env,
                     holder: map<string, int>, outcome: Option<string>): Run {
    var s := Fold(events, env);
    var metered := holder + s.captured;
    if s.failed.None? && ending.Aborted? then
      Run(s.out, metered, if outcome.GetOr("") == "" then Some("upstream_stream_aborted") else outcome)
    else
      Run(s.out + Tail(s), metered,
          if s.failed.Some? then Some(ErrorType(s.failed.value))
          else if !s.ended then Some("upstream_stream_truncated")
          else outcome)
  }

  method Report(s: State, metered: map<string, int>, usage: Json, ghost holder: map<string, int>)
    returns (s': State, metered': map<string, int>)
    requires metered == holder + s.captured
    ensures s' == s.(captured := Absorb(s.captured, usage)) && metered' == holder + s'.captured
  {
    var captured;
    captured, metered' := RecordUsage(s.captured, metered, usage, holder);
    s' := s.(captured := captured);
  }

  predicate IsContent(e: Event) {
    e.ToolStart? || e.TextDelta? || e.ThinkingDelta? || e.InputDelta?
  }

  /** What an event of a content block yields. */
  method AdvanceBlock(s: State, e: Event, ghost env: Env) returns (s': State)
    requires s.failed.None? && IsContent(e)
    ensures s' == Step(s, e, env) && s'.captured == s.captured
  {
    s' := s;
    match e {
      case ToolStart(key, id, name) =>
        s' := s.(sawTool := true, next := s.next + 1, indexOf := s.indexOf[key := s.next],
                 out := s.out + [ToolOpen(s.next, id, name)]);
      case TextDelta(text) =>
        if text != "" {
          s' := s.(out := s.out + [Content(text)]);
        }
      case ThinkingDelta(thinking) =>
        if thinking != "" {
          s' := s.(out := s.out + [Reasoning(thinking)]);
        }
      case InputDelta(key, partial) =>
        if key in s.indexOf {
          s' := s.(out := s.out + [ToolArguments(s.indexOf[key], partial)]);
        }
    }
  }

  /** One pass of the event loop: what it yields and publishes. */
  method Advance(s: State, metered: map<string, int>, e: Event, env: Env, ghost holder: map<string, int>)
    returns (s': State, metered': map<string, int>)
    requires s.failed.None? && metered == holder + s.captured
    ensures s' == Step(s, e, env) && metered' == holder + s'.captured
  {
    s', metered' := s, metered;
    if IsContent(e) {
      s' := AdvanceBlock(s, e, env);
      return;
    }
    match e {
      case MessageStart(usage) =>
        s', metered' := Report(s, metered, usage, holder);
      case MessageDelta(stop, usage) =>
        s', metered' := Report(s, metered, usage, holder);
        if stop == Some(OVERFLOW_STOP) {
          s' := s'.(failed := Some(OverflowError(OverflowSentence(env.model))));
        } else if stop.GetOr("") != "" {
          s' := s'.(finish := FinishFor(stop.value), ended := true);
        }
      case MessageStop(usage) =>
        s', metered' := Report(s, metered, usage, holder);
        s' := s'.(ended := true);
      case ErrorEvent(error) =>
        s' := s'.(failed := Some(ReportedFailure(error, env)));
      case OtherEvent =>
    }
  }

  /** The generator: what it yields, and what it leaves in the metering row. */
  method StreamCompletions(events: seq<Event>, ending: Ending, env: Env,
                           holder: map<string, int>, outcome: Option<string>)
    returns (out: seq<Chunk>, metered: map<string, int>, named: Option<string>)
    ensures Run(out, metered, named) == Translate(events, ending, env, holder, outcome)
  {
    var s := START;
    metered, named := holder, outcome;
    var i := 0;
    while i < |events| && s.failed.None?
      invariant 0 <= i <= |events|
      invariant s == Fold(events[..i], env)
      invariant metered == holder + s.captured
    {
      FoldOne(events, i, env);
      s, metered := Advance(s, metered, events[i], env, holder);
      i := i + 1;
    }
    FailedStays(events, i, env);
    out := s.out;
    if s.failed.None? && ending.Aborted? {
      if named.GetOr("") == "" {
        named := Some("upstream_stream_aborted");
      }
      return;
    }
    var last, error := Conclude(s);
    out := out + last;
    named := if error.Some? then error else named;
  }

  /** What follows the event loop: the terminator, or the counts reached and then the error. */
  method Conclude(s: State) returns (last: seq<Chunk>, error: Option<string>)
    ensures last == Tail(s)
    ensures error == if s.failed.Some? then Some(ErrorType(s.failed.value))
                     else if !s.ended then Some("upstream_stream_truncated")
                     else None
  {
    if s.failed.Some? {
      return PartialCounts(s.captured) + [Failure(s.failed.value)], Some(ErrorType(s.failed.value));
    }
    if !s.ended {
      return PartialCounts(s.captured) + [Failure(TRUNCATED)], Some("upstream_stream_truncated");
    }
    var finish := s.finish;
    if s.sawTool && finish == "stop" {
      finish := "tool_calls";
    }
    return [Finish(finish, StateUsage(s.captured)), Done], None;
  }
}
