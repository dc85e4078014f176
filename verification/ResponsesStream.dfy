/**
 The streaming translation of a Responses reply: the generator, as a loop over
 parsed events, and the state machine that specifies it.
*/
module ResponsesStream {
  import opened Wrappers
  import opened Text
  import opened JsonValues
  import opened Chat
  import opened ResponsesReply

  /** One parsed `data:` line; `position` is the event's output index as text. */
  datatype Event =
    | CallAdded(id: string, callId: string, name: Json, position: string)
    | ArgumentsDelta(itemId: string, position: string, delta: string)
    | TextDelta(text: string)
    | TurnEnded(incomplete: bool, status: Option<string>, usage: Json)
    | TurnFailed(error: ErrorObject)
    | DoneMarker
    | OtherEvent

  datatype Phase = Running | Marked | Broken

  datatype State = State(
    out: seq<Chunk>,
    indexOf: map<string, nat>,
    next: nat,
    sawTool: bool,
    metered: map<string, Json>,
    phase: Phase
  )

  function Begin(holder: map<string, Json>): State {
    State([Opening], map[], 0, false, holder, Running)
  }

  function AddedKey(id: string, callId: string, position: string): string {
    if id != "" then id else if callId != "" then callId else position
  }

  function DeltaKey(itemId: string, position: string): string {
    if itemId != "" then itemId else position
  }

  function EndStatus(incomplete: bool, status: Option<string>): string {
    if status.GetOr("") != "" then status.value else if incomplete then "incomplete" else "completed"
  }

  function RelayedError(error: ErrorObject, overflowIn: ErrorObject -> Option<string>): ErrorObject {
    var overflow := overflowIn(error);
    if overflow.GetOr("") != "" then OverflowError(overflow.value)
    else ErrorObject(
        if error.message != "" then error.message else "upstream stream error",
        if error.kind.GetOr("") != "" then error.kind else Some("api_error"),
        error.code)
  }

  function UsageFields(usage: Json): map<string, Json> {
    if usage.Obj? then usage.fields else map[]
  }

  function Step(s: State, e: Event, overflowIn: ErrorObject -> Option<string>): State {
    if s.phase != Running then s
    else
      match e
      case CallAdded(id, callId, name, position) =>
        s.(sawTool := true, next := s.next + 1,
           indexOf := s.indexOf[AddedKey(id, callId, position) := s.next],
           out := s.out + [ToolOpen(s.next, CallName(callId, id), name)])
      case ArgumentsDelta(itemId, position, delta) =>
        var key := DeltaKey(itemId, position);
        if key in s.indexOf then s.(out := s.out + [ToolArguments(s.indexOf[key], delta)])
        else
          s.(sawTool := true, next := s.next + 1, indexOf := s.indexOf[key := s.next],
             out := s.out + [ToolArguments(s.next, delta)])
      case TextDelta(text) =>
        s.(out := s.out + [Content(text)])
      case TurnEnded(incomplete, status, usage) =>
        s.(metered := s.metered + UsageFields(usage),
           out := s.out + [Finish(FinishWith(EndStatus(incomplete, status), s.sawTool), MapUsage(usage))])
      case TurnFailed(error) =>
        s.(phase := Broken, out := s.out + [Failure(RelayedError(error, overflowIn))])
      case DoneMarker => s.(phase := Marked)
      case OtherEvent => s
  }

  function Fold(events: seq<Event>, holder: map<string, Json>, overflowIn: ErrorObject -> Option<string>): State {
    if events == [] then Begin(holder)
    else Step(Fold(events[..|events| - 1], holder, overflowIn), events[|events| - 1], overflowIn)
  }

  lemma {:induction false} StoppedStays(events: seq<Event>, i: nat, holder: map<string, Json>,
                                        overflowIn: ErrorObject -> Option<string>)
    requires i <= |events| && (i == |events| || Fold(events[..i], holder, overflowIn).phase != Running)
    ensures Fold(events, holder, overflowIn) == Fold(events[..i], holder, overflowIn)
    decreases |events|
  {
    if i == |events| {
      assert events[..i] == events;
    } else {
      var front := events[..|events| - 1];
      assert front[..i] == events[..i];
      StoppedStays(front, i, holder, overflowIn);
    }
  }

  /** What is yielded over a run to the end of the lines: the terminator follows anything but a failure. */
  function Translate(events: seq<Event>, holder: map<string, Json>, overflowIn: ErrorObject -> Option<string>): seq<Chunk> {
    var s := Fold(events, holder, overflowIn);
    if s.phase == Broken then s.out else s.out + [Done]
  }

  method StreamCompletions(events: seq<Event>, holder: map<string, Json>, overflowIn: ErrorObject -> Option<string>)
    returns (out: seq<Chunk>, metered: map<string, Json>)
    ensures out == Translate(events, holder, overflowIn)
    ensures metered == Fold(events, holder, overflowIn).metered
  {
    out, metered := [Opening], holder;
    var indexOf: map<string, nat> := map[];
    var next: nat := 0;
    var sawTool := false;
    var phase := Running;
    var i := 0;
    while i < |events| && phase == Running
      invariant 0 <= i <= |events|
      invariant State(out, indexOf, next, sawTool, metered, phase) == Fold(events[..i], holder, overflowIn)
    {
      assert events[..i + 1][..i] == events[..i];
      match events[i] {
        case CallAdded(id, callId, name, position) =>
          sawTool := true;
          var index := next;
          next := next + 1;
          indexOf := indexOf[AddedKey(id, callId, position) := index];
          out := out + [ToolOpen(index, CallName(callId, id), name)];
        case ArgumentsDelta(itemId, position, delta) =>
          var key := DeltaKey(itemId, position);
          if key !in indexOf {
            indexOf := indexOf[key := next];
            next := next + 1;
            sawTool := true;
          }
          out := out + [ToolArguments(indexOf[key], delta)];
        case TextDelta(text) =>
          out := out + [Content(text)];
        case TurnEnded(incomplete, status, usage) =>
          metered := metered + UsageFields(usage);
          var finish := MapFinish(EndStatus(incomplete, status));
          if sawTool && finish == "stop" {
            finish := "tool_calls";
          }
          out := out + [Finish(finish, MapUsage(usage))];
        case TurnFailed(error) =>
          out := out + [Failure(RelayedError(error, overflowIn))];
          phase := Broken;
        case DoneMarker =>
          phase := Marked;
        case OtherEvent =>
      }
      i := i + 1;
    }
    StoppedStays(events, i, holder, overflowIn);
    if phase == Broken {
      return;
    }
    out := out + [Done];
  }
}
