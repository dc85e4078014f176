/**
 What holds of every run of the Responses stream translation, and that a
 client reassembling its chunks gets what the whole-reply translation gives.
*/
module ResponsesLaws {
  import opened Wrappers
  import opened Text
  import opened JsonValues
  import opened Chat
  import opened ResponsesReply
  import opened ResponsesStream

  type Spotter = ErrorObject -> Option<string>

  // ----- The terminator -----

  predicate Stops(e: Event) {
    e.TurnFailed? || e.DoneMarker?
  }

  /** A failure event comes before any end marker. */
  predicate Breaks(events: seq<Event>) {
    events != [] && (events[0].TurnFailed? || (!events[0].DoneMarker? && Breaks(events[1..])))
  }

  predicate Flowing(events: seq<Event>) {
    forall i | 0 <= i < |events| :: !Stops(events[i])
  }

  lemma FlowingSnoc(events: seq<Event>, e: Event)
    ensures Flowing(events + [e]) <==> Flowing(events) && !Stops(e)
  {
    var all := events + [e];
    assert all[|events|] == e;
    forall i | 0 <= i < |events| ensures all[i] == events[i] {
    }
  }

  lemma FlowingTail(events: seq<Event>)
    requires events != []
    ensures Flowing(events) <==> !Stops(events[0]) && Flowing(events[1..])
  {
    forall i | 0 <= i < |events[1..]| ensures events[1..][i] == events[i + 1] {
    }
    if !Stops(events[0]) && Flowing(events[1..]) {
      forall i | 0 <= i < |events| ensures !Stops(events[i]) {
        assert i > 0 ==> events[i] == events[1..][i - 1];
      }
    }
  }

  lemma {:induction false} BreaksSnoc(events: seq<Event>, e: Event)
    ensures Breaks(events + [e]) <==>
            Breaks(events) || (e.TurnFailed? && Flowing(events))
  {
    if events == [] {
      assert ([] + [e])[1..] == [];
    } else {
      assert (events + [e])[1..] == events[1..] + [e];
      BreaksSnoc(events[1..], e);
      FlowingTail(events);
    }
  }

  lemma StepPhase(s: State, e: Event, spot: Spotter)
    ensures Step(s, e, spot).phase ==
            if s.phase != Running then s.phase else if e.TurnFailed? then Broken
            else if e.DoneMarker? then Marked else Running
  {
  }

  lemma {:induction false} PhaseFollowsEvents(events: seq<Event>, holder: map<string, Json>, spot: Spotter)
    ensures Fold(events, holder, spot).phase == Broken <==> Breaks(events)
    ensures Fold(events, holder, spot).phase == Running <==> Flowing(events)
  {
    if events != [] {
      var front, e := events[..|events| - 1], events[|events| - 1];
      assert events == front + [e];
      PhaseFollowsEvents(front, holder, spot);
      BreaksSnoc(front, e);
      FlowingSnoc(front, e);
      StepPhase(Fold(front, holder, spot), e, spot);
    }
  }

  lemma {:induction false} LoopNeverFinishes(events: seq<Event>, holder: map<string, Json>, spot: Spotter)
    ensures Done !in Fold(events, holder, spot).out
    ensures var out := Fold(events, holder, spot).out;
            Breaks(events) ==> out != [] && out[|out| - 1].Failure?
  {
    if events != [] {
      var front, e := events[..|events| - 1], events[|events| - 1];
      assert events == front + [e];
      var s := Fold(front, holder, spot);
      LoopNeverFinishes(front, holder, spot);
      PhaseFollowsEvents(front, holder, spot);
      PhaseFollowsEvents(events, holder, spot);
      StepPhase(s, e, spot);
      if s.phase == Running {
        StepParts(s, e, spot);
      }
    }
  }

  /**
   * The terminator follows everything but a failure: it is there exactly when
   * no failure event was heard, whether or not the turn was ever ended.
   */
  lemma TerminatorIsUnconditional(events: seq<Event>, holder: map<string, Json>, spot: Spotter)
    ensures var out := Translate(events, holder, spot);
            && out != []
            && (Done in out <==> !Breaks(events))
            && (out[|out| - 1] == Done <==> !Breaks(events))
            && (Breaks(events) ==> out[|out| - 1].Failure?)
  {
    LoopNeverFinishes(events, holder, spot);
    PhaseFollowsEvents(events, holder, spot);
  }

  ghost predicate Unfinished(chunks: seq<Chunk>) {
    forall c | c in chunks :: !c.Finish? && !c.Failure?
  }

  lemma {:induction false} CutTurnIsUnfinished(events: seq<Event>, holder: map<string, Json>, spot: Spotter)
    requires Flowing(events) && forall e | e in events :: !e.TurnEnded?
    ensures Unfinished(Fold(events, holder, spot).out)
  {
    if events != [] {
      var front, e := events[..|events| - 1], events[|events| - 1];
      assert events == front + [e];
      FlowingSnoc(front, e);
      CutTurnIsUnfinished(front, holder, spot);
      PhaseFollowsEvents(front, holder, spot);
      StepParts(Fold(front, holder, spot), e, spot);
    }
  }

  /** A turn cut off before it is over ends in the terminator, with no finish reason and no error. */
  lemma CutTurnStillTerminates(events: seq<Event>, holder: map<string, Json>, spot: Spotter)
    requires Flowing(events) && forall e | e in events :: !e.TurnEnded?
    ensures var out := Translate(events, holder, spot);
            out != [] && out[|out| - 1] == Done && Unfinished(out)
  {
    TerminatorIsUnconditional(events, holder, spot);
    PhaseFollowsEvents(events, holder, spot);
    CutTurnIsUnfinished(events, holder, spot);
  }

  /** As when the arguments of a call break off. */
  lemma CutArgumentsLookComplete(holder: map<string, Json>, spot: Spotter)
    ensures var events := [CallAdded("i1", "c1", Str("search"), "0"), ArgumentsDelta("i1", "0", "{\"q")];
            var out := Translate(events, holder, spot);
            out == [Opening, ToolOpen(0, Str("c1"), Str("search")), ToolArguments(0, "{\"q"), Done]
  {
    var added, delta := CallAdded("i1", "c1", Str("search"), "0"), ArgumentsDelta("i1", "0", "{\"q");
    assert [added, delta][..1] == [added] && [added][..0] == [];
    assert Fold([added], holder, spot) == Step(Begin(holder), added, spot);
    assert Fold([added, delta], holder, spot) == Step(Fold([added], holder, spot), delta, spot);
  }

  predicate Told(told: ErrorObject, error: ErrorObject, spot: Spotter) {
    if spot(error).GetOr("") != "" then
      told.code == Some(OVERFLOW_CODE) && Contains(told.message, OVERFLOW_CODE)
    else
      told.code == error.code && told.message != "" && (error.message != "" ==> told.message == error.message)
  }

  /**
   * The first failure is the last thing said: an overflow by its code, any
   * other error in its own words where it has some. Nothing after it is read.
   */
  lemma FirstFailureIsReported(front: seq<Event>, error: ErrorObject, rest: seq<Event>, holder: map<string, Json>, spot: Spotter)
    requires Flowing(front)
    ensures var out := Translate(front + [TurnFailed(error)] + rest, holder, spot);
            && out != [] && out[|out| - 1].Failure?
            && out[..|out| - 1] == Fold(front, holder, spot).out
            && Told(out[|out| - 1].error, error, spot)
  {
    var heard := front + [TurnFailed(error)];
    assert (heard + rest)[..|heard|] == heard && heard[..|front|] == front;
    PhaseFollowsEvents(front, holder, spot);
    FailureStep(Fold(front, holder, spot), error, spot);
    assert Fold(heard, holder, spot) == Step(Fold(front, holder, spot), TurnFailed(error), spot);
    StoppedStays(heard + rest, |heard|, holder, spot);
    RelayedErrorSays(error, spot);
  }

  lemma FailureStep(s: State, error: ErrorObject, spot: Spotter)
    requires s.phase == Running
    ensures Step(s, TurnFailed(error), spot).phase == Broken
    ensures Step(s, TurnFailed(error), spot).out == s.out + [Failure(RelayedError(error, spot))]
  {
  }

  lemma RelayedErrorSays(error: ErrorObject, spot: Spotter)
    ensures Told(RelayedError(error, spot), error, spot)
  {
    OverflowIsInItsMessage(spot(error).GetOr(""));
  }

  // ----- Tool numbering -----

  /** The keys tool calls were numbered under, in order of number. */
  function SlotsOf(events: seq<Event>): seq<string> {
    if events == [] then []
    else
      var before := SlotsOf(events[..|events| - 1]);
      match events[|events| - 1]
      case CallAdded(id, callId, _, position) => before + [AddedKey(id, callId, position)]
      case ArgumentsDelta(itemId, position, _) =>
        var key := DeltaKey(itemId, position);
        if key in before then before else before + [key]
      case _ => before
  }

  function LastSlot(slots: seq<string>, key: string): (slot: Option<nat>)
    ensures slot.Some? ==> slot.value < |slots| && slots[slot.value] == key
    ensures slot.None? <==> key !in slots
  {
    if slots == [] then None
    else if slots[|slots| - 1] == key then Some(|slots| - 1)
    else LastSlot(slots[..|slots| - 1], key)
  }

  lemma {:induction false} LastSlotIsLast(slots: seq<string>, key: string, m: nat)
    requires m < |slots| && slots[m] == key
    ensures LastSlot(slots, key).Some? && m <= LastSlot(slots, key).value
  {
    if slots[|slots| - 1] != key {
      LastSlotIsLast(slots[..|slots| - 1], key, m);
    }
  }

  ghost predicate Numbers(s: State, slots: seq<string>) {
    && s.next == |slots|
    && (s.sawTool <==> slots != [])
    && (forall key :: Lookup(s.indexOf, key) == LastSlot(slots, key))
    && DenselyNumbered(s.out)
    && Numbered(s.out) == s.next
  }

  /** The chunk an event yields while the run is going. */
  function Emission(s: State, e: Event, spot: Spotter): seq<Chunk> {
    match e
    case CallAdded(id, callId, name, _) => [ToolOpen(s.next, CallName(callId, id), name)]
    case ArgumentsDelta(itemId, position, delta) =>
      [ToolArguments(Lookup(s.indexOf, DeltaKey(itemId, position)).GetOr(s.next), delta)]
    case TextDelta(text) => [Content(text)]
    case TurnEnded(incomplete, status, usage) =>
      [Finish(FinishWith(EndStatus(incomplete, status), s.sawTool), MapUsage(usage))]
    case TurnFailed(error) => [Failure(RelayedError(error, spot))]
    case _ => []
  }

  /** The key an event numbers a new tool call under. */
  function NewKey(s: State, e: Event): Option<string> {
    match e
    case CallAdded(id, callId, _, position) => Some(AddedKey(id, callId, position))
    case ArgumentsDelta(itemId, position, _) =>
      if DeltaKey(itemId, position) in s.indexOf then None else Some(DeltaKey(itemId, position))
    case _ => None
  }

  lemma StepParts(s: State, e: Event, spot: Spotter)
    requires s.phase == Running
    ensures var s', key := Step(s, e, spot), NewKey(s, e);
            && s'.out == s.out + Emission(s, e, spot)
            && (key.Some? ==> s'.sawTool && s'.next == s.next + 1 && s'.indexOf == s.indexOf[key.value := s.next])
            && (key.None? ==> s'.sawTool == s.sawTool && s'.next == s.next && s'.indexOf == s.indexOf)
  {
  }

  lemma NumberFresh(s: State, slots: seq<string>, key: string, c: Chunk, s': State)
    requires Numbers(s, slots) && IsTool(c) && c.index == s.next
    requires s'.sawTool && s'.next == s.next + 1 && s'.indexOf == s.indexOf[key := s.next] && s'.out == s.out + [c]
    ensures Numbers(s', slots + [key])
  {
    var slots' := slots + [key];
    assert slots'[..|slots|] == slots;
    forall k ensures Lookup(s'.indexOf, k) == LastSlot(slots', k) {
      assert Lookup(s.indexOf, k) == LastSlot(slots, k);
    }
    DenseAppend(s.out, c);
  }

  lemma NumberOld(s: State, slots: seq<string>, c: Chunk, s': State)
    requires Numbers(s, slots)
    requires IsTool(c) ==> exists key :: key in s.indexOf && s.indexOf[key] == c.index
    requires s'.sawTool == s.sawTool && s'.next == s.next && s'.indexOf == s.indexOf && s'.out == s.out + [c]
    ensures Numbers(s', slots)
  {
    if IsTool(c) {
      var key :| key in s.indexOf && s.indexOf[key] == c.index;
      assert Lookup(s.indexOf, key) == LastSlot(slots, key);
    }
    DenseAppend(s.out, c);
    forall k ensures Lookup(s'.indexOf, k) == LastSlot(slots, k) {
      assert Lookup(s.indexOf, k) == LastSlot(slots, k);
    }
  }

  lemma {:induction false} SlotsAreNumbers(events: seq<Event>, holder: map<string, Json>, spot: Spotter)
    requires Flowing(events)
    ensures Numbers(Fold(events, holder, spot), SlotsOf(events))
  {
    if events == [] {
      assert [Opening][..0] == [];
    } else {
      var front, e := events[..|events| - 1], events[|events| - 1];
      assert events == front + [e];
      FlowingSnoc(front, e);
      var s, s', slots := Fold(front, holder, spot), Fold(events, holder, spot), SlotsOf(front);
      SlotsAreNumbers(front, holder, spot);
      PhaseFollowsEvents(front, holder, spot);
      StepParts(s, e, spot);
      if e.ArgumentsDelta? {
        assert Lookup(s.indexOf, DeltaKey(e.itemId, e.position)) == LastSlot(slots, DeltaKey(e.itemId, e.position));
      }
      if NewKey(s, e).Some? {
        NumberFresh(s, slots, NewKey(s, e).value, Emission(s, e, spot)[0], s');
      } else if Emission(s, e, spot) != [] {
        NumberOld(s, slots, Emission(s, e, spot)[0], s');
      }
    }
  }

  lemma {:induction false} LoopIsDense(events: seq<Event>, holder: map<string, Json>, spot: Spotter)
    ensures DenselyNumbered(Fold(events, holder, spot).out)
  {
    if Flowing(events) {
      SlotsAreNumbers(events, holder, spot);
    } else {
      var front, e := events[..|events| - 1], events[|events| - 1];
      assert events == front + [e];
      FlowingSnoc(front, e);
      LoopIsDense(front, holder, spot);
      var s := Fold(front, holder, spot);
      PhaseFollowsEvents(front, holder, spot);
      if s.phase == Running {
        StepParts(s, e, spot);
        if Emission(s, e, spot) != [] {
          DenseAppend(s.out, Emission(s, e, spot)[0]);
        }
      }
    }
  }

  /**
   * In every run tool indices first appear as 0, 1, 2, ..., and while nothing
   * has stopped it an argument delta goes to the number last given to its
   * key, or to a new one.
   */
  lemma ToolsAreNumbered(events: seq<Event>, itemId: string, position: string, delta: string,
                         holder: map<string, Json>, spot: Spotter)
    ensures DenselyNumbered(Translate(events, holder, spot))
    ensures Flowing(events) ==>
              Fold(events + [ArgumentsDelta(itemId, position, delta)], holder, spot).out ==
              Fold(events, holder, spot).out +
              [ToolArguments(LastSlot(SlotsOf(events), DeltaKey(itemId, position)).GetOr(|SlotsOf(events)|), delta)]
  {
    LoopIsDense(events, holder, spot);
    DenseAppend(Fold(events, holder, spot).out, Done);
    if Flowing(events) {
      var all := events + [ArgumentsDelta(itemId, position, delta)];
      assert all[..|events|] == events;
      SlotsAreNumbers(events, holder, spot);
      PhaseFollowsEvents(events, holder, spot);
      assert Lookup(Fold(events, holder, spot).indexOf, DeltaKey(itemId, position)) ==
             LastSlot(SlotsOf(events), DeltaKey(itemId, position));
    }
  }
}
