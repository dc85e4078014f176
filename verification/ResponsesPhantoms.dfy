/**
 Calls nobody announced: an argument delta whose key no item was added under
 opens a call without an id or a name.
*/
module ResponsesPhantoms {
  import opened Wrappers
  import opened JsonValues
  import opened Chat
  import opened ResponsesReply
  import opened ResponsesStream
  import opened ResponsesLaws

  ghost predicate KeyAdded(events: seq<Event>, key: string) {
    exists q | 0 <= q < |events| ::
      events[q].CallAdded? && AddedKey(events[q].id, events[q].callId, events[q].position) == key
  }

  /** Every argument delta comes under a key that an item was added under before it. */
  ghost predicate DeltasFollowItems(events: seq<Event>) {
    forall p | 0 <= p < |events| && events[p].ArgumentsDelta? ::
      KeyAdded(events[..p], DeltaKey(events[p].itemId, events[p].position))
  }

  lemma KeyAddedSnoc(front: seq<Event>, e: Event, key: string)
    ensures KeyAdded(front + [e], key) <==>
            KeyAdded(front, key) || (e.CallAdded? && AddedKey(e.id, e.callId, e.position) == key)
  {
    var events := front + [e];
    assert events[|front|] == e;
    forall q | 0 <= q < |front| ensures events[q] == front[q] {
    }
  }

  lemma DeltasFollowItemsSnoc(front: seq<Event>, e: Event)
    ensures DeltasFollowItems(front + [e]) <==>
            DeltasFollowItems(front) && (e.ArgumentsDelta? ==> KeyAdded(front, DeltaKey(e.itemId, e.position)))
  {
    var events := front + [e];
    assert events[|front|] == e && events[..|front|] == front;
    forall p | 0 <= p < |front| ensures events[p] == front[p] && events[..p] == front[..p] {
    }
    if DeltasFollowItems(front) && (e.ArgumentsDelta? ==> KeyAdded(front, DeltaKey(e.itemId, e.position))) {
      forall p | 0 <= p < |events| && events[p].ArgumentsDelta?
        ensures KeyAdded(events[..p], DeltaKey(events[p].itemId, events[p].position))
      {
        assert p < |front| ==> events[..p] == front[..p];
      }
    }
    if DeltasFollowItems(events) {
      forall p | 0 <= p < |front| && front[p].ArgumentsDelta?
        ensures KeyAdded(front[..p], DeltaKey(front[p].itemId, front[p].position))
      {
        assert events[p].ArgumentsDelta? && events[..p] == front[..p];
      }
    }
  }

  /** A number given to a key has been announced exactly when an item was added under that key. */
  ghost predicate Owned(s: State, events: seq<Event>) {
    && (forall key | key in s.indexOf ::
          && s.indexOf[key] < s.next
          && (OpenedBefore(s.out, |s.out|, s.indexOf[key]) <==> KeyAdded(events, key)))
    && (forall n: nat | OpenedBefore(s.out, |s.out|, n) :: n < s.next)
    && (forall key | KeyAdded(events, key) :: key in s.indexOf)
    && (Announced(s.out) <==> DeltasFollowItems(events))
  }

  lemma OwnedStep(s: State, front: seq<Event>, e: Event, spot: Spotter)
    requires Owned(s, front) && s.phase == Running
    ensures Owned(Step(s, e, spot), front + [e])
  {
    var s' := Step(s, e, spot);
    StepParts(s, e, spot);
    DeltasFollowItemsSnoc(front, e);
    forall key ensures KeyAdded(front + [e], key) <==>
                       KeyAdded(front, key) || (e.CallAdded? && AddedKey(e.id, e.callId, e.position) == key) {
      KeyAddedSnoc(front, e, key);
    }
    if Emission(s, e, spot) == [] {
      assert s'.out == s.out;
    } else {
      OwnedChunk(s, front, e, Emission(s, e, spot)[0], s');
    }
  }

  lemma OwnedChunk(s: State, front: seq<Event>, e: Event, c: Chunk, s': State)
    requires Owned(s, front) && s'.out == s.out + [c]
    requires forall key :: KeyAdded(front + [e], key) <==>
                           KeyAdded(front, key) || (e.CallAdded? && AddedKey(e.id, e.callId, e.position) == key)
    requires DeltasFollowItems(front + [e]) <==>
             DeltasFollowItems(front) && (e.ArgumentsDelta? ==> KeyAdded(front, DeltaKey(e.itemId, e.position)))
    requires c.ToolOpen? <==> e.CallAdded?
    requires c.ToolArguments? <==> e.ArgumentsDelta?
    requires c.ToolArguments? ==> c.index == Lookup(s.indexOf, DeltaKey(e.itemId, e.position)).GetOr(s.next)
    requires c.ToolOpen? ==> c.index == s.next
    requires var key := NewKey(s, e);
             && (key.Some? ==> s'.next == s.next + 1 && s'.indexOf == s.indexOf[key.value := s.next])
             && (key.None? ==> s'.next == s.next && s'.indexOf == s.indexOf)
    ensures Owned(s', front + [e])
  {
    AnnouncedSnoc(s.out, c);
    assert !OpenedBefore(s.out, |s.out|, s.next);
    if c.ToolArguments? {
      var key := DeltaKey(e.itemId, e.position);
      assert OpenedBefore(s.out, |s.out|, c.index) <==> KeyAdded(front, key);
    }
    forall n: nat | OpenedBefore(s'.out, |s'.out|, n) ensures n < s'.next {
      assert OpenedBefore(s.out, |s.out|, n) || n == s.next;
    }
    forall key | KeyAdded(front + [e], key) ensures key in s'.indexOf {
      assert KeyAdded(front, key) || (e.CallAdded? && AddedKey(e.id, e.callId, e.position) == key);
    }
    forall key | key in s'.indexOf
      ensures s'.indexOf[key] < s'.next
      ensures OpenedBefore(s'.out, |s'.out|, s'.indexOf[key]) <==> KeyAdded(front + [e], key)
    {
      if key in s.indexOf {
        assert OpenedBefore(s.out, |s.out|, s.indexOf[key]) <==> KeyAdded(front, key);
      }
    }
  }

  lemma {:induction false} RunIsOwned(events: seq<Event>, holder: map<string, Json>, spot: Spotter)
    requires Flowing(events)
    ensures Owned(Fold(events, holder, spot), events)
  {
    if events == [] {
      assert [Opening][0].Opening?;
    } else {
      var front, e := events[..|events| - 1], events[|events| - 1];
      assert events == front + [e];
      FlowingSnoc(front, e);
      RunIsOwned(front, holder, spot);
      PhaseFollowsEvents(front, holder, spot);
      OwnedStep(Fold(front, holder, spot), front, e, spot);
    }
  }

  /**
   * While nothing stops a run, argument text goes to a call nobody announced
   * exactly when some delta comes under a key that no item was added under
   * before it.
   */
  lemma PhantomIffUnmatchedDelta(events: seq<Event>, holder: map<string, Json>, spot: Spotter)
    requires Flowing(events)
    ensures !Announced(Translate(events, holder, spot)) <==> !DeltasFollowItems(events)
  {
    RunIsOwned(events, holder, spot);
    PhaseFollowsEvents(events, holder, spot);
    AnnouncedSnoc(Fold(events, holder, spot).out, Done);
  }

  /** An item without an id is kept under its call id, while its deltas, which have no item id either, look for its position. */
  lemma ItemWithoutIdOpensPhantom(callId: string, position: string, name: Json, delta: string,
                                  holder: map<string, Json>, spot: Spotter)
    requires callId != "" && callId != position
    ensures !Announced(Translate([CallAdded("", callId, name, position), ArgumentsDelta("", position, delta)], holder, spot))
  {
    var events := [CallAdded("", callId, name, position), ArgumentsDelta("", position, delta)];
    PhantomIffUnmatchedDelta(events, holder, spot);
    assert events[1].ArgumentsDelta? && events[..1] == [events[0]];
    assert !KeyAdded(events[..1], position);
  }
}
