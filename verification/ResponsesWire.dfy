/**
 The stream a Responses upstream sends for a reply: each item in turn, its text
 or its arguments in any number of pieces. Every such stream delivers its
 reply, whatever the pieces.
*/
module ResponsesWire {
  import opened Wrappers
  import opened Text
  import opened JsonValues
  import opened Chat
  import opened ResponsesReply
  import opened ResponsesStream
  import opened ResponsesRefinement

  function DeltaFor(item: Item, position: string, piece: string): Event {
    match item
    case MessageItem(_) => TextDelta(piece)
    case CallItem(id, _, _, _) => ArgumentsDelta(id, position, piece)
    case OtherItem => OtherEvent
  }

  function Deltas(item: Item, position: string, pieces: seq<string>): seq<Event> {
    seq(|pieces|, i requires 0 <= i < |pieces| => DeltaFor(item, position, pieces[i]))
  }

  function OpeningOf(item: Item, position: string): Event {
    if item.CallItem? then CallAdded(item.id, item.callId, item.name, position) else OtherEvent
  }

  function ItemList(item: Item, position: string, pieces: seq<string>): seq<Event> {
    [OpeningOf(item, position)] + Deltas(item, position, pieces)
  }

  /** The items in order, item `i` at position `i`. */
  function ItemEvents(items: seq<Item>, cuts: seq<seq<string>>): seq<Event>
    requires |cuts| == |items|
  {
    if items == [] then []
    else
      var n := |items| - 1;
      ItemEvents(items[..n], cuts[..n]) + ItemList(items[n], Decimal(n), cuts[n])
  }

  /** The pieces of each item join to what the item holds. */
  predicate CutsOf(items: seq<Item>, cuts: seq<seq<string>>) {
    && |cuts| == |items|
    && forall i | 0 <= i < |items| ::
         match items[i]
         case MessageItem(parts) => Concat(cuts[i]) == Concat(parts)
         case CallItem(_, _, _, arguments) => Concat(cuts[i]) == arguments
         case OtherItem => true
  }

  /** Calls have ids, all different. */
  predicate Identified(items: seq<Item>) {
    && (forall i | 0 <= i < |items| && items[i].CallItem? :: items[i].id != "")
    && forall i, j | 0 <= i < j < |items| && items[i].CallItem? && items[j].CallItem? :: items[i].id != items[j].id
  }

  // ----- One more event of an orderly stream -----

  lemma OrderlySnoc(front: seq<Event>, e: Event)
    requires Orderly(front) && Plain(e)
    requires e.ArgumentsDelta? ==> Keyed(AddedIn(front), DeltaKey(e.itemId, e.position))
    requires e.CallAdded? ==> !Keyed(AddedIn(front), AddedKey(e.id, e.callId, e.position))
    ensures Orderly(front + [e])
  {
    var events := front + [e];
    ReadingsSnoc(front, e, "");
    forall i | 0 <= i < |events| ensures Plain(events[i]) {
      assert i < |front| ==> events[i] == front[i];
    }
    forall p | 0 <= p < |events| && events[p].ArgumentsDelta?
      ensures Keyed(AddedIn(events[..p]), DeltaKey(events[p].itemId, events[p].position))
    {
      assert events[..p] == front[..p];
      assert p < |front| ==> events[p] == front[p];
      assert front[..|front|] == front;
    }
  }

  /** A stream that says what another does, and one item's text besides. */
  ghost predicate SaysMore(all: seq<Event>, a: seq<Event>, item: Item, text: string) {
    && Orderly(all) && AddedIn(all) == AddedIn(a)
    && TextOf(all) == TextOf(a) + (if item.MessageItem? then text else "")
    && forall key :: ArgumentsFor(all, key) ==
                     ArgumentsFor(a, key) + if item.CallItem? && item.id == key then text else ""
  }

  /** What one delta of an item adds. */
  lemma DeltaReads(before: seq<Event>, item: Item, position: string, piece: string, key: string)
    requires item.CallItem? ==> item.id != ""
    ensures var all := before + [DeltaFor(item, position, piece)];
            && AddedIn(all) == AddedIn(before)
            && TextOf(all) == TextOf(before) + (if item.MessageItem? then piece else "")
            && ArgumentsFor(all, key) == ArgumentsFor(before, key) + if item.CallItem? && item.id == key then piece else ""
  {
    TextSnoc(before, DeltaFor(item, position, piece));
    ReadingsSnoc(before, DeltaFor(item, position, piece), key);
  }

  lemma DeltaIsOrderly(before: seq<Event>, item: Item, position: string, piece: string)
    requires Orderly(before) && (item.CallItem? ==> item.id != "" && Keyed(AddedIn(before), item.id))
    ensures Orderly(before + [DeltaFor(item, position, piece)])
  {
    OrderlySnoc(before, DeltaFor(item, position, piece));
  }

  lemma MoreText(before: string, text: string, piece: string, mine: bool)
    ensures (before + (if mine then text else "")) + (if mine then piece else "") == before + if mine then text + piece else ""
  {
  }

  lemma PieceReads(before: seq<Event>, a: seq<Event>, item: Item, position: string, text: string, piece: string, key: string)
    requires SaysMore(before, a, item, text) && (item.CallItem? ==> item.id != "")
    ensures var all := before + [DeltaFor(item, position, piece)];
            && AddedIn(all) == AddedIn(a)
            && TextOf(all) == TextOf(a) + (if item.MessageItem? then text + piece else "")
            && ArgumentsFor(all, key) == ArgumentsFor(a, key) + if item.CallItem? && item.id == key then text + piece else ""
  {
    DeltaReads(before, item, position, piece, key);
    MoreText(TextOf(a), text, piece, item.MessageItem?);
    MoreText(ArgumentsFor(a, key), text, piece, item.CallItem? && item.id == key);
  }

  lemma OnePiece(before: seq<Event>, a: seq<Event>, item: Item, position: string, text: string, piece: string)
    requires SaysMore(before, a, item, text) && (item.CallItem? ==> item.id != "" && Keyed(AddedIn(a), item.id))
    ensures SaysMore(before + [DeltaFor(item, position, piece)], a, item, text + piece)
  {
    DeltaIsOrderly(before, item, position, piece);
    PieceReads(before, a, item, position, text, piece, "");
    forall key
      ensures ArgumentsFor(before + [DeltaFor(item, position, piece)], key) ==
              ArgumentsFor(a, key) + if item.CallItem? && item.id == key then text + piece else ""
    {
      PieceReads(before, a, item, position, text, piece, key);
    }
  }

  lemma DeltasSnoc(item: Item, position: string, front: seq<string>, piece: string)
    ensures Deltas(item, position, front + [piece]) == Deltas(item, position, front) + [DeltaFor(item, position, piece)]
  {
  }

  /** What feeding an item's deltas to an orderly stream adds to what the stream says. */
  lemma {:induction false} DeltasFeed(a: seq<Event>, item: Item, position: string, pieces: seq<string>)
    requires Orderly(a) && (item.CallItem? ==> item.id != "" && Keyed(AddedIn(a), item.id))
    ensures SaysMore(a + Deltas(item, position, pieces), a, item, Concat(pieces))
  {
    if pieces == [] {
      assert a + Deltas(item, position, pieces) == a;
    } else {
      var front, piece := pieces[..|pieces| - 1], pieces[|pieces| - 1];
      var before := a + Deltas(item, position, front);
      DeltasFeed(a, item, position, front);
      OnePiece(before, a, item, position, Concat(front), piece);
      assert pieces == front + [piece];
      DeltasSnoc(item, position, front, piece);
      ConcatSnoc(front, piece);
      assert a + Deltas(item, position, pieces) == before + [DeltaFor(item, position, piece)];
    }
  }

  // ----- All the items -----

  function AddedFor(item: Item): Added
    requires item.CallItem?
  {
    Added(item.id, CallName(item.callId, item.id), item.name)
  }

  function AddedCalls(items: seq<Item>): seq<Added>
    requires forall c | c in items :: c.CallItem?
  {
    seq(|items|, i requires 0 <= i < |items| => AddedFor(items[i]))
  }

  /** The argument text of the call with an id. */
  function ArgumentsOf(items: seq<Item>, key: string): string {
    if items == [] then ""
    else
      var item := items[|items| - 1];
      ArgumentsOf(items[..|items| - 1], key) + if item.CallItem? && item.id == key then item.arguments else ""
  }

  ghost predicate SaysItems(events: seq<Event>, items: seq<Item>) {
    && Orderly(events) && TextOf(events) == TextIn(items)
    && AddedIn(events) == AddedCalls(CallItems(items))
    && forall key :: ArgumentsFor(events, key) == ArgumentsOf(items, key)
  }

  lemma {:induction false} CallItemsAreItems(items: seq<Item>)
    ensures forall n | 0 <= n < |CallItems(items)| :: CallItems(items)[n] in items
  {
    if items != [] {
      CallItemsAreItems(items[..|items| - 1]);
    }
  }

  lemma IdentifiedFront(items: seq<Item>)
    requires items != [] && Identified(items)
    ensures Identified(items[..|items| - 1])
    ensures var last := items[|items| - 1];
            last.CallItem? ==> last.id != "" && !Keyed(AddedCalls(CallItems(items[..|items| - 1])), last.id)
  {
    var n := |items| - 1;
    var front := items[..n];
    forall i | 0 <= i < n ensures front[i] == items[i] {
    }
    CallItemsAreItems(front);
    forall m | 0 <= m < |CallItems(front)| && items[n].CallItem? ensures AddedCalls(CallItems(front))[m].key != items[n].id {
      var i :| 0 <= i < n && front[i] == CallItems(front)[m];
      assert items[i] == CallItems(front)[m];
    }
  }

  lemma OpeningReads(before: seq<Event>, item: Item, position: string, key: string)
    requires item.CallItem? ==> item.id != ""
    ensures var begun := before + [OpeningOf(item, position)];
            && TextOf(begun) == TextOf(before) && ArgumentsFor(begun, key) == ArgumentsFor(before, key)
            && AddedIn(begun) == AddedIn(before) + if item.CallItem? then [AddedFor(item)] else []
  {
    TextSnoc(before, OpeningOf(item, position));
    ReadingsSnoc(before, OpeningOf(item, position), key);
  }

  lemma OpeningIsOrderly(before: seq<Event>, item: Item, position: string)
    requires Orderly(before) && (item.CallItem? ==> item.id != "" && !Keyed(AddedIn(before), item.id))
    ensures Orderly(before + [OpeningOf(item, position)])
  {
    OrderlySnoc(before, OpeningOf(item, position));
  }

  lemma AddedCallsSnoc(items: seq<Item>)
    requires items != []
    ensures var item := items[|items| - 1];
            AddedCalls(CallItems(items)) ==
            AddedCalls(CallItems(items[..|items| - 1])) + if item.CallItem? then [AddedFor(item)] else []
  {
    var item := items[|items| - 1];
    var before := CallItems(items[..|items| - 1]);
    if item.CallItem? {
      assert CallItems(items) == before + [item];
      AddedCallsGrow(before, item);
    } else {
      assert CallItems(items) == before;
      assert AddedCalls(before) + [] == AddedCalls(before);
    }
  }

  lemma AddedCallsGrow(calls: seq<Item>, item: Item)
    requires item.CallItem? && forall c | c in calls :: c.CallItem?
    ensures forall c | c in calls + [item] :: c.CallItem?
    ensures AddedCalls(calls + [item]) == AddedCalls(calls) + [AddedFor(item)]
  {
  }

  /** What an item's opening event adds. */
  lemma ItemOpens(before: seq<Event>, items: seq<Item>, position: string)
    requires items != [] && Identified(items) && SaysItems(before, items[..|items| - 1])
    ensures var item := items[|items| - 1]; var begun := before + [OpeningOf(item, position)];
            && Orderly(begun) && TextOf(begun) == TextOf(before)
            && AddedIn(begun) == AddedCalls(CallItems(items))
            && (item.CallItem? ==> item.id != "" && Keyed(AddedIn(begun), item.id))
            && forall key :: ArgumentsFor(begun, key) == ArgumentsFor(before, key)
  {
    var item := items[|items| - 1];
    var begun := before + [OpeningOf(item, position)];
    IdentifiedFront(items);
    OpeningIsOrderly(before, item, position);
    AddedCallsSnoc(items);
    OpeningReads(before, item, position, "");
    forall key ensures ArgumentsFor(begun, key) == ArgumentsFor(before, key) {
      OpeningReads(before, item, position, key);
    }
    if item.CallItem? {
      assert AddedIn(begun)[|AddedIn(before)|].key == item.id;
    }
  }

  /** A stream that says the earlier items and the last one besides says them all. */
  lemma SaysOneItemMore(all: seq<Event>, begun: seq<Event>, before: seq<Event>, items: seq<Item>, text: string)
    requires items != [] && SaysItems(before, items[..|items| - 1])
    requires var item := items[|items| - 1];
             && SaysMore(all, begun, item, text)
             && (item.MessageItem? ==> text == Concat(item.parts)) && (item.CallItem? ==> text == item.arguments)
    requires TextOf(begun) == TextOf(before) && AddedIn(begun) == AddedCalls(CallItems(items))
    requires forall key :: ArgumentsFor(begun, key) == ArgumentsFor(before, key)
    ensures SaysItems(all, items)
  {
    forall key ensures ArgumentsFor(all, key) == ArgumentsOf(items, key) {
      assert ArgumentsFor(begun, key) == ArgumentsFor(before, key);
    }
    assert TextIn(items[..|items| - 1]) + "" == TextIn(items[..|items| - 1]);
  }

  lemma ItemListSplits(before: seq<Event>, item: Item, position: string, pieces: seq<string>)
    ensures before + ItemList(item, position, pieces) == (before + [OpeningOf(item, position)]) + Deltas(item, position, pieces)
  {
  }

  lemma ItemFeeds(before: seq<Event>, items: seq<Item>, position: string, pieces: seq<string>)
    requires items != [] && Identified(items) && SaysItems(before, items[..|items| - 1])
    requires var item := items[|items| - 1];
             && (item.MessageItem? ==> Concat(pieces) == Concat(item.parts))
             && (item.CallItem? ==> Concat(pieces) == item.arguments)
    ensures SaysItems(before + ItemList(items[|items| - 1], position, pieces), items)
  {
    var item := items[|items| - 1];
    var begun := before + [OpeningOf(item, position)];
    ItemOpens(before, items, position);
    DeltasFeed(begun, item, position, pieces);
    ItemListSplits(before, item, position, pieces);
    SaysOneItemMore(begun + Deltas(item, position, pieces), begun, before, items, Concat(pieces));
  }

  lemma {:induction false} ItemsSay(items: seq<Item>, cuts: seq<seq<string>>)
    requires CutsOf(items, cuts) && Identified(items)
    ensures SaysItems(ItemEvents(items, cuts), items)
  {
    if items != [] {
      var n := |items| - 1;
      IdentifiedFront(items);
      ItemsSay(items[..n], cuts[..n]);
      ItemFeeds(ItemEvents(items[..n], cuts[..n]), items, Decimal(n), cuts[n]);
    }
  }

  /** With different ids, each call's text is found under its own. */
  lemma {:induction false} OwnArguments(items: seq<Item>, n: nat)
    requires Identified(items) && n < |CallItems(items)|
    ensures ArgumentsOf(items, CallItems(items)[n].id) == CallItems(items)[n].arguments
  {
    var front, item := items[..|items| - 1], items[|items| - 1];
    IdentifiedFront(items);
    if n < |CallItems(front)| {
      OwnArguments(front, n);
      assert AddedCalls(CallItems(front))[n].key == CallItems(front)[n].id;
    } else {
      NoArguments(front, item.id);
    }
  }

  lemma {:induction false} NoArguments(items: seq<Item>, key: string)
    requires !Keyed(AddedCalls(CallItems(items)), key)
    ensures ArgumentsOf(items, key) == ""
  {
    if items != [] {
      var front, item := items[..|items| - 1], items[|items| - 1];
      var calls, all := CallItems(front), CallItems(items);
      forall n | 0 <= n < |calls| ensures AddedCalls(calls)[n].key != key {
        assert AddedCalls(all)[n] == AddedCalls(calls)[n];
      }
      if item.CallItem? {
        assert AddedCalls(all)[|calls|] == AddedFor(item);
      }
      NoArguments(front, key);
    }
  }

  /**
   * Whatever pieces its items are sent in, the stream for a reply whose calls
   * have different ids delivers it; the refinement therefore holds of it.
   */
  lemma StreamDelivers(reply: Reply, cuts: seq<seq<string>>)
    requires CutsOf(reply.items, cuts) && Identified(reply.items)
    requires reply.outputText.GetOr(TextIn(reply.items)) == TextIn(reply.items)
    ensures Delivers(ItemEvents(reply.items, cuts), reply)
  {
    var events, calls := ItemEvents(reply.items, cuts), CallItems(reply.items);
    ItemsSay(reply.items, cuts);
    forall n | 0 <= n < |AddedIn(events)|
      ensures ArgumentsFor(events, AddedIn(events)[n].key) == calls[n].arguments
    {
      OwnArguments(reply.items, n);
      assert AddedIn(events)[n] == AddedFor(calls[n]);
    }
  }
}
