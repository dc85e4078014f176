/**
 Items sent at the same time: a stream that interleaves the events of its items
 in any way, but for texts and openings, which keep the order of the items,
 delivers the reply all the same.
*/
module ResponsesMerge {
  import opened Wrappers
  import opened Text
  import opened JsonValues
  import opened ResponsesReply
  import opened ResponsesStream
  import opened ResponsesRefinement
  import opened ResponsesWire
  import opened Merges

  function TextPiece(e: Event): string {
    if e.TextDelta? then e.text else ""
  }

  function AddedPiece(e: Event): seq<Added> {
    if e.CallAdded? then [Added(AddedKey(e.id, e.callId, e.position), CallName(e.callId, e.id), e.name)] else []
  }

  function ArgumentPieces(key: string): Event -> string {
    (e: Event) => if e.ArgumentsDelta? && DeltaKey(e.itemId, e.position) == key then e.delta else ""
  }

  lemma {:induction false} ReadingsAreRead(events: seq<Event>, key: string)
    ensures TextOf(events) == Read(events, TextPiece)
    ensures AddedIn(events) == Read(events, AddedPiece)
    ensures ArgumentsFor(events, key) == Read(events, ArgumentPieces(key))
  {
    if events != [] {
      var front, e := events[..|events| - 1], events[|events| - 1];
      assert events == front + [e];
      ReadingsAreRead(front, key);
      TextSnoc(front, e);
      ReadingsSnoc(front, e, key);
    }
  }

  /** The events of each item. */
  function ItemLists(items: seq<Item>, cuts: seq<seq<string>>): seq<seq<Event>>
    requires |cuts| == |items|
  {
    seq(|items|, i requires 0 <= i < |items| => ItemList(items[i], Decimal(i), cuts[i]))
  }

  lemma ItemListsSnoc(items: seq<Item>, cuts: seq<seq<string>>)
    requires items != [] && |cuts| == |items|
    ensures var n := |items| - 1;
            ItemLists(items, cuts) == ItemLists(items[..n], cuts[..n]) + [ItemList(items[n], Decimal(n), cuts[n])]
  {
  }

  lemma {:induction false} ItemsAreReadAsLists<T>(items: seq<Item>, cuts: seq<seq<string>>, f: Event -> seq<T>)
    requires |cuts| == |items|
    ensures Read(ItemEvents(items, cuts), f) == ReadLists(ItemLists(items, cuts), f)
  {
    if items != [] {
      var n := |items| - 1;
      var before, last := ItemLists(items[..n], cuts[..n]), ItemList(items[n], Decimal(n), cuts[n]);
      ItemsAreReadAsLists(items[..n], cuts[..n], f);
      ItemListsSnoc(items, cuts);
      ReadAppend(ItemEvents(items[..n], cuts[..n]), last, f);
      ReadListsSnoc(before, last, f);
    }
  }

  /** The events of the items, interleaved; texts and openings come in the order of the items. */
  ghost predicate Interleaves(merged: seq<Event>, owners: seq<nat>, items: seq<Item>, cuts: seq<seq<string>>)
    requires |cuts| == |items|
  {
    && IsMerge(merged, owners, ItemLists(items, cuts))
    && InOrder(merged, owners, TextPiece) && InOrder(merged, owners, AddedPiece)
  }

  lemma ItemEventIsPlain(item: Item, position: string, pieces: seq<string>, e: Event)
    requires e in ItemList(item, position, pieces)
    ensures Plain(e)
    ensures e.ArgumentsDelta? ==> item.CallItem? && e.itemId == item.id && OpeningOf(item, position).CallAdded?
  {
  }

  lemma MergedIsOfItem(merged: seq<Event>, owners: seq<nat>, items: seq<Item>, cuts: seq<seq<string>>, p: nat)
    requires |cuts| == |items| && IsMerge(merged, owners, ItemLists(items, cuts)) && Identified(items) && p < |merged|
    ensures owners[p] < |items| && Plain(merged[p])
    ensures merged[p].ArgumentsDelta? ==>
              && items[owners[p]].CallItem? && DeltaKey(merged[p].itemId, merged[p].position) == items[owners[p]].id
              && Keyed(AddedIn(merged[..p]), items[owners[p]].id)
  {
    var lists, i := ItemLists(items, cuts), owners[p];
    InItsList(merged, owners, lists, p);
    ItemEventIsPlain(items[i], Decimal(i), cuts[i], merged[p]);
    if merged[p].ArgumentsDelta? {
      var q := FirstComesFirst(merged, owners, lists, p);
      assert merged[q] == OpeningOf(items[i], Decimal(i));
      assert merged[..p][q] == merged[q];
      AddedIsKeyed(merged[..p], q);
    }
  }

  lemma {:induction false} AddedIsKeyed(events: seq<Event>, q: nat)
    requires q < |events| && events[q].CallAdded?
    ensures Keyed(AddedIn(events), AddedKey(events[q].id, events[q].callId, events[q].position))
  {
    var n := |events| - 1;
    var before, key := AddedIn(events[..n]), AddedKey(events[q].id, events[q].callId, events[q].position);
    if q == n {
      assert AddedIn(events)[|before|].key == key;
    } else {
      assert events[..n][q] == events[q];
      AddedIsKeyed(events[..n], q);
      var m :| 0 <= m < |before| && before[m].key == key;
      assert AddedIn(events)[m] == before[m];
    }
  }

  /** Arguments under one key come from one item. */
  lemma ArgumentsInOrder(merged: seq<Event>, owners: seq<nat>, items: seq<Item>, cuts: seq<seq<string>>, key: string)
    requires |cuts| == |items| && IsMerge(merged, owners, ItemLists(items, cuts)) && Identified(items)
    ensures InOrder(merged, owners, ArgumentPieces(key))
  {
    forall p, q | 0 <= p < q < |merged| && ArgumentPieces(key)(merged[p]) != [] && ArgumentPieces(key)(merged[q]) != []
      ensures owners[p] <= owners[q]
    {
      MergedIsOfItem(merged, owners, items, cuts, p);
      MergedIsOfItem(merged, owners, items, cuts, q);
    }
  }

  lemma SameReading<T>(merged: seq<Event>, owners: seq<nat>, items: seq<Item>, cuts: seq<seq<string>>, f: Event -> seq<T>)
    requires |cuts| == |items| && IsMerge(merged, owners, ItemLists(items, cuts)) && InOrder(merged, owners, f)
    ensures Read(merged, f) == Read(ItemEvents(items, cuts), f)
  {
    MergeReadsAsLists(merged, owners, ItemLists(items, cuts), f);
    ItemsAreReadAsLists(items, cuts, f);
  }

  lemma InterleavingSays(merged: seq<Event>, owners: seq<nat>, items: seq<Item>, cuts: seq<seq<string>>, key: string)
    requires |cuts| == |items| && Interleaves(merged, owners, items, cuts) && Identified(items)
    ensures TextOf(merged) == TextOf(ItemEvents(items, cuts))
    ensures AddedIn(merged) == AddedIn(ItemEvents(items, cuts))
    ensures ArgumentsFor(merged, key) == ArgumentsFor(ItemEvents(items, cuts), key)
  {
    ArgumentsInOrder(merged, owners, items, cuts, key);
    ReadingsAreRead(merged, key);
    ReadingsAreRead(ItemEvents(items, cuts), key);
    SameReading(merged, owners, items, cuts, TextPiece);
    SameReading(merged, owners, items, cuts, AddedPiece);
    SameReading(merged, owners, items, cuts, ArgumentPieces(key));
  }

  /**
   * Whatever pieces the items are sent in and however their events are
   * interleaved in order, the stream for a reply whose calls have different ids
   * delivers it; the refinement therefore holds of it.
   */
  lemma InterleavingDelivers(merged: seq<Event>, owners: seq<nat>, reply: Reply, cuts: seq<seq<string>>)
    requires CutsOf(reply.items, cuts) && Identified(reply.items) && Interleaves(merged, owners, reply.items, cuts)
    requires reply.outputText.GetOr(TextIn(reply.items)) == TextIn(reply.items)
    ensures Delivers(merged, reply)
  {
    var plain := ItemEvents(reply.items, cuts);
    StreamDelivers(reply, cuts);
    InterleavingSays(merged, owners, reply.items, cuts, "");
    forall key ensures ArgumentsFor(merged, key) == ArgumentsFor(plain, key) {
      InterleavingSays(merged, owners, reply.items, cuts, key);
    }
    forall p | 0 <= p < |merged|
      ensures Plain(merged[p])
      ensures merged[p].ArgumentsDelta? ==> Keyed(AddedIn(merged[..p]), DeltaKey(merged[p].itemId, merged[p].position))
    {
      MergedIsOfItem(merged, owners, reply.items, cuts, p);
    }
    assert Orderly(merged);
  }
}
