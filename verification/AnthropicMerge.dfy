/**
 Blocks sent at the same time: a stream that interleaves the events of its
 blocks in any way, but for texts, thoughts and openings, which keep the order
 of the blocks, delivers the reply all the same.
*/
module AnthropicMerge {
  import opened Wrappers
  import opened Text
  import opened JsonValues
  import opened AnthropicReply
  import opened AnthropicStream
  import opened AnthropicStreamLaws
  import opened AnthropicReassembly
  import opened AnthropicRefinement
  import opened AnthropicWire
  import opened Merges

  function TextPiece(e: Event): string {
    if e.TextDelta? then e.text else ""
  }

  function ThoughtPiece(e: Event): string {
    if e.ThinkingDelta? then e.thinking else ""
  }

  function StartPiece(e: Event): seq<Start> {
    if e.ToolStart? then [Start(e.key, e.id, e.name)] else []
  }

  function InputPieces(key: Option<int>): Event -> string {
    (e: Event) => if e.InputDelta? && e.key == key then e.partial else ""
  }

  function ReportPieces(field: string): Event -> seq<int> {
    (e: Event) => Counted(e, field)
  }

  lemma {:induction false} SaysAreRead(events: seq<Event>, key: Option<int>, field: string)
    ensures Says(events, key, field) ==
            Digest(Read(events, TextPiece), Read(events, ThoughtPiece), Read(events, StartPiece),
                   Read(events, InputPieces(key)), Read(events, ReportPieces(field)))
  {
    if events != [] {
      var front, e := events[..|events| - 1], events[|events| - 1];
      assert events == front + [e];
      SaysAreRead(front, key, field);
      SaysSnoc(front, e, key, field);
    }
  }

  /** The events of each block. */
  function BlockLists(blocks: seq<Block>, cuts: seq<seq<string>>): seq<seq<Event>>
    requires |cuts| == |blocks|
  {
    seq(|blocks|, i requires 0 <= i < |blocks| => BlockEvents(blocks[i], Some(i), cuts[i]))
  }

  lemma {:induction false} ContentIsReadAsLists<T>(blocks: seq<Block>, cuts: seq<seq<string>>, f: Event -> seq<T>)
    requires |cuts| == |blocks|
    ensures Read(ContentEvents(blocks, cuts), f) == ReadLists(BlockLists(blocks, cuts), f)
  {
    if blocks != [] {
      var n := |blocks| - 1;
      var before, last := BlockLists(blocks[..n], cuts[..n]), BlockEvents(blocks[n], Some(n), cuts[n]);
      ContentIsReadAsLists(blocks[..n], cuts[..n], f);
      ReadAppend(ContentEvents(blocks[..n], cuts[..n]), last, f);
      assert BlockLists(blocks, cuts) == before + [last];
      ReadListsSnoc(before, last, f);
    }
  }

  /** The events of the blocks, interleaved; texts, thoughts and openings come in the order of the blocks. */
  ghost predicate Interleaves(merged: seq<Event>, owners: seq<nat>, blocks: seq<Block>, cuts: seq<seq<string>>)
    requires |cuts| == |blocks|
  {
    && IsMerge(merged, owners, BlockLists(blocks, cuts))
    && InOrder(merged, owners, TextPiece) && InOrder(merged, owners, ThoughtPiece) && InOrder(merged, owners, StartPiece)
  }

  /** An event of a block carries the block's key, is no report, and ends and fails nothing. */
  predicate IsOfBlock(e: Event, i: nat) {
    && !Fails(e) && !e.MessageDelta? && !e.MessageStart? && !e.MessageStop?
    && (e.InputDelta? ==> e.key == Some(i))
  }

  lemma BlockEventsAreOfBlock(block: Block, i: nat, pieces: seq<string>, e: Event)
    requires e in BlockEvents(block, Some(i), pieces)
    ensures IsOfBlock(e, i)
    ensures e.InputDelta? ==> block.ToolUse? && BlockEvents(block, Some(i), pieces)[0] == ToolStart(Some(i), block.id, block.name)
  {
  }

  lemma MergedIsOfBlock(merged: seq<Event>, owners: seq<nat>, blocks: seq<Block>, cuts: seq<seq<string>>, p: nat)
    requires |cuts| == |blocks| && IsMerge(merged, owners, BlockLists(blocks, cuts)) && p < |merged|
    ensures owners[p] < |blocks| && IsOfBlock(merged[p], owners[p])
    ensures merged[p].InputDelta? ==> StartedBefore(merged, p, merged[p].key)
  {
    var lists, i := BlockLists(blocks, cuts), owners[p];
    InItsList(merged, owners, lists, p);
    BlockEventsAreOfBlock(blocks[i], i, cuts[i], merged[p]);
    if merged[p].InputDelta? {
      var q := FirstComesFirst(merged, owners, lists, p);
      assert merged[q] == ToolStart(Some(i), blocks[i].id, blocks[i].name);
    }
  }

  /** What carries a key, or counts, comes from one block or none, so it is in order anyhow. */
  lemma InputsAndReportsInOrder(merged: seq<Event>, owners: seq<nat>, blocks: seq<Block>, cuts: seq<seq<string>>,
                                key: Option<int>, field: string)
    requires |cuts| == |blocks| && IsMerge(merged, owners, BlockLists(blocks, cuts))
    ensures InOrder(merged, owners, InputPieces(key)) && InOrder(merged, owners, ReportPieces(field))
  {
    forall p | 0 <= p < |merged|
      ensures InputPieces(key)(merged[p]) != [] ==> key == Some(owners[p])
      ensures ReportPieces(field)(merged[p]) == []
    {
      MergedIsOfBlock(merged, owners, blocks, cuts, p);
      NothingCounted(merged[p], field);
    }
  }

  lemma NothingCounted(e: Event, field: string)
    requires !e.MessageStart? && !e.MessageDelta? && !e.MessageStop?
    ensures Counted(e, field) == []
  {
  }

  lemma InterleavingSays(merged: seq<Event>, owners: seq<nat>, blocks: seq<Block>, cuts: seq<seq<string>>,
                         key: Option<int>, field: string)
    requires |cuts| == |blocks| && Interleaves(merged, owners, blocks, cuts)
    ensures Says(merged, key, field) == Says(ContentEvents(blocks, cuts), key, field)
  {
    InputsAndReportsInOrder(merged, owners, blocks, cuts, key, field);
    SaysAreRead(merged, key, field);
    SaysAreRead(ContentEvents(blocks, cuts), key, field);
    SameReading(merged, owners, blocks, cuts, TextPiece);
    SameReading(merged, owners, blocks, cuts, ThoughtPiece);
    SameReading(merged, owners, blocks, cuts, StartPiece);
    SameReading(merged, owners, blocks, cuts, InputPieces(key));
    SameReading(merged, owners, blocks, cuts, ReportPieces(field));
  }

  lemma SameReading<T>(merged: seq<Event>, owners: seq<nat>, blocks: seq<Block>, cuts: seq<seq<string>>, f: Event -> seq<T>)
    requires |cuts| == |blocks| && IsMerge(merged, owners, BlockLists(blocks, cuts)) && InOrder(merged, owners, f)
    ensures Read(merged, f) == Read(ContentEvents(blocks, cuts), f)
  {
    MergeReadsAsLists(merged, owners, BlockLists(blocks, cuts), f);
    ContentIsReadAsLists(blocks, cuts, f);
  }

  /**
   * Whatever pieces the blocks are sent in and however their events are
   * interleaved in order, the stream for a reply that did not overflow delivers
   * it; the refinement therefore holds of it.
   */
  lemma InterleavingDelivers(merged: seq<Event>, owners: seq<nat>, reply: Reply, cuts: seq<seq<string>>,
                             opening: Json, closing: Json, codec: Codec)
    requires CutsOf(reply.content, cuts, codec) && Interleaves(merged, owners, reply.content, cuts)
    requires reply.stop != Some(OVERFLOW_STOP)
    requires UsageReported(reply, opening, closing)
    ensures Delivers(Around(merged, reply, opening, closing), reply, codec)
  {
    forall key, field
      ensures Says(merged, key, field) == Says(ContentEvents(reply.content, cuts), key, field)
    {
      InterleavingSays(merged, owners, reply.content, cuts, key, field);
    }
    forall p | 0 <= p < |merged|
      ensures !Fails(merged[p]) && !merged[p].MessageDelta?
      ensures merged[p].InputDelta? ==> StartedBefore(merged, p, merged[p].key)
    {
      MergedIsOfBlock(merged, owners, reply.content, cuts, p);
    }
    RenderingDelivers(merged, reply, cuts, opening, closing, codec);
  }
}
