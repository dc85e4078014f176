/**
 The stream an Anthropic upstream sends for a reply: each block opened, sent
 in any number of pieces and closed, between the opening and closing message
 events. Every such stream delivers its reply, whatever the pieces.
*/
module AnthropicWire {
  import opened Wrappers
  import opened Text
  import opened JsonValues
  import opened AnthropicReply
  import opened AnthropicStream
  import opened AnthropicStreamLaws
  import opened AnthropicReassembly
  import opened AnthropicRefinement

  function DeltaFor(block: Block, key: Option<int>, piece: string): Event {
    match block
    case TextBlock(_) => TextDelta(piece)
    case ThinkingBlock(_) => ThinkingDelta(piece)
    case ToolUse(_, _, _) => InputDelta(key, piece)
    case _ => OtherEvent
  }

  function Deltas(block: Block, key: Option<int>, pieces: seq<string>): seq<Event> {
    seq(|pieces|, i requires 0 <= i < |pieces| => DeltaFor(block, key, pieces[i]))
  }

  function BlockEvents(block: Block, key: Option<int>, pieces: seq<string>): seq<Event> {
    var opening := if block.ToolUse? then ToolStart(key, block.id, block.name) else OtherEvent;
    [opening] + Deltas(block, key, pieces) + [OtherEvent]
  }

  /** The content blocks in order, block `i` under index `i`. */
  function ContentEvents(blocks: seq<Block>, cuts: seq<seq<string>>): seq<Event>
    requires |cuts| == |blocks|
  {
    if blocks == [] then []
    else
      var n := |blocks| - 1;
      ContentEvents(blocks[..n], cuts[..n]) + BlockEvents(blocks[n], Some(n), cuts[n])
  }

  /** The content between the events that open and close a message. */
  function Around(content: seq<Event>, reply: Reply, opening: Json, closing: Json): seq<Event> {
    [MessageStart(opening)] + content + [MessageDelta(reply.stop, closing), MessageStop(Null)]
  }

  function StreamFor(reply: Reply, cuts: seq<seq<string>>, opening: Json, closing: Json): seq<Event>
    requires |cuts| == |reply.content|
  {
    Around(ContentEvents(reply.content, cuts), reply, opening, closing)
  }

  /** The pieces of each block join to what the block holds. */
  ghost predicate CutsOf(blocks: seq<Block>, cuts: seq<seq<string>>, codec: Codec) {
    && |cuts| == |blocks|
    && forall i | 0 <= i < |blocks| ::
         match blocks[i]
         case TextBlock(text) => Concat(cuts[i]) == text
         case ThinkingBlock(raw) => Concat(cuts[i]) == ThoughtIn(raw)
         case ToolUse(_, _, input) => Spells(Concat(cuts[i]), input, codec)
         case _ => true
  }

  // ----- What events say distributes over concatenation -----

  /** All five readings of a list of events, for one block and one usage field. */
  datatype Digest = Digest(text: string, thoughts: string, starts: seq<Start>, inputs: string, reports: seq<int>)

  function Join(a: Digest, b: Digest): Digest {
    Digest(a.text + b.text, a.thoughts + b.thoughts, a.starts + b.starts, a.inputs + b.inputs, a.reports + b.reports)
  }

  function Says(events: seq<Event>, key: Option<int>, field: string): Digest {
    Digest(TextOf(events), ThoughtsOf(events), StartsOf(events), InputsFor(events, key), Reports(events, field))
  }

  const SILENCE := Digest("", "", [], "", [])

  function Counted(e: Event, field: string): seq<int> {
    var count := CountAt(ReportIn(e), field);
    if count.Some? then [count.value] else []
  }

  /** The readings of one event. */
  function EventSays(e: Event, key: Option<int>, field: string): Digest {
    Digest(
      if e.TextDelta? then e.text else "",
      if e.ThinkingDelta? then e.thinking else "",
      if e.ToolStart? then [Start(e.key, e.id, e.name)] else [],
      if e.InputDelta? && e.key == key then e.partial else "",
      Counted(e, field))
  }

  lemma SaysSnoc(front: seq<Event>, e: Event, key: Option<int>, field: string)
    ensures Says(front + [e], key, field) == Join(Says(front, key, field), EventSays(e, key, field))
  {
    var events, said := front + [e], EventSays(e, key, field);
    assert events[..|events| - 1] == front && events[|events| - 1] == e;
    assert TextOf(events) == TextOf(front) + said.text;
    assert ThoughtsOf(events) == ThoughtsOf(front) + said.thoughts;
    assert StartsOf(events) == StartsOf(front) + said.starts;
    assert InputsFor(events, key) == InputsFor(front, key) + said.inputs;
    assert Reports(events, field) == Reports(front, field) + said.reports;
  }

  lemma JoinIsAssociative(a: Digest, b: Digest, c: Digest)
    ensures Join(Join(a, b), c) == Join(a, Join(b, c))
    ensures Join(a, SILENCE) == a && Join(SILENCE, a) == a
  {
  }

  lemma {:induction false} SaysAppend(a: seq<Event>, b: seq<Event>, key: Option<int>, field: string)
    ensures Says(a + b, key, field) == Join(Says(a, key, field), Says(b, key, field))
    decreases |b|
  {
    if b == [] {
      assert a + b == a;
      JoinIsAssociative(Says(a, key, field), SILENCE, SILENCE);
    } else {
      var front, e := b[..|b| - 1], b[|b| - 1];
      assert a + b == (a + front) + [e] && b == front + [e];
      SaysAppend(a, front, key, field);
      SaysSnoc(a + front, e, key, field);
      SaysSnoc(front, e, key, field);
      JoinIsAssociative(Says(a, key, field), Says(front, key, field), EventSays(e, key, field));
    }
  }

  /** What a block says in all: for `key`, the block is `own` or not. */
  function BlockDigest(block: Block, at: Option<int>, text: string, key: Option<int>): Digest {
    match block
    case TextBlock(_) => SILENCE.(text := text)
    case ThinkingBlock(_) => SILENCE.(thoughts := text)
    case ToolUse(id, name, _) => Digest("", "", [Start(at, id, name)], if at == key then text else "", [])
    case _ => SILENCE
  }

  lemma SaysOne(e: Event, key: Option<int>, field: string)
    ensures Says([e], key, field) == EventSays(e, key, field)
  {
    assert [] + [e] == [e];
    SaysSnoc([], e, key, field);
    JoinIsAssociative(EventSays(e, key, field), SILENCE, SILENCE);
  }

  lemma {:induction false} DeltasSay(block: Block, at: Option<int>, pieces: seq<string>, key: Option<int>, field: string)
    ensures Says(Deltas(block, at, pieces), key, field) == BlockDigest(block, at, Concat(pieces), key).(starts := [])
  {
    if pieces == [] {
      assert Deltas(block, at, pieces) == [];
    } else {
      var front, piece := pieces[..|pieces| - 1], pieces[|pieces| - 1];
      DeltasSay(block, at, front, key, field);
      DeltasSnoc(block, at, front, piece);
      assert pieces == front + [piece];
      SaysAppend(Deltas(block, at, front), [DeltaFor(block, at, piece)], key, field);
      DeltaSays(block, at, piece, key, field);
      JoinPieces(block, at, Concat(front), piece, key);
    }
  }

  lemma DeltasSnoc(block: Block, at: Option<int>, pieces: seq<string>, piece: string)
    ensures Deltas(block, at, pieces + [piece]) == Deltas(block, at, pieces) + [DeltaFor(block, at, piece)]
  {
  }

  lemma DeltaSays(block: Block, at: Option<int>, piece: string, key: Option<int>, field: string)
    ensures Says([DeltaFor(block, at, piece)], key, field) == BlockDigest(block, at, piece, key).(starts := [])
  {
    SaysOne(DeltaFor(block, at, piece), key, field);
  }

  lemma JoinPieces(block: Block, at: Option<int>, a: string, b: string, key: Option<int>)
    ensures Join(BlockDigest(block, at, a, key).(starts := []), BlockDigest(block, at, b, key).(starts := [])) ==
            BlockDigest(block, at, a + b, key).(starts := [])
  {
  }

  lemma BlockSays(block: Block, at: Option<int>, pieces: seq<string>, key: Option<int>, field: string)
    ensures Says(BlockEvents(block, at, pieces), key, field) == BlockDigest(block, at, Concat(pieces), key)
  {
    var d := Deltas(block, at, pieces);
    var opening := if block.ToolUse? then ToolStart(at, block.id, block.name) else OtherEvent;
    DeltasSay(block, at, pieces, key, field);
    SaysOne(opening, key, field);
    SaysOne(OtherEvent, key, field);
    SaysAppend([opening], d, key, field);
    SaysAppend([opening] + d, [OtherEvent], key, field);
  }

  // ----- All the blocks -----

  lemma BlocksSplit(blocks: seq<Block>, cuts: seq<seq<string>>, key: Option<int>, field: string)
    requires blocks != [] && |cuts| == |blocks|
    ensures var n := |blocks| - 1;
            Says(ContentEvents(blocks, cuts), key, field) ==
            Join(Says(ContentEvents(blocks[..n], cuts[..n]), key, field), BlockDigest(blocks[n], Some(n), Concat(cuts[n]), key))
  {
    var n := |blocks| - 1;
    BlockSays(blocks[n], Some(n), cuts[n], key, field);
    SaysAppend(ContentEvents(blocks[..n], cuts[..n]), BlockEvents(blocks[n], Some(n), cuts[n]), key, field);
  }

  lemma {:induction false} ContentSays(blocks: seq<Block>, cuts: seq<seq<string>>, codec: Codec, field: string)
    requires CutsOf(blocks, cuts, codec)
    ensures var content := ContentEvents(blocks, cuts);
            && TextOf(content) == TextIn(blocks)
            && ThoughtsOf(content) == ThoughtsIn(blocks)
            && Reports(content, field) == []
  {
    if blocks != [] {
      var n := |blocks| - 1;
      ContentSays(blocks[..n], cuts[..n], codec, field);
      BlocksSplit(blocks, cuts, None, field);
    }
  }

  function InputAt(blocks: seq<Block>, cuts: seq<seq<string>>, k: nat): string
    requires |cuts| == |blocks|
  {
    if k < |blocks| && blocks[k].ToolUse? then Concat(cuts[k]) else ""
  }

  lemma InputAtSnoc(blocks: seq<Block>, cuts: seq<seq<string>>, k: nat)
    requires blocks != [] && |cuts| == |blocks|
    ensures var n := |blocks| - 1;
            InputAt(blocks, cuts, k) ==
            InputAt(blocks[..n], cuts[..n], k) + if blocks[n].ToolUse? && n == k then Concat(cuts[n]) else ""
  {
  }

  lemma {:induction false} ContentInputs(blocks: seq<Block>, cuts: seq<seq<string>>, k: nat)
    requires |cuts| == |blocks|
    ensures InputsFor(ContentEvents(blocks, cuts), Some(k)) == InputAt(blocks, cuts, k)
  {
    if blocks != [] {
      var n := |blocks| - 1;
      ContentInputs(blocks[..n], cuts[..n], k);
      LastBlockInputs(blocks, cuts, k);
      InputAtSnoc(blocks, cuts, k);
    }
  }

  lemma LastBlockInputs(blocks: seq<Block>, cuts: seq<seq<string>>, k: nat)
    requires blocks != [] && |cuts| == |blocks|
    ensures var n := |blocks| - 1;
            InputsFor(ContentEvents(blocks, cuts), Some(k)) ==
            InputsFor(ContentEvents(blocks[..n], cuts[..n]), Some(k)) +
            if blocks[n].ToolUse? && n == k then Concat(cuts[n]) else ""
  {
    var n := |blocks| - 1;
    var before, last := ContentEvents(blocks[..n], cuts[..n]), BlockEvents(blocks[n], Some(n), cuts[n]);
    SaysAppend(before, last, Some(k), "");
    BlockInputs(blocks[n], Some(n), cuts[n], Some(k));
    assert Says(before + last, Some(k), "").inputs == InputsFor(before, Some(k)) + InputsFor(last, Some(k));
  }

  lemma BlockInputs(block: Block, at: Option<int>, pieces: seq<string>, key: Option<int>)
    ensures InputsFor(BlockEvents(block, at, pieces), key) == if block.ToolUse? && at == key then Concat(pieces) else ""
  {
    BlockSays(block, at, pieces, key, "");
    assert Says(BlockEvents(block, at, pieces), key, "").inputs == BlockDigest(block, at, Concat(pieces), key).inputs;
  }

  /** Each start is the tool block at the index it is keyed by, in increasing order of index. */
  ghost predicate StartsAreTools(starts: seq<Start>, blocks: seq<Block>) {
    && |starts| == |ToolsIn(blocks)|
    && (forall m | 0 <= m < |starts| ::
          && starts[m].key.Some? && 0 <= starts[m].key.value < |blocks|
          && blocks[starts[m].key.value] == ToolsIn(blocks)[m]
          && starts[m].id == ToolsIn(blocks)[m].id && starts[m].name == ToolsIn(blocks)[m].name)
    && (forall l, m | 0 <= l < m < |starts| :: starts[l].key.value < starts[m].key.value)
  }

  lemma {:induction false} ContentStarts(blocks: seq<Block>, cuts: seq<seq<string>>)
    requires |cuts| == |blocks|
    ensures StartsAreTools(StartsOf(ContentEvents(blocks, cuts)), blocks)
  {
    if blocks != [] {
      var n := |blocks| - 1;
      ContentStarts(blocks[..n], cuts[..n]);
      BlocksSplit(blocks, cuts, None, "");
      StartsAreToolsSnoc(StartsOf(ContentEvents(blocks[..n], cuts[..n])), blocks);
    }
  }

  lemma StartsAreToolsSnoc(starts: seq<Start>, blocks: seq<Block>)
    requires blocks != [] && StartsAreTools(starts, blocks[..|blocks| - 1])
    ensures var n := |blocks| - 1; var last := blocks[n];
            StartsAreTools(if last.ToolUse? then starts + [Start(Some(n), last.id, last.name)] else starts + [], blocks)
  {
    var n := |blocks| - 1;
    var last := blocks[n];
    var more := if last.ToolUse? then starts + [Start(Some(n), last.id, last.name)] else starts;
    assert starts + [] == starts;
    assert ToolsIn(blocks) == ToolsIn(blocks[..n]) + if last.ToolUse? then [last] else [];
    forall m | 0 <= m < |more|
      ensures && more[m].key.Some? && 0 <= more[m].key.value < |blocks|
              && blocks[more[m].key.value] == ToolsIn(blocks)[m]
              && more[m].id == ToolsIn(blocks)[m].id && more[m].name == ToolsIn(blocks)[m].name
    {
      if m < |starts| {
        assert more[m] == starts[m] && blocks[..n][starts[m].key.value] == ToolsIn(blocks[..n])[m];
      }
    }
  }

  // ----- Order of the events -----

  ghost predicate Quiet(events: seq<Event>) {
    forall e | e in events :: !Fails(e) && !e.MessageDelta?
  }

  ghost predicate Prompt(events: seq<Event>) {
    forall p | 0 <= p < |events| && events[p].InputDelta? :: StartedBefore(events, p, events[p].key)
  }

  lemma PromptAppend(a: seq<Event>, b: seq<Event>)
    requires Prompt(a) && Prompt(b)
    ensures Prompt(a + b)
  {
    var all := a + b;
    forall p | 0 <= p < |all| && all[p].InputDelta? ensures StartedBefore(all, p, all[p].key) {
      if p < |a| {
        assert StartedBefore(a, p, a[p].key);
        var q :| 0 <= q < p && a[q].ToolStart? && a[q].key == a[p].key;
        assert all[q] == a[q];
      } else {
        assert StartedBefore(b, p - |a|, b[p - |a|].key);
        var q :| 0 <= q < p - |a| && b[q].ToolStart? && b[q].key == b[p - |a|].key;
        assert all[|a| + q] == b[q];
      }
    }
  }

  lemma BlockIsPrompt(block: Block, key: Option<int>, pieces: seq<string>)
    ensures Prompt(BlockEvents(block, key, pieces)) && Quiet(BlockEvents(block, key, pieces))
  {
    var events := BlockEvents(block, key, pieces);
    forall p | 0 <= p < |events| && events[p].InputDelta? ensures StartedBefore(events, p, events[p].key) {
      assert events[0].ToolStart? && events[0].key == events[p].key;
    }
  }

  lemma {:induction false} ContentIsPrompt(blocks: seq<Block>, cuts: seq<seq<string>>)
    requires |cuts| == |blocks|
    ensures Prompt(ContentEvents(blocks, cuts)) && Quiet(ContentEvents(blocks, cuts))
  {
    if blocks != [] {
      var n := |blocks| - 1;
      ContentIsPrompt(blocks[..n], cuts[..n]);
      BlockIsPrompt(blocks[n], Some(n), cuts[n]);
      PromptAppend(ContentEvents(blocks[..n], cuts[..n]), BlockEvents(blocks[n], Some(n), cuts[n]));
    }
  }

  lemma {:induction false} QuietHasNoStop(events: seq<Event>)
    requires Quiet(events)
    ensures LastStop(events).None?
  {
    if events != [] {
      QuietHasNoStop(events[..|events| - 1]);
    }
  }

  // ----- The whole stream -----

  /** The opening and closing counts together are the reply's, each the greater of the two reports. */
  ghost predicate UsageReported(reply: Reply, opening: Json, closing: Json) {
    forall key :: CountAt(reply.usage, key) == MaxOf(CountAt(opening, key), CountAt(closing, key))
  }

  lemma StreamSays(content: seq<Event>, reply: Reply, opening: Json, closing: Json, key: Option<int>, field: string)
    ensures var says := Says(content, key, field);
            Says(Around(content, reply, opening, closing), key, field) ==
            says.(reports := Counted(MessageStart(opening), field) + says.reports + Counted(MessageStart(closing), field))
  {
    var first, second, third := MessageStart(opening), MessageDelta(reply.stop, closing), MessageStop(Null);
    SaysOne(first, key, field);
    SaysOne(second, key, field);
    SaysOne(third, key, field);
    SaysAppend([second], [third], key, field);
    SaysAppend([first], content, key, field);
    SaysAppend([first] + content, [second, third], key, field);
    assert [second] + [third] == [second, third];
    JoinSilence(Says(content, key, field), Counted(first, field), Counted(second, field));
  }

  lemma JoinSilence(d: Digest, before: seq<int>, after: seq<int>)
    ensures Join(Join(SILENCE.(reports := before), d), Join(SILENCE.(reports := after), SILENCE)) ==
            d.(reports := before + d.reports + after)
  {
  }

  lemma TwoReports(opening: Json, closing: Json, field: string)
    ensures IsMaximum(MaxOf(CountAt(opening, field), CountAt(closing, field)),
                      Counted(MessageStart(opening), field) + [] + Counted(MessageStart(closing), field))
  {
  }

  /** Content that says what the blocks say one after another, with each block opened before its deltas. */
  ghost predicate Renders(content: seq<Event>, blocks: seq<Block>, cuts: seq<seq<string>>)
    requires |cuts| == |blocks|
  {
    && Quiet(content) && Prompt(content)
    && forall key, field :: Says(content, key, field) == Says(ContentEvents(blocks, cuts), key, field)
  }

  /** Whatever way the blocks of a reply that did not overflow are rendered, the stream delivers it. */
  lemma RenderingDelivers(content: seq<Event>, reply: Reply, cuts: seq<seq<string>>, opening: Json, closing: Json, codec: Codec)
    requires CutsOf(reply.content, cuts, codec) && Renders(content, reply.content, cuts)
    requires reply.stop != Some(OVERFLOW_STOP)
    requires UsageReported(reply, opening, closing)
    ensures Delivers(Around(content, reply, opening, closing), reply, codec)
  {
    var events := Around(content, reply, opening, closing);
    RenderingStarts(content, reply, cuts, opening, closing, codec);
    StreamIsOrderly(content, reply, opening, closing);
    StreamStop(content, reply, opening, closing);
    forall n | 0 <= n < |StartsOf(events)|
      ensures Spells(InputsFor(events, StartsOf(events)[n].key), ToolsIn(reply.content)[n].input, codec)
    {
      StreamInputs(content, reply, cuts, opening, closing, codec, n);
    }
    forall key ensures IsMaximum(CountAt(reply.usage, key), Reports(events, key)) {
      RenderingReports(content, reply, cuts, opening, closing, codec, key);
    }
  }

  lemma RenderingStarts(content: seq<Event>, reply: Reply, cuts: seq<seq<string>>, opening: Json, closing: Json, codec: Codec)
    requires CutsOf(reply.content, cuts, codec) && Renders(content, reply.content, cuts)
    ensures var events := Around(content, reply, opening, closing);
            && TextOf(events) == TextIn(reply.content) && ThoughtsOf(events) == ThoughtsIn(reply.content)
            && StartsAreTools(StartsOf(events), reply.content)
  {
    assert Says(content, None, "") == Says(ContentEvents(reply.content, cuts), None, "");
    StreamSays(content, reply, opening, closing, None, "");
    ContentSays(reply.content, cuts, codec, "");
    ContentStarts(reply.content, cuts);
  }

  lemma RenderingReports(content: seq<Event>, reply: Reply, cuts: seq<seq<string>>, opening: Json, closing: Json, codec: Codec,
                         field: string)
    requires CutsOf(reply.content, cuts, codec) && Renders(content, reply.content, cuts)
    requires UsageReported(reply, opening, closing)
    ensures IsMaximum(CountAt(reply.usage, field), Reports(Around(content, reply, opening, closing), field))
  {
    assert Says(content, None, field) == Says(ContentEvents(reply.content, cuts), None, field);
    ContentSays(reply.content, cuts, codec, field);
    StreamSays(content, reply, opening, closing, None, field);
    TwoReports(opening, closing, field);
  }

  lemma StreamInputs(content: seq<Event>, reply: Reply, cuts: seq<seq<string>>, opening: Json, closing: Json, codec: Codec, n: nat)
    requires CutsOf(reply.content, cuts, codec) && Renders(content, reply.content, cuts)
    requires n < |StartsOf(Around(content, reply, opening, closing))|
    requires StartsAreTools(StartsOf(Around(content, reply, opening, closing)), reply.content)
    ensures var events := Around(content, reply, opening, closing);
            Spells(InputsFor(events, StartsOf(events)[n].key), ToolsIn(reply.content)[n].input, codec)
  {
    var k := StartsOf(Around(content, reply, opening, closing))[n].key.value;
    assert Says(content, Some(k), "") == Says(ContentEvents(reply.content, cuts), Some(k), "");
    ContentInputs(reply.content, cuts, k);
    StreamSays(content, reply, opening, closing, Some(k), "");
    assert Spells(Concat(cuts[k]), reply.content[k].input, codec);
  }

  lemma StreamIsOrderly(content: seq<Event>, reply: Reply, opening: Json, closing: Json)
    requires Quiet(content) && Prompt(content) && reply.stop != Some(OVERFLOW_STOP)
    ensures var events := Around(content, reply, opening, closing);
            Healthy(events) && Prompt(events) && exists e :: e in events && EndsTurn(e)
  {
    var last := [MessageDelta(reply.stop, closing), MessageStop(Null)];
    PromptAppend([MessageStart(opening)], content);
    PromptAppend([MessageStart(opening)] + content, last);
    assert last[1] in Around(content, reply, opening, closing) && EndsTurn(last[1]);
  }

  lemma StreamStop(content: seq<Event>, reply: Reply, opening: Json, closing: Json)
    requires Quiet(content)
    ensures LastStop(Around(content, reply, opening, closing)) == if reply.stop.GetOr("") == "" then None else reply.stop
  {
    var before := [MessageStart(opening)] + content;
    var events := Around(content, reply, opening, closing);
    QuietHasNoStop(before);
    assert events[..|events| - 1] == before + [MessageDelta(reply.stop, closing)];
    assert (before + [MessageDelta(reply.stop, closing)])[..|before|] == before;
  }

  /**
   * Whatever pieces the blocks are sent in, the stream for a reply that did
   * not overflow delivers it; the refinement therefore holds of it.
   */
  lemma StreamDelivers(reply: Reply, cuts: seq<seq<string>>, opening: Json, closing: Json, codec: Codec)
    requires CutsOf(reply.content, cuts, codec)
    requires reply.stop != Some(OVERFLOW_STOP)
    requires UsageReported(reply, opening, closing)
    ensures Delivers(StreamFor(reply, cuts, opening, closing), reply, codec)
  {
    ContentIsPrompt(reply.content, cuts);
    RenderingDelivers(ContentEvents(reply.content, cuts), reply, cuts, opening, closing, codec);
  }

  /** A block's text in one piece. */
  function WholeText(block: Block, codec: Codec): string {
    match block
    case TextBlock(text) => text
    case ThinkingBlock(raw) => ThoughtIn(raw)
    case ToolUse(_, _, input) => codec.dump(Or(input, Obj(map[])))
    case _ => ""
  }

  /** So some stream delivers every reply that did not overflow, under a codec that keeps its inputs. */
  lemma SomeStreamDelivers(reply: Reply) returns (events: seq<Event>, codec: Codec)
    requires reply.stop != Some(OVERFLOW_STOP)
    ensures KeepsInputs(codec, reply.content) && Delivers(events, reply, codec)
  {
    codec := SomeCodecKeepsInputs(reply.content);
    var blocks := reply.content;
    var cuts := seq(|blocks|, i requires 0 <= i < |blocks| => [WholeText(blocks[i], codec)]);
    forall i | 0 <= i < |blocks|
      ensures Concat(cuts[i]) == WholeText(blocks[i], codec)
      ensures blocks[i].ToolUse? ==> Spells(Concat(cuts[i]), blocks[i].input, codec)
    {
      ConcatSnoc([], WholeText(blocks[i], codec));
      assert [] + [WholeText(blocks[i], codec)] == cuts[i];
      if blocks[i].ToolUse? {
        ToolIsListed(blocks, i);
      }
    }
    StreamDelivers(reply, cuts, Null, reply.usage, codec);
    events := StreamFor(reply, cuts, Null, reply.usage);
  }

  lemma {:induction false} ToolIsListed(blocks: seq<Block>, i: nat)
    requires i < |blocks| && blocks[i].ToolUse?
    ensures blocks[i] in ToolsIn(blocks)
  {
    if i < |blocks| - 1 {
      assert blocks[..|blocks| - 1][i] == blocks[i];
      ToolIsListed(blocks[..|blocks| - 1], i);
    }
  }
}
