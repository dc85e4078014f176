/**
 What token usage the relay reads out of a stream: for each of four fields, the
 value of the last complete event that reports it.
*/
module SseUsage {
  import opened Wrappers
  import opened JsonValues
  import opened SseFraming

  // ----- What a stream says -----

  /** What a line holds for the reader: the text after `data:`, if there is any but the end marker. */
  function HeldBy(line: seq<Byte>, parse: Parser): seq<Parsed> {
    if [100, 97, 116, 97, 58] <= line && Strip(line[5..]) != [] && Strip(line[5..]) != [91, 68, 79, 78, 69, 93]
    then [parse(Strip(line[5..]))] else []
  }

  function HeldByLines(lines: seq<seq<Byte>>, parse: Parser): seq<Parsed> {
    if lines == [] then [] else HeldByLines(lines[..|lines| - 1], parse) + HeldBy(lines[|lines| - 1], parse)
  }

  function HeldByEvents(events: seq<seq<Byte>>, parse: Parser): seq<Parsed> {
    if events == [] then [] else HeldByLines(LinesOf(events[0]), parse) + HeldByEvents(events[1..], parse)
  }

  /** The value an event reports for a field: any of four at the start of a message, only the output later. */
  function Reported(p: Parsed, field: string): Option<Json> {
    match p
    case MessageStart(usage) =>
      if field == "input_tokens" || field == "output_tokens" || field == "cache_creation_input_tokens"
         || field == "cache_read_input_tokens"
      then Lookup(usage, field) else None
    case MessageDelta(usage) => if field == "output_tokens" then Lookup(usage, field) else None
    case _ => None
  }

  /** The last value reported for a field. */
  function LastReported(held: seq<Parsed>, field: string): Option<Json> {
    if held == [] then None
    else
      var last := Reported(held[|held| - 1], field);
      if last.Some? then last else LastReported(held[..|held| - 1], field)
  }

  lemma {:induction false} LastReportedAppend(a: seq<Parsed>, b: seq<Parsed>, field: string)
    ensures LastReported(a + b, field) ==
            if LastReported(b, field).Some? then LastReported(b, field) else LastReported(a, field)
  {
    if b == [] {
      assert a + b == a;
    } else {
      assert (a + b)[..|a + b| - 1] == a + b[..|b| - 1] && (a + b)[|a + b| - 1] == b[|b| - 1];
      LastReportedAppend(a, b[..|b| - 1], field);
    }
  }

  // ----- What the holder shows -----

  /** The holder shows the last value reported for a field, and otherwise what it showed before. */
  predicate Shows(holder: map<string, Json>, before: map<string, Json>, held: seq<Parsed>, field: string) {
    Lookup(holder, field) ==
    if LastReported(held, field).Some? then LastReported(held, field) else Lookup(before, field)
  }

  lemma LineShows(s: Sniff, line: seq<Byte>, parse: Parser, field: string)
    requires !s.raised && !SniffLine(s, line, parse).raised
    ensures Shows(SniffLine(s, line, parse).holder, s.holder, HeldBy(line, parse), field)
  {
    var held := HeldBy(line, parse);
    if held != [] {
      assert held[..0] == [];
      assert field in START_FIELDS <==>
             field == "input_tokens" || field == "output_tokens" || field == "cache_creation_input_tokens"
             || field == "cache_read_input_tokens";
    }
  }

  lemma {:induction false} LinesShow(s: Sniff, lines: seq<seq<Byte>>, parse: Parser, field: string)
    requires !s.raised && !SniffLines(s, lines, parse).raised
    ensures Shows(SniffLines(s, lines, parse).holder, s.holder, HeldByLines(lines, parse), field)
  {
    if lines != [] {
      var front, last := lines[..|lines| - 1], lines[|lines| - 1];
      var s' := SniffLines(s, front, parse);
      assert !s'.raised;
      LinesShow(s, front, parse, field);
      LineShows(s', last, parse, field);
      LastReportedAppend(HeldByLines(front, parse), HeldBy(last, parse), field);
    }
  }

  lemma {:induction false} EventsShow(s: Sniff, events: seq<seq<Byte>>, parse: Parser, field: string)
    requires !s.raised && !SniffEvents(s, events, parse).raised
    ensures Shows(SniffEvents(s, events, parse).holder, s.holder, HeldByEvents(events, parse), field)
    decreases |events|
  {
    if events != [] {
      var s' := SniffLines(s, LinesOf(events[0]), parse);
      if s'.raised {
        RaisedStays(s', events[1..], parse);
        assert false;
      }
      LinesShow(s, LinesOf(events[0]), parse, field);
      EventsShow(s', events[1..], parse, field);
      LastReportedAppend(HeldByLines(LinesOf(events[0]), parse), HeldByEvents(events[1..], parse), field);
    }
  }

  /**
   * After a stream no complete event of which makes reading raise, every field of
   * the holder shows the last value a complete event reported for it; a field
   * nobody reported, or nobody can, is as it was.
   */
  lemma HolderShowsLastReported(total: seq<Byte>, holder: map<string, Json>, parse: Parser, field: string)
    requires !SomeEventRaises(FramesOf(total).events, parse)
    ensures Shows(SniffBytes(holder, total, parse).holder, holder, HeldByEvents(FramesOf(total).events, parse), field)
  {
    EventsRaise(Sniff(holder, false), FramesOf(total).events, parse);
    EventsShow(Sniff(holder, false), FramesOf(total).events, parse, field);
  }

  // ----- Lines and space -----

  /** An event's lines, each followed by a newline but the last. */
  function Joined(lines: seq<seq<Byte>>): seq<Byte>
    requires lines != []
  {
    if |lines| == 1 then lines[0] else Joined(lines[..|lines| - 1]) + [NEWLINE] + lines[|lines| - 1]
  }

  /** The lines of an event are what stands between its newlines. */
  lemma {:induction false} LinesRejoin(event: seq<Byte>)
    ensures Joined(LinesOf(event)) == event && forall line | line in LinesOf(event) :: NEWLINE !in line
  {
    if event != [] {
      var n := |event| - 1;
      var before, lines := LinesOf(event[..n]), LinesOf(event);
      LinesRejoin(event[..n]);
      assert event == event[..n] + [event[n]];
      if event[n] == NEWLINE {
        assert lines[..|lines| - 1] == before;
      } else {
        LastLineGrows(before, event[n]);
      }
    }
  }

  lemma LastLineGrows(lines: seq<seq<Byte>>, b: Byte)
    requires lines != [] && b != NEWLINE
    requires forall line | line in lines :: NEWLINE !in line
    ensures var n := |lines| - 1; var grown := lines[n := lines[n] + [b]];
            Joined(grown) == Joined(lines) + [b] && forall line | line in grown :: NEWLINE !in line
  {
    var n := |lines| - 1;
    var grown := lines[n := lines[n] + [b]];
    assert grown[..n] == lines[..n];
    forall line | line in grown ensures NEWLINE !in line {
      assert line in lines || line == lines[n] + [b];
    }
    if n > 0 {
      assert Joined(grown) == Joined(lines[..n]) + [NEWLINE] + (lines[n] + [b]);
    }
  }

  /** Blanks, tabs and line ends are space; letters, digits and marks are not. */
  lemma SpaceIs(b: Byte)
    ensures b == 32 || 9 <= b <= 13 ==> IsSpace(b)
    ensures 33 <= b <= 255 || b < 9 || 13 < b < 32 ==> !IsSpace(b)
  {
  }

  /** Stripping takes the space off both ends and nothing else. */
  lemma {:induction false} StripSplits(s: seq<Byte>) returns (before: seq<Byte>, after: seq<Byte>)
    ensures s == before + Strip(s) + after && forall b | b in before + after :: IsSpace(b)
    ensures Strip(s) == [] || (!IsSpace(Strip(s)[0]) && !IsSpace(Strip(s)[|Strip(s)| - 1]))
    decreases |s|
  {
    before, after := [], [];
    if s != [] && IsSpace(s[0]) {
      before, after := StripSplits(s[1..]);
      assert s == [s[0]] + s[1..];
      before := [s[0]] + before;
    } else if s != [] && IsSpace(s[|s| - 1]) {
      before, after := StripSplits(s[..|s| - 1]);
      assert s == s[..|s| - 1] + [s[|s| - 1]];
      after := after + [s[|s| - 1]];
    }
  }

  /** Two newlines end an event, and one does not. */
  lemma BlankLineEndsAnEvent(event: seq<Byte>)
    requires 10 !in event
    ensures FramesOf(event + [10, 10]) == Frames([event], [])
    ensures FramesOf(event + [10]) == Frames([], event + [10])
  {
    FirstEventOf(event);
    var s := event + [10];
    assert forall k | 0 <= k < |event| :: s[k] == event[k];
    assert forall k: nat :: !GapAt(s, k);
    assert FirstGap(s) == |s|;
  }
}
