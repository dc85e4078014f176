/**
 Relaying a server-sent event stream while reading token usage out of it. The
 relay cuts events at a blank line ("\n\n"), whatever chunks the bytes come in.
*/
module SseFraming {
  import opened Wrappers
  import opened JsonValues

  type Byte = b: int | 0 <= b < 256

  const NEWLINE: Byte := 10

  /** What a `data:` line holds; `Raises` is JSON of a shape the reader cannot look into. */
  datatype Parsed =
    | NotJson
    | Raises
    | MessageStart(usage: map<string, Json>)
    | MessageDelta(usage: map<string, Json>)
    | OtherEvent

  type Parser = seq<Byte> -> Parsed

  // ----- Cutting bytes into events -----

  predicate GapAt(s: seq<Byte>, i: nat) {
    i + 1 < |s| && s[i] == NEWLINE && s[i + 1] == NEWLINE
  }

  /** The position of the first blank line, or the length when there is none. */
  function FirstGap(s: seq<Byte>): (i: nat)
    ensures i <= |s| && (i < |s| ==> GapAt(s, i))
  {
    if |s| < 2 then |s| else if GapAt(s, 0) then 0 else 1 + FirstGap(s[1..])
  }

  lemma {:induction false} FirstGapIsFirst(s: seq<Byte>, j: nat)
    requires GapAt(s, j)
    ensures FirstGap(s) <= j
  {
    if !GapAt(s, 0) {
      assert GapAt(s[1..], j - 1);
      FirstGapIsFirst(s[1..], j - 1);
    }
  }

  /** Complete events, and the bytes of the one still arriving. */
  datatype Frames = Frames(events: seq<seq<Byte>>, rest: seq<Byte>)

  function FramesOf(s: seq<Byte>): Frames
    decreases |s|
  {
    var i := FirstGap(s);
    if i == |s| then Frames([], s)
    else
      var later := FramesOf(s[i + 2..]);
      Frames([s[..i]] + later.events, later.rest)
  }

  /** The bytes that framing came from. */
  function Unframed(events: seq<seq<Byte>>, rest: seq<Byte>): seq<Byte> {
    if events == [] then rest else events[0] + [NEWLINE, NEWLINE] + Unframed(events[1..], rest)
  }

  ghost predicate Gapless(s: seq<Byte>) {
    forall j: nat :: !GapAt(s, j)
  }

  /** Framing drops only the blank lines, cuts at each of them, and leaves none behind. */
  lemma FramesLoseNothing(s: seq<Byte>)
    ensures Unframed(FramesOf(s).events, FramesOf(s).rest) == s
    ensures Gapless(FramesOf(s).rest) && forall e | e in FramesOf(s).events :: Gapless(e)
  {
    FramesRebuild(s);
    FramesAreGapless(s);
  }

  lemma {:induction false} FramesRebuild(s: seq<Byte>)
    ensures Unframed(FramesOf(s).events, FramesOf(s).rest) == s
    decreases |s|
  {
    var i := FirstGap(s);
    if i < |s| {
      FramesStep(s);
      FramesRebuild(s[i + 2..]);
      var later := FramesOf(s[i + 2..]);
      UnframedStep(s[..i], later.events, later.rest);
      CutAtGap(s, i);
    }
  }

  lemma UnframedStep(event: seq<Byte>, events: seq<seq<Byte>>, rest: seq<Byte>)
    ensures Unframed([event] + events, rest) == event + [NEWLINE, NEWLINE] + Unframed(events, rest)
  {
    assert ([event] + events)[1..] == events;
  }

  lemma CutAtGap(s: seq<Byte>, i: nat)
    requires GapAt(s, i)
    ensures s == s[..i] + [NEWLINE, NEWLINE] + s[i + 2..]
  {
  }

  lemma {:induction false} FramesAreGapless(s: seq<Byte>)
    ensures Gapless(FramesOf(s).rest) && forall e | e in FramesOf(s).events :: Gapless(e)
    decreases |s|
  {
    var i := FirstGap(s);
    FirstEventIsGapless(s);
    if i == |s| {
      assert s[..i] == s;
    } else {
      FramesStep(s);
      FramesAreGapless(s[i + 2..]);
    }
  }

  lemma FirstEventIsGapless(s: seq<Byte>)
    ensures Gapless(s[..FirstGap(s)])
  {
    var event := s[..FirstGap(s)];
    forall j: nat ensures !GapAt(event, j) {
      if GapAt(event, j) {
        assert GapAt(s, j);
        FirstGapIsFirst(s, j);
      }
    }
  }

  lemma GapStays(a: seq<Byte>, b: seq<Byte>)
    requires FirstGap(a) < |a|
    ensures FirstGap(a + b) == FirstGap(a)
  {
    var i, j := FirstGap(a), FirstGap(a + b);
    assert GapAt(a + b, i);
    FirstGapIsFirst(a + b, i);
    assert GapAt(a + b, j) && GapAt(a, j);
    FirstGapIsFirst(a, j);
  }

  lemma FramesStep(s: seq<Byte>)
    requires FirstGap(s) < |s|
    ensures var later := FramesOf(s[FirstGap(s) + 2..]);
            FramesOf(s) == Frames([s[..FirstGap(s)]] + later.events, later.rest)
  {
  }

  function After(events: seq<seq<Byte>>, more: Frames): Frames {
    Frames(events + more.events, more.rest)
  }

  lemma FramesStepAppend(a: seq<Byte>, b: seq<Byte>)
    requires FirstGap(a) < |a|
    ensures var i := FirstGap(a); var later := FramesOf(a[i + 2..] + b);
            FramesOf(a + b) == Frames([a[..i]] + later.events, later.rest)
  {
    var i := FirstGap(a);
    GapStays(a, b);
    FramesStep(a + b);
    assert (a + b)[..i] == a[..i];
    assert (a + b)[i + 2..] == a[i + 2..] + b;
  }

  lemma AfterFirst(event: seq<Byte>, events: seq<seq<Byte>>, more: Frames)
    ensures Frames([event] + After(events, more).events, more.rest) == After([event] + events, more)
  {
  }

  /** Framing can pause anywhere: only the unfinished bytes are carried over. */
  lemma {:induction false} FramesResume(a: seq<Byte>, b: seq<Byte>)
    ensures FramesOf(a + b) == After(FramesOf(a).events, FramesOf(FramesOf(a).rest + b))
    decreases |a|
  {
    var i := FirstGap(a);
    if i == |a| {
      assert FramesOf(a) == Frames([], a);
      var more := FramesOf(a + b);
      assert [] + more.events == more.events;
    } else {
      var tail := a[i + 2..];
      FramesResume(tail, b);
      FramesStep(a);
      FramesStepAppend(a, b);
      AfterFirst(a[..i], FramesOf(tail).events, FramesOf(FramesOf(tail).rest + b));
    }
  }

  // ----- Reading usage out of an event -----

  predicate IsSpace(b: Byte) {
    b == 32 || 9 <= b <= 13
  }

  function Strip(s: seq<Byte>): seq<Byte>
    decreases |s|
  {
    if s != [] && IsSpace(s[0]) then Strip(s[1..])
    else if s != [] && IsSpace(s[|s| - 1]) then Strip(s[..|s| - 1])
    else s
  }

  const DATA: seq<Byte> := [100, 97, 116, 97, 58]
  const DONE: seq<Byte> := [91, 68, 79, 78, 69, 93]

  /** The lines of an event, cut at each newline. */
  function LinesOf(event: seq<Byte>): (lines: seq<seq<Byte>>)
    ensures lines != []
  {
    if event == [] then [[]]
    else
      var n := |event| - 1;
      var before := LinesOf(event[..n]);
      if event[n] == NEWLINE then before + [[]]
      else before[|before| - 1 := before[|before| - 1] + [event[n]]]
  }

  /** The usage seen so far, and whether reading raised; nothing is read after that. */
  datatype Sniff = Sniff(holder: map<string, Json>, raised: bool)

  const START_FIELDS: seq<string> :=
    ["input_tokens", "output_tokens", "cache_creation_input_tokens", "cache_read_input_tokens"]

  function Selected(usage: map<string, Json>, keys: seq<string>): map<string, Json> {
    map k | k in usage && k in keys :: usage[k]
  }

  function SniffLine(s: Sniff, line: seq<Byte>, parse: Parser): Sniff {
    if s.raised || !(DATA <= line) then s
    else
      var data := Strip(line[5..]);
      if data == [] || data == DONE then s
      else
        match parse(data)
        case NotJson => s
        case Raises => s.(raised := true)
        case MessageStart(usage) => s.(holder := s.holder + Selected(usage, START_FIELDS))
        case MessageDelta(usage) => s.(holder := s.holder + Selected(usage, ["output_tokens"]))
        case OtherEvent => s
  }

  function SniffLines(s: Sniff, lines: seq<seq<Byte>>, parse: Parser): Sniff {
    if lines == [] then s
    else SniffLine(SniffLines(s, lines[..|lines| - 1], parse), lines[|lines| - 1], parse)
  }

  function SniffEvents(s: Sniff, events: seq<seq<Byte>>, parse: Parser): Sniff
    decreases |events|
  {
    if events == [] then s
    else SniffEvents(SniffLines(s, LinesOf(events[0]), parse), events[1..], parse)
  }

  /** The reading of a whole byte stream: its complete events, in order. */
  function SniffBytes(holder: map<string, Json>, bytes: seq<Byte>, parse: Parser): Sniff {
    SniffEvents(Sniff(holder, false), FramesOf(bytes).events, parse)
  }

  lemma {:induction false} RaisedLinesStay(s: Sniff, lines: seq<seq<Byte>>, parse: Parser)
    requires s.raised
    ensures SniffLines(s, lines, parse) == s
  {
    if lines != [] {
      RaisedLinesStay(s, lines[..|lines| - 1], parse);
    }
  }

  lemma {:induction false} RaisedStays(s: Sniff, events: seq<seq<Byte>>, parse: Parser)
    requires s.raised
    ensures SniffEvents(s, events, parse) == s
  {
    if events != [] {
      RaisedLinesStay(s, LinesOf(events[0]), parse);
      RaisedStays(s, events[1..], parse);
    }
  }

  lemma {:induction false} SniffAppend(s: Sniff, a: seq<seq<Byte>>, b: seq<seq<Byte>>, parse: Parser)
    ensures SniffEvents(s, a + b, parse) == SniffEvents(SniffEvents(s, a, parse), b, parse)
    decreases |a|
  {
    if a == [] {
      assert a + b == b;
    } else {
      assert (a + b)[1..] == a[1..] + b;
      SniffAppend(SniffLines(s, LinesOf(a[0]), parse), a[1..], b, parse);
    }
  }

  /** Reading can pause anywhere, too, and stops for good once it raised. */
  lemma SniffResumes(holder: map<string, Json>, a: seq<Byte>, b: seq<Byte>, parse: Parser)
    ensures SniffBytes(holder, a + b, parse) ==
            SniffEvents(SniffBytes(holder, a, parse), FramesOf(FramesOf(a).rest + b).events, parse)
    ensures SniffBytes(holder, a, parse).raised ==> SniffBytes(holder, a + b, parse) == SniffBytes(holder, a, parse)
  {
    FramesResume(a, b);
    SniffAppend(Sniff(holder, false), FramesOf(a).events, FramesOf(FramesOf(a).rest + b).events, parse);
    if SniffBytes(holder, a, parse).raised {
      RaisedStays(SniffBytes(holder, a, parse), FramesOf(FramesOf(a).rest + b).events, parse);
    }
  }

  // ----- The relay -----

  function Join(chunks: seq<seq<Byte>>): seq<Byte> {
    if chunks == [] then [] else Join(chunks[..|chunks| - 1]) + chunks[|chunks| - 1]
  }

  /** The chunks passed on: the non-empty ones that arrive before reading has raised. */
  function Yielded(chunks: seq<seq<Byte>>, holder: map<string, Json>, parse: Parser): seq<seq<Byte>> {
    if chunks == [] then []
    else
      var n := |chunks| - 1;
      var before := Yielded(chunks[..n], holder, parse);
      if chunks[n] == [] || SniffBytes(holder, Join(chunks[..n]), parse).raised then before else before + [chunks[n]]
  }

  lemma {:induction false} RaisedEnds(chunks: seq<seq<Byte>>, i: nat, holder: map<string, Json>, parse: Parser)
    requires i <= |chunks|
    requires i == |chunks| || SniffBytes(holder, Join(chunks[..i]), parse).raised
    ensures SniffBytes(holder, Join(chunks), parse) == SniffBytes(holder, Join(chunks[..i]), parse)
    ensures Yielded(chunks, holder, parse) == Yielded(chunks[..i], holder, parse)
    decreases |chunks|
  {
    if i == |chunks| {
      assert chunks[..i] == chunks;
    } else {
      var front := chunks[..|chunks| - 1];
      assert front[..i] == chunks[..i];
      RaisedEnds(front, i, holder, parse);
      SniffResumes(holder, Join(front), chunks[|chunks| - 1], parse);
    }
  }

  method SniffEvent(s: Sniff, event: seq<Byte>, parse: Parser) returns (s': Sniff)
    requires !s.raised
    ensures s' == SniffLines(s, LinesOf(event), parse)
  {
    var lines := LinesOf(event);
    var holder := s.holder;
    for i := 0 to |lines|
      invariant Sniff(holder, false) == SniffLines(s, lines[..i], parse)
    {
      assert lines[..i + 1][..i] == lines[..i];
      var line := lines[i];
      if !(DATA <= line) {
        continue;
      }
      var data := Strip(line[5..]);
      if data == [] || data == DONE {
        continue;
      }
      var parsed := parse(data);
      if parsed.Raises? {
        RaisedLinesStay(Sniff(holder, true), lines[i + 1..], parse);
        LinesAppend(s, lines[..i + 1], lines[i + 1..], parse);
        assert lines == lines[..i + 1] + lines[i + 1..];
        return Sniff(holder, true);
      }
      if parsed.MessageStart? {
        holder := holder + Selected(parsed.usage, START_FIELDS);
      } else if parsed.MessageDelta? {
        holder := holder + Selected(parsed.usage, ["output_tokens"]);
      }
    }
    assert lines[..|lines|] == lines;
    return Sniff(holder, false);
  }

  lemma {:induction false} LinesAppend(s: Sniff, a: seq<seq<Byte>>, b: seq<seq<Byte>>, parse: Parser)
    ensures SniffLines(s, a + b, parse) == SniffLines(SniffLines(s, a, parse), b, parse)
  {
    if b == [] {
      assert a + b == a;
    } else {
      assert (a + b)[..|a + b| - 1] == a + b[..|b| - 1];
      LinesAppend(s, a, b[..|b| - 1], parse);
    }
  }

  /** The loop over the buffered bytes: read each complete event, keep the rest. */
  method Drain(bytes: seq<Byte>, s: Sniff, parse: Parser) returns (rest: seq<Byte>, sniffed: Sniff)
    requires !s.raised
    ensures sniffed == SniffEvents(s, FramesOf(bytes).events, parse)
    ensures !sniffed.raised ==> rest == FramesOf(bytes).rest
  {
    rest, sniffed := bytes, s;
    while FirstGap(rest) < |rest|
      invariant !sniffed.raised
      invariant SniffEvents(sniffed, FramesOf(rest).events, parse) == SniffEvents(s, FramesOf(bytes).events, parse)
      invariant FramesOf(rest).rest == FramesOf(bytes).rest
      decreases |rest|
    {
      FramesStep(rest);
      var gap := FirstGap(rest);
      var event := rest[..gap];
      assert FramesOf(rest).events[1..] == FramesOf(rest[gap + 2..]).events;
      rest := rest[gap + 2..];
      sniffed := SniffEvent(sniffed, event, parse);
      if sniffed.raised {
        RaisedStays(sniffed, FramesOf(rest).events, parse);
        return;
      }
    }
  }

  /**
   * The relay's loop over arriving chunks. Its reading is that of the whole
   * stream's complete events, and it passes on every chunk until reading raises.
   */
  method PassthroughStream(chunks: seq<seq<Byte>>, holder: map<string, Json>, parse: Parser)
    returns (out: seq<seq<Byte>>, sniffed: Sniff)
    ensures out == Yielded(chunks, holder, parse)
    ensures sniffed == SniffBytes(holder, Join(chunks), parse)
  {
    out, sniffed := [], Sniff(holder, false);
    var buffer: seq<Byte> := [];
    var i := 0;
    while i < |chunks| && !sniffed.raised
      invariant 0 <= i <= |chunks|
      invariant out == Yielded(chunks[..i], holder, parse)
      invariant sniffed == SniffBytes(holder, Join(chunks[..i]), parse)
      invariant !sniffed.raised ==> buffer == FramesOf(Join(chunks[..i])).rest
    {
      var chunk, before := chunks[i], Join(chunks[..i]);
      assert chunks[..i + 1][..i] == chunks[..i];
      assert before + [] == before;
      if chunk != [] {
        out := out + [chunk];
        buffer := buffer + chunk;
        SniffResumes(holder, before, chunk, parse);
        FramesResume(before, chunk);
        buffer, sniffed := Drain(buffer, sniffed, parse);
      }
      i := i + 1;
    }
    RaisedEnds(chunks, i, holder, parse);
  }

  // ----- Independence of the chunk boundaries -----

  /** A line that makes reading raise: a `data:` line with something on it that is JSON of the wrong shape. */
  predicate RaisingLine(line: seq<Byte>, parse: Parser) {
    DATA <= line && Strip(line[5..]) != [] && Strip(line[5..]) != DONE && parse(Strip(line[5..])) == Raises
  }

  predicate SomeLineRaises(lines: seq<seq<Byte>>, parse: Parser) {
    exists line | line in lines :: RaisingLine(line, parse)
  }

  predicate SomeEventRaises(events: seq<seq<Byte>>, parse: Parser) {
    exists event | event in events :: SomeLineRaises(LinesOf(event), parse)
  }

  /** Some event with a raising line is complete before the stream's last byte. */
  predicate RaisesEarly(total: seq<Byte>, parse: Parser) {
    total != [] && SomeEventRaises(FramesOf(total[..|total| - 1]).events, parse)
  }

  lemma LineRaises(s: Sniff, line: seq<Byte>, parse: Parser)
    ensures SniffLine(s, line, parse).raised <==> s.raised || RaisingLine(line, parse)
  {
  }

  lemma {:induction false} LinesRaise(s: Sniff, lines: seq<seq<Byte>>, parse: Parser)
    ensures SniffLines(s, lines, parse).raised <==> s.raised || SomeLineRaises(lines, parse)
  {
    if lines != [] {
      var front, last := lines[..|lines| - 1], lines[|lines| - 1];
      LinesRaise(s, front, parse);
      LineRaises(SniffLines(s, front, parse), last, parse);
      assert forall line :: line in lines <==> line in front || line == last;
    }
  }

  lemma {:induction false} EventsRaise(s: Sniff, events: seq<seq<Byte>>, parse: Parser)
    ensures SniffEvents(s, events, parse).raised <==> s.raised || SomeEventRaises(events, parse)
    decreases |events|
  {
    if events != [] {
      LinesRaise(s, LinesOf(events[0]), parse);
      EventsRaise(SniffLines(s, LinesOf(events[0]), parse), events[1..], parse);
      assert forall event :: event in events <==> event == events[0] || event in events[1..];
    }
  }

  /** Reading has raised on some prefix short of the whole exactly when a raising event is complete by then. */
  lemma RaisedOnPrefix(holder: map<string, Json>, total: seq<Byte>, parse: Parser)
    ensures RaisesEarly(total, parse) <==> exists k: nat :: k < |total| && SniffBytes(holder, total[..k], parse).raised
  {
    if total != [] {
      var n := |total| - 1;
      EventsRaise(Sniff(holder, false), FramesOf(total[..n]).events, parse);
      forall k: nat | k < |total| ensures SniffBytes(holder, total[..k], parse).raised ==> SniffBytes(holder, total[..n], parse).raised {
        assert total[..n] == total[..k] + total[k..n];
        SniffResumes(holder, total[..k], total[k..n], parse);
      }
    }
  }

  lemma {:induction false} JoinGrows(chunks: seq<seq<Byte>>, i: nat)
    requires i <= |chunks|
    ensures Join(chunks[..i]) <= Join(chunks)
    decreases |chunks|
  {
    if i == |chunks| {
      assert chunks[..i] == chunks;
    } else {
      assert chunks[..|chunks| - 1][..i] == chunks[..i];
      JoinGrows(chunks[..|chunks| - 1], i);
    }
  }

  lemma {:induction false} AllYielded(chunks: seq<seq<Byte>>, holder: map<string, Json>, parse: Parser)
    requires !RaisesEarly(Join(chunks), parse)
    ensures Join(Yielded(chunks, holder, parse)) == Join(chunks)
  {
    if chunks != [] {
      var n := |chunks| - 1;
      var front, total := Join(chunks[..n]), Join(chunks);
      RaisedOnPrefix(holder, total, parse);
      RaisedOnPrefix(holder, front, parse);
      forall k: nat | k < |front| ensures !SniffBytes(holder, front[..k], parse).raised {
        assert total[..k] == front[..k];
      }
      AllYielded(chunks[..n], holder, parse);
      var before, all := Yielded(chunks[..n], holder, parse), Yielded(chunks, holder, parse);
      if chunks[n] == [] {
        assert front + [] == front;
      } else {
        assert total[..|front|] == front;
        assert all[..|before|] == before;
      }
    }
  }

  /** A stream cut where reading has already raised is not passed on in full. */
  lemma CutStopsShort(total: seq<Byte>, k: nat, holder: map<string, Json>, parse: Parser)
    requires k < |total| && SniffBytes(holder, total[..k], parse).raised
    ensures Join([total[..k], total[k..]]) == total
    ensures Join(Yielded([total[..k], total[k..]], holder, parse)) == total[..k]
  {
    var first: seq<seq<Byte>> := [total[..k]];
    var chunks: seq<seq<Byte>> := [total[..k], total[k..]];
    NothingRaises(holder, parse);
    assert chunks[..1] == first && first[..0] == [];
    assert Join(first) == total[..k];
    assert total[..0] == [];
    assert Yielded(first, holder, parse) == first;
    assert Yielded(chunks, holder, parse) == first;
  }

  lemma LosingCut(total: seq<Byte>, holder: map<string, Json>, parse: Parser) returns (chunks: seq<seq<Byte>>)
    requires RaisesEarly(total, parse)
    ensures Join(chunks) == total && Join(Yielded(chunks, holder, parse)) != total
  {
    RaisedOnPrefix(holder, total, parse);
    var k: nat :| k < |total| && SniffBytes(holder, total[..k], parse).raised;
    CutStopsShort(total, k, holder, parse);
    chunks := [total[..k], total[k..]];
    assert |total[..k]| < |total|;
  }

  lemma NothingRaises(holder: map<string, Json>, parse: Parser)
    ensures !SniffBytes(holder, [], parse).raised
  {
    assert FramesOf([]).events == [] by {
      assert FirstGap([]) == 0;
    }
  }

  lemma FirstEventOf(event: seq<Byte>)
    requires NEWLINE !in event
    ensures FramesOf(event + [NEWLINE, NEWLINE]) == Frames([event], [])
  {
    var s := event + [NEWLINE, NEWLINE];
    assert GapAt(s, |event|);
    FirstGapIsFirst(s, |event|);
    assert forall k | 0 <= k < |event| :: s[k] == event[k];
    assert s[..|event|] == event && s[|event| + 2..] == [];
  }

  lemma {:induction false} OneLine(event: seq<Byte>)
    requires NEWLINE !in event
    ensures LinesOf(event) == [event]
  {
    if event != [] {
      OneLine(event[..|event| - 1]);
      assert event == event[..|event| - 1] + [event[|event| - 1]];
    }
  }

  /** One raising line with anything after its blank line is enough to raise early. */
  lemma RaisingLineIsEarly(line: seq<Byte>, more: seq<Byte>, parse: Parser)
    requires RaisingLine(line, parse) && NEWLINE !in line && more != []
    ensures RaisesEarly(line + [NEWLINE, NEWLINE] + more, parse)
  {
    var total, k := line + [NEWLINE, NEWLINE] + more, |line| + 2;
    assert total[..k] == line + [NEWLINE, NEWLINE];
    FirstEventOf(line);
    OneLine(line);
    var front := total[..|total| - 1];
    assert front == total[..k] + front[k..];
    FramesResume(total[..k], front[k..]);
    assert FramesOf(front).events[0] == line;
    assert line in LinesOf(line);
  }

  /** A bare number on a `data:` line is valid JSON that reading raises on; the byte after its event can be lost. */
  lemma BareNumberCutsShort(holder: map<string, Json>, parse: Parser) returns (chunks: seq<seq<Byte>>)
    requires parse([49]) == Raises
    ensures Join(chunks) == DATA + [49] + [NEWLINE, NEWLINE] + [120]
    ensures Join(Yielded(chunks, holder, parse)) != Join(chunks)
  {
    var line: seq<Byte> := DATA + [49];
    assert line[5..] == [49] && Strip([49]) == [49];
    RaisingLineIsEarly(line, [120], parse);
    chunks := LosingCut(line + [NEWLINE, NEWLINE] + [120], holder, parse);
  }

  /**
   * Every chunking passes on the whole stream exactly when no event with a
   * raising line is complete before the stream's last byte.
   */
  lemma FramingIndependence(total: seq<Byte>, holder: map<string, Json>, parse: Parser)
    ensures (forall chunks | Join(chunks) == total :: Join(Yielded(chunks, holder, parse)) == total) <==>
            !RaisesEarly(total, parse)
  {
    if RaisesEarly(total, parse) {
      var chunks := LosingCut(total, holder, parse);
    } else {
      forall chunks | Join(chunks) == total ensures Join(Yielded(chunks, holder, parse)) == total {
        AllYielded(chunks, holder, parse);
      }
    }
  }
}
