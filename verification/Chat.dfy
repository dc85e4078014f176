/**
 The Chat Completions side of both translations: the chunks of a streamed
 reply, the message of a whole one, and a client that reassembles the chunks
 the way an SDK does, addressing tool calls by their index.
*/
module Chat {
  import opened Wrappers
  import opened Text
  import opened JsonValues

  datatype Usage = Usage(
    prompt: int,
    completion: int,
    total: int,
    cached: Option<int>,
    cacheWritten: Option<int>,
    reasoned: Option<int>
  )

  datatype ErrorObject = ErrorObject(message: string, kind: Option<string>, code: Option<string>)

  const OVERFLOW_CODE := "context_length_exceeded"

  /** How an overflow is reported: under its own code, with that code in the message as well. */
  function OverflowError(message: string): ErrorObject {
    ErrorObject(
      if Contains(message, OVERFLOW_CODE) then message else OVERFLOW_CODE + ": " + message,
      Some("invalid_request_error"),
      Some(OVERFLOW_CODE))
  }

  /** A client that keeps only the message of an error still finds the code there. */
  lemma OverflowIsInItsMessage(message: string)
    ensures Contains(OverflowError(message).message, OVERFLOW_CODE)
  {
    if !Contains(message, OVERFLOW_CODE) {
      assert OccursAt(OVERFLOW_CODE + ": " + message, OVERFLOW_CODE, 0);
    }
  }

  /** And one that looks at the error's type or code finds these. */
  lemma OverflowIsTyped(message: string)
    ensures OverflowError(message).kind == Some("invalid_request_error")
    ensures OverflowError(message).code == Some("context_length_exceeded")
    ensures EndsWith(OverflowError(message).message, message)
  {
    var told := OverflowError(message).message;
    assert told[|told| - |message|..] == message;
  }

  datatype Chunk =
    | Opening
    | Content(text: string)
    | Reasoning(thought: string)
    | ToolOpen(index: nat, id: Json, name: Json)
    | ToolArguments(index: nat, piece: string)
    | Finish(reason: string, usage: Option<Usage>)
    | UsageOnly(counts: Usage)
    | Failure(error: ErrorObject)
    | Done

  datatype ToolCall = ToolCall(id: Json, name: Json, arguments: string)

  /** The assistant message of an unstreamed reply. */
  datatype Message = Message(
    content: Option<string>,
    toolCalls: seq<ToolCall>,
    details: seq<Json>,
    reasoning: string
  )

  datatype Completion = Completion(message: Message, finish: string, usage: Option<Usage>)

  /** What a client has put together from the chunks so far. */
  datatype Reading = Reading(
    text: string,
    thoughts: string,
    calls: map<nat, ToolCall>,
    finish: Option<string>,
    usage: Option<Usage>,
    error: Option<ErrorObject>,
    done: bool
  )

  const BLANK := Reading("", "", map[], None, None, None, false)

  function ReadChunk(r: Reading, c: Chunk): Reading {
    match c
    case Opening => r
    case Content(text) => r.(text := r.text + text)
    case Reasoning(thought) => r.(thoughts := r.thoughts + thought)
    case ToolOpen(index, id, name) =>
      if index in r.calls then r.(calls := r.calls[index := r.calls[index].(id := id, name := name)])
      else r.(calls := r.calls[index := ToolCall(id, name, "")])
    case ToolArguments(index, piece) =>
      var call := if index in r.calls then r.calls[index] else ToolCall(Str(""), Str(""), "");
      r.(calls := r.calls[index := call.(arguments := call.arguments + piece)])
    case Finish(reason, usage) =>
      r.(finish := Some(reason), usage := if usage.Some? then usage else r.usage)
    case UsageOnly(counts) => r.(usage := Some(counts))
    case Failure(error) => r.(error := Some(error))
    case Done => r.(done := true)
  }

  /** The client's view of a whole stream of chunks. */
  function Read(chunks: seq<Chunk>): Reading {
    if chunks == [] then BLANK
    else ReadChunk(Read(chunks[..|chunks| - 1]), chunks[|chunks| - 1])
  }

  lemma ReadOne(chunks: seq<Chunk>, c: Chunk)
    ensures Read(chunks + [c]) == ReadChunk(Read(chunks), c)
  {
    assert (chunks + [c])[..|chunks|] == chunks;
  }

  predicate IsTool(c: Chunk) {
    c.ToolOpen? || c.ToolArguments?
  }

  /** One past the greatest tool index mentioned so far. */
  function Numbered(chunks: seq<Chunk>): nat {
    if chunks == [] then 0
    else
      var before := Numbered(chunks[..|chunks| - 1]);
      var c := chunks[|chunks| - 1];
      if IsTool(c) && before <= c.index then c.index + 1 else before
  }

  /** Tool indices first appear as 0, 1, 2, ... with no gap. */
  ghost predicate DenselyNumbered(chunks: seq<Chunk>) {
    forall p | 0 <= p < |chunks| && IsTool(chunks[p]) :: chunks[p].index <= Numbered(chunks[..p])
  }

  lemma DenseAppend(chunks: seq<Chunk>, c: Chunk)
    requires DenselyNumbered(chunks)
    requires IsTool(c) ==> c.index <= Numbered(chunks)
    ensures DenselyNumbered(chunks + [c])
    ensures Numbered(chunks + [c]) ==
            if IsTool(c) && c.index == Numbered(chunks) then c.index + 1 else Numbered(chunks)
  {
    var all := chunks + [c];
    assert all[..|chunks|] == chunks;
    forall p | 0 <= p < |all| && IsTool(all[p])
      ensures all[p].index <= Numbered(all[..p])
    {
      if p < |chunks| {
        assert all[..p] == chunks[..p];
      }
    }
  }

  /** No argument chunk precedes the chunk announcing its call. */
  ghost predicate Announced(chunks: seq<Chunk>) {
    forall p | 0 <= p < |chunks| && chunks[p].ToolArguments? :: OpenedBefore(chunks, p, chunks[p].index)
  }

  ghost predicate OpenedBefore(chunks: seq<Chunk>, p: nat, index: nat)
    requires p <= |chunks|
  {
    exists q | 0 <= q < p :: chunks[q].ToolOpen? && chunks[q].index == index
  }

  lemma AnnouncedAppend(chunks: seq<Chunk>, c: Chunk)
    requires Announced(chunks)
    requires c.ToolArguments? ==> OpenedBefore(chunks, |chunks|, c.index)
    ensures Announced(chunks + [c])
    ensures forall n: nat :: OpenedBefore(chunks, |chunks|, n) ==> OpenedBefore(chunks + [c], |chunks| + 1, n)
    ensures c.ToolOpen? ==> OpenedBefore(chunks + [c], |chunks| + 1, c.index)
  {
    var all := chunks + [c];
    forall p | 0 <= p < |all| && all[p].ToolArguments?
      ensures OpenedBefore(all, p, all[p].index)
    {
      if p < |chunks| {
        assert OpenedBefore(chunks, p, chunks[p].index);
        var q :| 0 <= q < p && chunks[q].ToolOpen? && chunks[q].index == chunks[p].index;
        assert all[q] == chunks[q];
      } else {
        var q :| 0 <= q < |chunks| && chunks[q].ToolOpen? && chunks[q].index == c.index;
        assert all[q] == chunks[q];
      }
    }
    forall n: nat | OpenedBefore(chunks, |chunks|, n) ensures OpenedBefore(all, |chunks| + 1, n) {
      var q :| 0 <= q < |chunks| && chunks[q].ToolOpen? && chunks[q].index == n;
      assert all[q] == chunks[q];
    }
    assert all[|chunks|] == c;
  }

  /** Adding a chunk keeps this exactly when the chunk is no argument text, or its call has been announced. */
  lemma AnnouncedSnoc(chunks: seq<Chunk>, c: Chunk)
    ensures Announced(chunks + [c]) <==>
            Announced(chunks) && (c.ToolArguments? ==> OpenedBefore(chunks, |chunks|, c.index))
    ensures forall n: nat ::
              OpenedBefore(chunks + [c], |chunks| + 1, n) <==> OpenedBefore(chunks, |chunks|, n) || (c.ToolOpen? && c.index == n)
  {
    var all := chunks + [c];
    assert all[|chunks|] == c;
    forall p, n: nat | 0 <= p <= |chunks| ensures OpenedBefore(all, p, n) <==> OpenedBefore(chunks, p, n) {
      forall q | 0 <= q < p ensures all[q] == chunks[q] {
      }
    }
    forall n: nat
      ensures OpenedBefore(all, |all|, n) <==> OpenedBefore(chunks, |chunks|, n) || (c.ToolOpen? && c.index == n)
    {
      assert OpenedBefore(all, |chunks|, n) <==> OpenedBefore(chunks, |chunks|, n);
    }
    if Announced(all) {
      forall p | 0 <= p < |chunks| && chunks[p].ToolArguments? ensures OpenedBefore(chunks, p, chunks[p].index) {
        assert all[p] == chunks[p];
      }
    }
    if Announced(chunks) && (c.ToolArguments? ==> OpenedBefore(chunks, |chunks|, c.index)) {
      forall p | 0 <= p < |all| && all[p].ToolArguments? ensures OpenedBefore(all, p, all[p].index) {
        assert p < |chunks| ==> all[p] == chunks[p];
      }
    }
  }
}
