/**
 A Chat Completions request as an Anthropic Messages request: system text
 hoisted out, tool results gathered on user turns, content rebuilt as typed
 blocks, and a thinking budget fitted beneath the caller's ceiling.
*/
module AnthropicRequest {
  import opened Wrappers
  import opened Text
  import opened JsonValues
  import opened AnthropicReply

  /** One entry of `messages`; anything but an object is skipped. */
  datatype Entry =
    | NotAnObject
    | Said(role: string, content: Json, toolCalls: Json, details: Json, toolCallId: Json, id: Json)

  datatype Role = User | Assistant

  datatype Turn = Turn(role: Role, content: seq<Block>)

  /** Why a part cannot be sent on this wire. */
  datatype Refusal = ImageWithoutUrl | ImageWithoutData | PartWithoutText(kind: Json)

  type Blocks = Result<seq<Block>, Refusal>

  /** JSON text, and the ids given to calls that carry none. */
  datatype Env = Env(codec: Codec, mint: (nat, nat) -> string)

  // ----- Content -----

  predicate IsTextKind(kind: Json) {
    kind == Str("text") || kind == Str("input_text") || kind == Str("output_text")
  }

  predicate IsImageKind(kind: Json) {
    kind == Str("image_url") || kind == Str("image") || kind == Str("input_image")
  }

  function StringIn(j: Json): string {
    if j.Str? then j.s else ""
  }

  function PartText(part: Json): string {
    match part
    case Str(s) => s
    case Obj(_) => if IsTextKind(Field(part, "type")) then StringIn(Field(part, "text")) else ""
    case _ => ""
  }

  function PartsText(parts: seq<Json>): string {
    if parts == [] then "" else PartsText(parts[..|parts| - 1]) + PartText(parts[|parts| - 1])
  }

  /** Content flattened to its text, for a system prompt or a tool result. */
  function TextOf(content: Json, codec: Codec): string {
    match content
    case Str(s) => s
    case Arr(parts) => PartsText(parts)
    case Null => ""
    case _ => codec.dump(content)
  }

  function FirstIndex(s: string, c: char): (i: nat)
    ensures i <= |s| && (i < |s| ==> s[i] == c) && forall j | 0 <= j < i :: s[j] != c
  {
    if s == "" || s[0] == c then 0 else 1 + FirstIndex(s[1..], c)
  }

  /** An image at a URL, which may hold the image itself. */
  function ImageAt(url: string): Result<Block, Refusal> {
    if StartsWith(url, "data:") then
      var comma := FirstIndex(url, ',');
      if comma + 1 >= |url| then Err(ImageWithoutData)
      else
        var head := url[..comma];
        var media := if |head| < 5 then "" else head[5..][..FirstIndex(head[5..], ';')];
        Ok(ImageBlock(Obj(map[
          "type" := Str("base64"),
          "media_type" := Str(if media == "" then "image/png" else media),
          "data" := Str(url[comma + 1..])])))
    else Ok(ImageBlock(Obj(map["type" := Str("url"), "url" := Str(url)])))
  }

  function ImageOf(part: Json): Result<Block, Refusal> {
    var source := Field(part, "source");
    if source.Obj? && Truthy(Field(source, "type")) then Ok(ImageBlock(source))
    else
      var stated := Or(Field(part, "image_url"), Field(part, "url"));
      var url := if stated.Obj? then Field(stated, "url") else stated;
      if !url.Str? || url.s == "" then Err(ImageWithoutUrl) else ImageAt(url.s)
  }

  function PartBlocks(part: Json): Blocks {
    match part
    case Str(s) => Ok(if s == "" then [] else [TextBlock(s)])
    case Obj(fields) =>
      var kind := Field(part, "type");
      if IsImageKind(kind) || "image_url" in fields then
        match ImageOf(part)
        case Ok(block) => Ok([block])
        case Err(refusal) => Err(refusal)
      else
        var text := if Field(part, "text").Str? then Field(part, "text").s else StringIn(Field(part, "content"));
        if text != "" then Ok([TextBlock(text)])
        else if IsTextKind(kind) then Ok([])
        else Err(PartWithoutText(kind))
    case _ => Ok([])
  }

  function PartsBlocks(parts: seq<Json>): Blocks {
    if parts == [] then Ok([])
    else
      match PartsBlocks(parts[..|parts| - 1])
      case Err(refusal) => Err(refusal)
      case Ok(before) =>
        match PartBlocks(parts[|parts| - 1])
        case Err(refusal) => Err(refusal)
        case Ok(blocks) => Ok(before + blocks)
  }

  function ContentBlocks(content: Json, codec: Codec): Blocks {
    match content
    case Arr(parts) => PartsBlocks(parts)
    case _ =>
      var text := TextOf(content, codec);
      Ok(if text == "" then [] else [TextBlock(text)])
  }

  function ReasoningBlocks(details: Json): seq<Block> {
    if details.Arr? then KeptThinking(details.items) else []
  }

  predicate IsThinking(detail: Json) {
    detail.Obj? && (Field(detail, "type") == Str("thinking") || Field(detail, "type") == Str("redacted_thinking"))
  }

  function KeptThinking(details: seq<Json>): seq<Block> {
    if details == [] then []
    else
      var before := KeptThinking(details[..|details| - 1]);
      var detail := details[|details| - 1];
      if IsThinking(detail) then before + [ThinkingBlock(detail)] else before
  }

  // ----- Tool calls -----

  function RawArguments(value: Json): Json {
    Obj(map["__raw_arguments" := value])
  }

  /** The object a call's argument text stands for; anything else is wrapped in one. */
  function InputOf(raw: Json, codec: Codec): Json {
    var parsed :=
      match raw
      case Obj(_) => raw
      case Arr(_) => raw
      case Str(s) => if s == "" then Obj(map[]) else codec.parse(s).GetOr(RawArguments(raw))
      case _ => if Truthy(raw) then RawArguments(raw) else Obj(map[]);
    if parsed.Obj? then parsed else RawArguments(parsed)
  }

  function CallBlocks(call: Json, minted: string, codec: Codec): seq<Block> {
    if !call.Obj? then []
    else
      var stated := Field(call, "function");
      var fn := if stated.Obj? then stated else if Truthy(Field(call, "name")) then call else Obj(map[]);
      [ToolUse(
        Or(Field(call, "id"), Str(minted)),
        Or(Or(Field(fn, "name"), Field(call, "name")), Str("")),
        InputOf(Field(fn, "arguments"), codec))]
  }

  function CallsBlocks(calls: seq<Json>, at: nat, env: Env): seq<Block> {
    if calls == [] then []
    else
      var n := |calls| - 1;
      CallsBlocks(calls[..n], at, env) + CallBlocks(calls[n], env.mint(at, n), env.codec)
  }

  function ToolUseBlocks(calls: Json, at: nat, env: Env): seq<Block> {
    if calls.Arr? then CallsBlocks(calls.items, at, env) else []
  }

  // ----- Messages -----

  predicate IsSystem(entry: Entry) {
    entry.Said? && (entry.role == "system" || entry.role == "developer")
  }

  function ResultBlock(entry: Entry, codec: Codec): Block
    requires entry.Said?
  {
    ToolResult(Or(Or(entry.toolCallId, entry.id), Str("")), TextOf(entry.content, codec))
  }

  /** The blocks of a message that is neither a system message nor a tool result. */
  function SpokenBlocks(entry: Entry, at: nat, env: Env): Blocks
    requires entry.Said?
  {
    match ContentBlocks(entry.content, env.codec)
    case Err(refusal) => Err(refusal)
    case Ok(blocks) =>
      if entry.role == "assistant"
      then Ok(ReasoningBlocks(entry.details) + blocks + ToolUseBlocks(entry.toolCalls, at, env))
      else Ok(blocks)
  }

  datatype Draft = Draft(system: string, turns: seq<Turn>)

  predicate AllResults(blocks: seq<Block>) {
    forall i | 0 <= i < |blocks| :: blocks[i].ToolResult?
  }

  predicate TakesResult(turns: seq<Turn>) {
    turns != [] && turns[|turns| - 1].role == User && AllResults(turns[|turns| - 1].content)
  }

  /** The draft after one more message, the `at`-th. */
  function AddEntry(draft: Draft, entry: Entry, at: nat, env: Env): Result<Draft, Refusal> {
    if entry.NotAnObject? then Ok(draft)
    else if IsSystem(entry) then
      var text := TextOf(entry.content, env.codec);
      Ok(if text == "" then draft
         else draft.(system := if draft.system == "" then text else draft.system + "\n" + text))
    else if entry.role == "tool" then
      var block := ResultBlock(entry, env.codec);
      var turns, n := draft.turns, |draft.turns|;
      Ok(if TakesResult(turns)
         then draft.(turns := turns[n - 1 := Turn(User, turns[n - 1].content + [block])])
         else draft.(turns := turns + [Turn(User, [block])]))
    else
      match SpokenBlocks(entry, at, env)
      case Err(refusal) => Err(refusal)
      case Ok(blocks) =>
        var role := if entry.role == "assistant" then Assistant else User;
        Ok(if blocks == [] then draft else draft.(turns := draft.turns + [Turn(role, blocks)]))
  }

  function DraftOf(entries: seq<Entry>, env: Env): Result<Draft, Refusal> {
    if entries == [] then Ok(Draft("", []))
    else
      var n := |entries| - 1;
      match DraftOf(entries[..n], env)
      case Err(refusal) => Err(refusal)
      case Ok(draft) => AddEntry(draft, entries[n], n, env)
  }

  lemma {:induction false} RefusalStays(entries: seq<Entry>, i: nat, env: Env)
    requires i <= |entries| && DraftOf(entries[..i], env).Err?
    ensures DraftOf(entries, env) == DraftOf(entries[..i], env)
    decreases |entries|
  {
    if i == |entries| {
      assert entries[..i] == entries;
    } else {
      var front := entries[..|entries| - 1];
      assert front[..i] == entries[..i];
      RefusalStays(front, i, env);
    }
  }

  /** The message loop, refusing at the first part that cannot be translated. */
  method TranslateMessages(entries: seq<Entry>, env: Env) returns (draft: Result<Draft, Refusal>)
    ensures draft == DraftOf(entries, env)
  {
    var system: string := "";
    var turns: seq<Turn> := [];
    for i := 0 to |entries|
      invariant Ok(Draft(system, turns)) == DraftOf(entries[..i], env)
    {
      assert entries[..i + 1][..i] == entries[..i];
      var entry := entries[i];
      if entry.NotAnObject? {
        continue;
      }
      if IsSystem(entry) {
        var text := TextOf(entry.content, env.codec);
        if text != "" {
          system := if system == "" then text else system + "\n" + text;
        }
        continue;
      }
      if entry.role == "tool" {
        var block := ResultBlock(entry, env.codec);
        if TakesResult(turns) {
          var last := turns[|turns| - 1];
          turns := turns[|turns| - 1 := Turn(User, last.content + [block])];
        } else {
          turns := turns + [Turn(User, [block])];
        }
        continue;
      }
      var spoken := SpokenBlocks(entry, i, env);
      if spoken.Err? {
        RefusalStays(entries, i + 1, env);
        return Err(spoken.error);
      }
      if spoken.value != [] {
        turns := turns + [Turn(if entry.role == "assistant" then Assistant else User, spoken.value)];
      }
    }
    assert entries[..|entries|] == entries;
    return Ok(Draft(system, turns));
  }

  // ----- Thinking budget -----

  const DEFAULT_MAX_TOKENS := 8192
  const THINKING_HEADROOM := 4096
  const MIN_THINKING_BUDGET := 1024

  function BudgetFor(effort: Json): (budget: Option<int>)
    ensures budget.Some? ==> budget.value >= MIN_THINKING_BUDGET
  {
    if !effort.Str? then None
    else
      var word := Lower(Strip(effort.s));
      if word == "minimal" then Some(1024)
      else if word == "low" then Some(4096)
      else if word == "medium" then Some(8192)
      else if word == "high" then Some(16384)
      else if word == "xhigh" then Some(32768)
      else None
  }

  /** Either spelling of the effort, the flat one first. */
  function EffortBudget(flat: Json, nested: Json): Option<int> {
    var budget := BudgetFor(flat);
    if budget.Some? then budget else if nested.Obj? then BudgetFor(Field(nested, "effort")) else None
  }

  /** A budget Anthropic takes: at its floor or above, with room for a reply beneath the ceiling. */
  predicate Fits(budget: int, table: int, ceiling: int) {
    MIN_THINKING_BUDGET <= budget <= table && budget + THINKING_HEADROOM <= ceiling
  }

  /**
   * The `max_tokens` and thinking budget sent, for the caller's ceiling and
   * the table entry of its effort. A caller's ceiling is never changed; the
   * budget sent is the greatest that fits, and none is sent exactly when none
   * was asked for or none fits.
   */
  function FitThinking(ceiling: Option<int>, table: Option<int>): (fitted: (int, Option<int>))
    requires table.Some? ==> table.value >= MIN_THINKING_BUDGET
    ensures ceiling.Some? ==> fitted.0 == ceiling.value
    ensures ceiling.None? ==> fitted.0 >= DEFAULT_MAX_TOKENS
    ensures ceiling.None? && table.Some? ==> fitted.1 == table
    ensures ceiling.None? ==> fitted.0 == DEFAULT_MAX_TOKENS || fitted.1 == Some(fitted.0 - THINKING_HEADROOM)
    ensures fitted.1.Some? ==> table.Some? && Fits(fitted.1.value, table.value, fitted.0)
    ensures fitted.1.Some? ==> forall b | Fits(b, table.value, fitted.0) :: b <= fitted.1.value
    ensures fitted.1.None? ==> table.None? || forall b :: !Fits(b, table.value, fitted.0)
  {
    var least := ceiling.GetOr(DEFAULT_MAX_TOKENS);
    if table.None? then (least, None)
    else if ceiling.Some? then
      var room := ceiling.value - THINKING_HEADROOM;
      var budget := if room < table.value then room else table.value;
      (least, if budget < MIN_THINKING_BUDGET then None else Some(budget))
    else
      var needed := table.value + THINKING_HEADROOM;
      (if least < needed then needed else least, table)
  }

  datatype Request = Request(
    messages: seq<Entry>,
    maxTokens: Option<int>,
    maxCompletionTokens: Option<int>,
    effort: Json,
    reasoning: Json,
    sampling: map<string, Json>
  )

  datatype Body = Body(
    system: Option<string>,
    turns: seq<Turn>,
    maxTokens: int,
    thinking: Option<int>,
    sampling: map<string, Json>
  )

  const SAMPLING_PARAMETERS := ["temperature", "top_p"]

  /** `max_tokens` or `max_completion_tokens`; a zero is no ceiling. */
  function CeilingOf(request: Request): Option<int> {
    if request.maxTokens.GetOr(0) != 0 then request.maxTokens
    else if request.maxCompletionTokens.GetOr(0) != 0 then request.maxCompletionTokens
    else None
  }

  /** The request body, up to the stop sequences and tool declarations. */
  method TransformRequest(request: Request, env: Env) returns (body: Result<Body, Refusal>)
    ensures body.Err? <==> DraftOf(request.messages, env).Err?
    ensures body.Err? ==> body.error == DraftOf(request.messages, env).error
    ensures body.Ok? ==>
              var draft := DraftOf(request.messages, env).value;
              && body.value.turns == draft.turns
              && body.value.system == (if draft.system == "" then None else Some(draft.system))
              && (body.value.maxTokens, body.value.thinking) ==
                 FitThinking(CeilingOf(request), EffortBudget(request.effort, request.reasoning))
              && (forall p | p in ["temperature", "top_p"] ::
                    Lookup(body.value.sampling, p) ==
                    if body.value.thinking.Some? then None else Lookup(request.sampling, p))
              && (forall p | p in body.value.sampling :: p in ["temperature", "top_p"])
  {
    var draft := TranslateMessages(request.messages, env);
    if draft.Err? {
      return Err(draft.error);
    }
    var (maxTokens, thinking) := FitThinking(CeilingOf(request), EffortBudget(request.effort, request.reasoning));
    var offered := if thinking.Some? then request.sampling - {"temperature", "top_p"} else request.sampling;
    var sampling: map<string, Json> := map[];
    for i := 0 to |SAMPLING_PARAMETERS|
      invariant forall p | p in SAMPLING_PARAMETERS[..i] :: Lookup(sampling, p) == Lookup(offered, p)
      invariant forall p | p in sampling :: p in SAMPLING_PARAMETERS[..i]
    {
      var p := SAMPLING_PARAMETERS[i];
      if p in offered {
        sampling := sampling[p := offered[p]];
      }
    }
    assert SAMPLING_PARAMETERS[..|SAMPLING_PARAMETERS|] == SAMPLING_PARAMETERS;
    assert SAMPLING_PARAMETERS[0] == "temperature" && SAMPLING_PARAMETERS[1] == "top_p";
    return Ok(Body(if draft.value.system == "" then None else Some(draft.value.system),
                   draft.value.turns, maxTokens, thinking, sampling));
  }
}
