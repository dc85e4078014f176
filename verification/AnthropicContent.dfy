/**
 What each part of a chat message becomes on the Anthropic side, told from the
 part itself: texts stay in order, images keep their source, a call's arguments
 become an object, an effort its budget.
*/
module AnthropicContent {
  import opened Wrappers
  import opened Text
  import opened JsonValues
  import opened AnthropicReply
  import opened AnthropicRequest
  import opened AnthropicRequestLaws

  // ----- Lists of parts -----

  /** A list of parts in two: refused exactly when either is, the first refusal first; otherwise one after the other. */
  lemma {:induction false} PartsAppend(a: seq<Json>, b: seq<Json>)
    ensures PartsBlocks(a + b) ==
            if PartsBlocks(a).Err? then PartsBlocks(a)
            else if PartsBlocks(b).Err? then PartsBlocks(b)
            else Ok(PartsBlocks(a).value + PartsBlocks(b).value)
    decreases |b|
  {
    if b == [] {
      assert a + b == a;
      if PartsBlocks(a).Ok? {
        assert PartsBlocks(a).value + [] == PartsBlocks(a).value;
      }
    } else {
      var front, last := b[..|b| - 1], b[|b| - 1];
      assert b == front + [last] && a + b == (a + front) + [last];
      PartsAppend(a, front);
      PartsSnoc(front, last);
      PartsSnoc(a + front, last);
      if PartsBlocks(a).Ok? && PartsBlocks(front).Ok? && PartBlocks(last).Ok? {
        Associate(PartsBlocks(a).value, PartsBlocks(front).value, PartBlocks(last).value);
      }
    }
  }

  lemma Associate<T>(a: seq<T>, b: seq<T>, c: seq<T>)
    ensures a + (b + c) == (a + b) + c
  {
  }

  lemma PartsSnoc(front: seq<Json>, last: Json)
    ensures PartsBlocks(front + [last]) ==
            if PartsBlocks(front).Err? then PartsBlocks(front)
            else if PartBlocks(last).Err? then Err(PartBlocks(last).error)
            else Ok(PartsBlocks(front).value + PartBlocks(last).value)
  {
    assert (front + [last])[..|front|] == front;
  }

  lemma {:induction false} PartsTextAppend(a: seq<Json>, b: seq<Json>)
    ensures PartsText(a + b) == PartsText(a) + PartsText(b)
    decreases |b|
  {
    if b == [] {
      assert a + b == a;
    } else {
      var front, last := b[..|b| - 1], b[|b| - 1];
      assert (a + b)[..|a + b| - 1] == a + front && (a + b)[|a + b| - 1] == last;
      PartsTextAppend(a, front);
      Associate(PartsText(a), PartsText(front), PartText(last));
    }
  }

  // ----- Texts -----

  /** A part that says this: a bare string, or an object of one of the three text types. */
  predicate Says(part: Json, text: string) {
    text != "" &&
    (part == Str(text) ||
     (part.Obj? && "image_url" !in part.fields && "text" in part.fields && part.fields["text"] == Str(text)
      && "type" in part.fields && part.fields["type"] in [Str("text"), Str("input_text"), Str("output_text")]))
  }

  predicate AllSay(parts: seq<Json>, texts: seq<string>) {
    |texts| == |parts| && forall i | 0 <= i < |parts| :: Says(parts[i], texts[i])
  }

  function TextBlocks(texts: seq<string>): seq<Block> {
    seq(|texts|, i requires 0 <= i < |texts| => TextBlock(texts[i]))
  }

  lemma OneSays(part: Json, text: string)
    requires Says(part, text)
    ensures PartBlocks(part) == Ok([TextBlock(text)]) && PartText(part) == text
  {
  }

  lemma AllSayFront(parts: seq<Json>, texts: seq<string>)
    requires parts != [] && AllSay(parts, texts)
    ensures var n := |parts| - 1; AllSay(parts[..n], texts[..n]) && Says(parts[n], texts[n])
  {
  }

  lemma {:induction false} BlocksStayInOrder(parts: seq<Json>, texts: seq<string>)
    requires AllSay(parts, texts)
    ensures PartsBlocks(parts) == Ok(TextBlocks(texts))
  {
    if parts == [] {
      assert TextBlocks(texts) == [];
    } else {
      var n := |parts| - 1;
      AllSayFront(parts, texts);
      BlocksStayInOrder(parts[..n], texts[..n]);
      OneSays(parts[n], texts[n]);
      assert parts == parts[..n] + [parts[n]] && texts == texts[..n] + [texts[n]];
      PartsSnoc(parts[..n], parts[n]);
      TextBlocksSnoc(texts[..n], texts[n]);
    }
  }

  lemma {:induction false} WordsStayInOrder(parts: seq<Json>, texts: seq<string>)
    requires AllSay(parts, texts)
    ensures PartsText(parts) == Concat(texts)
  {
    if parts != [] {
      var n := |parts| - 1;
      AllSayFront(parts, texts);
      WordsStayInOrder(parts[..n], texts[..n]);
      OneSays(parts[n], texts[n]);
    }
  }

  lemma TextsStayInOrder(parts: seq<Json>, texts: seq<string>)
    requires AllSay(parts, texts)
    ensures PartsBlocks(parts) == Ok(TextBlocks(texts)) && PartsText(parts) == Concat(texts)
  {
    BlocksStayInOrder(parts, texts);
    WordsStayInOrder(parts, texts);
  }

  lemma TextBlocksSnoc(texts: seq<string>, text: string)
    ensures TextBlocks(texts + [text]) == TextBlocks(texts) + [TextBlock(text)]
  {
  }

  // ----- Whole messages -----

  /** One message translated by itself. */
  function Alone(entry: Entry, env: Env): Result<Draft, Refusal> {
    DraftOf([entry], env)
  }

  lemma AloneIsAdded(entry: Entry, env: Env)
    ensures Alone(entry, env) == AddEntry(Draft("", []), entry, 0, env)
  {
    var entries := [entry];
    var before := entries[..|entries| - 1];
    assert before == [] && DraftOf(before, env) == Ok(Draft("", []));
  }

  lemma SpokenAlone(entry: Entry, blocks: seq<Block>, env: Env)
    requires entry.Said? && entry.role != "system" && entry.role != "developer" && entry.role != "tool"
    requires SpokenBlocks(entry, 0, env) == Ok(blocks) && blocks != []
    ensures Alone(entry, env) == Ok(Draft("", [Turn(if entry.role == "assistant" then Assistant else User, blocks)]))
  {
    AloneIsAdded(entry, env);
    var turn := Turn(if entry.role == "assistant" then Assistant else User, blocks);
    assert !IsSystem(entry) && Draft("", []).turns + [turn] == [turn];
  }

  lemma ResultAlone(entry: Entry, env: Env)
    requires entry.Said? && entry.role == "tool"
    ensures Alone(entry, env) == Ok(Draft("", [Turn(User, [ResultBlock(entry, env.codec)])]))
  {
    AloneIsAdded(entry, env);
    var turn := Turn(User, [ResultBlock(entry, env.codec)]);
    assert [] + [turn] == [turn];
  }

  /** A user message of text parts becomes one user turn with one text block a part, in their order. */
  lemma UserTextsStayInOrder(parts: seq<Json>, texts: seq<string>, calls: Json, details: Json, toolCallId: Json, id: Json, env: Env)
    requires parts != [] && AllSay(parts, texts)
    ensures Alone(Said("user", Arr(parts), calls, details, toolCallId, id), env) == Ok(Draft("", [Turn(User, TextBlocks(texts))]))
  {
    TextsStayInOrder(parts, texts);
    SpokenAlone(Said("user", Arr(parts), calls, details, toolCallId, id), TextBlocks(texts), env);
  }

  /** And wherever in a list of messages it stands, those blocks in that order are what it adds to the turns. */
  lemma UserTextsAreContributed(entries: seq<Entry>, at: nat, parts: seq<Json>, texts: seq<string>, env: Env)
    requires at < |entries| && AllSay(parts, texts) && DraftOf(entries, env).Ok?
    requires entries[at].Said? && entries[at].role == "user" && entries[at].content == Arr(parts)
    ensures |Contributions(entries[..at], env)| <= |Contributions(entries, env)|
    ensures Tagged(User, TextBlocks(texts)) <= Contributions(entries, env)[|Contributions(entries[..at], env)|..]
    ensures Contributions(entries, env) == Flatten(DraftOf(entries, env).value.turns)
  {
    MergePreservesContent(entries, env);
    TextsStayInOrder(parts, texts);
    ContributionStands(entries, at, env);
    assert Contribution(entries[at], at, env) == Ok(Tagged(User, TextBlocks(texts)));
  }

  /** What stands in a list from some place on still stands there when the list grows. */
  lemma StillStands<T>(part: seq<T>, list: seq<T>, k: nat, more: seq<T>)
    requires k <= |list| && part <= list[k..]
    ensures part <= (list + more)[k..]
  {
    assert (list + more)[k..] == list[k..] + more;
  }

  function Own(entry: Entry, at: nat, env: Env): seq<(Role, Block)> {
    var own := Contribution(entry, at, env);
    if own.Ok? then own.value else []
  }

  lemma ContributionsSnoc(entries: seq<Entry>, env: Env)
    requires entries != []
    ensures var n := |entries| - 1; Contributions(entries, env) == Contributions(entries[..n], env) + Own(entries[n], n, env)
  {
  }

  lemma {:induction false} ContributionStands(entries: seq<Entry>, at: nat, env: Env)
    requires at < |entries|
    ensures |Contributions(entries[..at], env)| <= |Contributions(entries, env)|
    ensures Own(entries[at], at, env) <= Contributions(entries, env)[|Contributions(entries[..at], env)|..]
    decreases |entries|
  {
    var n := |entries| - 1;
    ContributionsSnoc(entries, env);
    if at < n {
      assert entries[..n][..at] == entries[..at] && entries[..n][at] == entries[at];
      ContributionStands(entries[..n], at, env);
      StillStands(Own(entries[at], at, env), Contributions(entries[..n], env), |Contributions(entries[..at], env)|, Own(entries[n], n, env));
    }
  }

  /** So does an assistant message, on an assistant turn. */
  lemma AssistantTextsStayInOrder(parts: seq<Json>, texts: seq<string>, toolCallId: Json, id: Json, env: Env)
    requires parts != [] && AllSay(parts, texts)
    ensures Alone(Said("assistant", Arr(parts), Null, Null, toolCallId, id), env) == Ok(Draft("", [Turn(Assistant, TextBlocks(texts))]))
  {
    TextsStayInOrder(parts, texts);
    assert [] + TextBlocks(texts) + [] == TextBlocks(texts);
    SpokenAlone(Said("assistant", Arr(parts), Null, Null, toolCallId, id), TextBlocks(texts), env);
  }

  /** The texts of a system or developer message are joined in their order. */
  lemma SystemTextsStayInOrder(role: string, parts: seq<Json>, texts: seq<string>, calls: Json, details: Json, toolCallId: Json,
                               id: Json, env: Env)
    requires AllSay(parts, texts) && (role == "system" || role == "developer")
    ensures Alone(Said(role, Arr(parts), calls, details, toolCallId, id), env) == Ok(Draft(Concat(texts), []))
  {
    TextsStayInOrder(parts, texts);
    AloneIsAdded(Said(role, Arr(parts), calls, details, toolCallId, id), env);
  }

  /** So are those of a tool result, which answers the call its message names. */
  lemma ResultTextsStayInOrder(parts: seq<Json>, texts: seq<string>, calls: Json, details: Json, answered: string, id: Json, env: Env)
    requires AllSay(parts, texts) && answered != ""
    ensures Alone(Said("tool", Arr(parts), calls, details, Str(answered), id), env) ==
            Ok(Draft("", [Turn(User, [ToolResult(Str(answered), Concat(texts))])]))
  {
    TextsStayInOrder(parts, texts);
    ResultAlone(Said("tool", Arr(parts), calls, details, Str(answered), id), env);
  }

  /** A result whose message names no call answers the one it is itself named after. */
  lemma ResultFallsBackToItsId(text: string, answered: string, env: Env)
    ensures Alone(Said("tool", Str(text), Null, Null, Null, Str(answered)), env) ==
            Ok(Draft("", [Turn(User, [ToolResult(Str(answered), text)])]))
  {
    ResultAlone(Said("tool", Str(text), Null, Null, Null, Str(answered)), env);
  }

  /** A message that is a plain text becomes one block, on an assistant turn for the assistant and a user turn for anyone else. */
  lemma PlainTextIsOneBlock(role: string, text: string, env: Env)
    requires role != "system" && role != "developer" && role != "tool" && text != ""
    ensures Alone(Said(role, Str(text), Null, Null, Null, Null), env) ==
            Ok(Draft("", [Turn(if role == "assistant" then Assistant else User, [TextBlock(text)])]))
  {
    assert [] + [TextBlock(text)] + [] == [TextBlock(text)];
    SpokenAlone(Said(role, Str(text), Null, Null, Null, Null), [TextBlock(text)], env);
  }

  /** Content that is neither text, list nor nothing is sent as its JSON text. */
  lemma OtherContentIsDumped(content: Json, env: Env)
    requires !content.Str? && !content.Arr? && !content.Null? && env.codec.dump(content) != ""
    ensures Alone(Said("user", content, Null, Null, Null, Null), env) ==
            Ok(Draft("", [Turn(User, [TextBlock(env.codec.dump(content))])]))
  {
    SpokenAlone(Said("user", content, Null, Null, Null, Null), [TextBlock(env.codec.dump(content))], env);
  }

  // ----- Other parts -----

  /** A part of an unknown type still has its text sent, under whichever key it stands; without any it is refused by name. */
  lemma UnknownPartKeepsItsText(fields: map<string, Json>, kind: Json)
    requires "image_url" !in fields && Lookup(fields, "type").GetOr(Null) == kind
    requires kind !in [Str("image_url"), Str("image"), Str("input_image"), Str("text"), Str("input_text"), Str("output_text")]
    ensures forall text | text != "" && Lookup(fields, "text") == Some(Str(text)) :: PartBlocks(Obj(fields)) == Ok([TextBlock(text)])
    ensures forall text | text != "" && !Lookup(fields, "text").GetOr(Null).Str? && Lookup(fields, "content") == Some(Str(text)) ::
              PartBlocks(Obj(fields)) == Ok([TextBlock(text)])
    ensures !Lookup(fields, "text").GetOr(Null).Str? && !Lookup(fields, "content").GetOr(Null).Str? ==>
              PartBlocks(Obj(fields)) == Err(PartWithoutText(kind))
  {
  }

  /** What is neither a string nor an object is passed over, and so is an empty text. */
  lemma EmptyPartsAreSkipped(part: Json, kind: string)
    requires kind in ["text", "input_text", "output_text"]
    ensures !part.Str? && !part.Obj? ==> PartBlocks(part) == Ok([])
    ensures PartBlocks(Str("")) == Ok([])
    ensures PartBlocks(Obj(map["type" := Str(kind), "text" := Str("")])) == Ok([])
  {
  }

  // ----- Images -----

  predicate IsImagePart(part: Json) {
    part.Obj? && ("image_url" in part.fields
      || ("type" in part.fields && part.fields["type"] in [Str("image_url"), Str("image"), Str("input_image")]))
  }

  /** A source of the part's own, which says what type it is of. */
  predicate HasTypedSource(fields: map<string, Json>) {
    var source := Lookup(fields, "source").GetOr(Null);
    source.Obj? && Truthy(Lookup(source.fields, "type").GetOr(Null))
  }

  /** The URL an image part names: its `image_url`, or else its `url`, as text or in an object. */
  predicate NamesUrl(part: Json, url: string) {
    && IsImagePart(part) && url != ""
    && !HasTypedSource(part.fields)
    && var stated := if Truthy(Lookup(part.fields, "image_url").GetOr(Null)) then part.fields["image_url"]
                     else Lookup(part.fields, "url").GetOr(Null);
       stated == Str(url) || (stated.Obj? && Lookup(stated.fields, "url") == Some(Str(url)))
  }

  /** Where an image part names a URL and has no source, that URL decides. */
  lemma NamedUrlDecides(part: Json, url: string)
    requires NamesUrl(part, url)
    ensures PartBlocks(part) == match ImageAt(url) case Ok(block) => Ok([block]) case Err(refusal) => Err(refusal)
  {
    var stated := Or(Field(part, "image_url"), Field(part, "url"));
    assert Field(part, "image_url") == Lookup(part.fields, "image_url").GetOr(Null);
    assert Field(part, "url") == Lookup(part.fields, "url").GetOr(Null);
    assert Field(part, "source") == Lookup(part.fields, "source").GetOr(Null);
    assert (if stated.Obj? then Field(stated, "url") else stated) == Str(url);
    assert ImageOf(part) == ImageAt(url);
  }

  /** An image that is inline goes with its bytes and media type, `image/png` where it states none. */
  lemma InlineImageKeepsItsData(part: Json, media: string, parameters: string, data: string)
    requires ';' !in media && ',' !in media && ',' !in parameters && (parameters == "" || parameters[0] == ';') && data != ""
    requires NamesUrl(part, "data:" + media + parameters + "," + data)
    ensures PartBlocks(part) == Ok([ImageBlock(Obj(map[
              "type" := Str("base64"),
              "media_type" := Str(if media == "" then "image/png" else media),
              "data" := Str(data)]))])
  {
    NamedUrlDecides(part, "data:" + media + parameters + "," + data);
    InlineUrl(media, parameters, data);
  }

  lemma InlineUrl(media: string, parameters: string, data: string)
    requires ';' !in media && ',' !in media && ',' !in parameters && (parameters == "" || parameters[0] == ';') && data != ""
    ensures ImageAt("data:" + media + parameters + "," + data) == Ok(ImageBlock(Obj(map[
              "type" := Str("base64"),
              "media_type" := Str(if media == "" then "image/png" else media),
              "data" := Str(data)])))
  {
    var scheme, head := "data:", "data:" + media + parameters;
    var url := head + "," + data;
    assert url == head + ("," + data) && head == scheme + (media + parameters);
    assert url[..5] == scheme;
    FirstIndexAfter(head, ",", data, ',');
    assert url[..|head|] == head && url[|head| + 1..] == data && head[5..] == media + parameters;
    MediaBeforeParameters(media, parameters);
  }

  lemma FirstIndexAfter(head: string, mark: string, tail: string, c: char)
    requires c !in head && mark == [c]
    ensures FirstIndex(head + (mark + tail), c) == |head|
  {
    var s := head + (mark + tail);
    assert s[|head|] == c;
    assert forall i | 0 <= i < |head| :: s[i] == head[i];
  }

  lemma MediaBeforeParameters(media: string, parameters: string)
    requires ';' !in media && (parameters == "" || parameters[0] == ';')
    ensures (media + parameters)[..FirstIndex(media + parameters, ';')] == media
  {
    var s := media + parameters;
    assert forall i | 0 <= i < |media| :: s[i] == media[i];
    assert parameters != "" ==> s[|media|] == ';';
    assert s[..|media|] == media;
  }

  /** An image at a plain URL goes as that URL. */
  lemma RemoteImageKeepsItsUrl(part: Json, url: string)
    requires NamesUrl(part, url) && !StartsWith(url, "data:")
    ensures PartBlocks(part) == Ok([ImageBlock(Obj(map["type" := Str("url"), "url" := Str(url)]))])
  {
    NamedUrlDecides(part, url);
  }

  /** An image with a typed source of its own goes as that source. */
  lemma SourcedImageIsPassedOn(fields: map<string, Json>, source: Json)
    requires IsImagePart(Obj(fields)) && Lookup(fields, "source") == Some(source)
    requires source.Obj? && Truthy(Lookup(source.fields, "type").GetOr(Null))
    ensures PartBlocks(Obj(fields)) == Ok([ImageBlock(source)])
  {
  }

  /** An image nobody can read is refused: no URL at all, or an inline one without data. */
  lemma UnreadableImageIsRefused(kind: string, head: string)
    requires kind in ["image_url", "image", "input_image"] && ',' !in head
    ensures PartBlocks(Obj(map["type" := Str(kind)])) == Err(ImageWithoutUrl)
    ensures PartBlocks(Obj(map["type" := Str(kind), "image_url" := Str("data:" + head)])) == Err(ImageWithoutData)
    ensures PartBlocks(Obj(map["type" := Str(kind), "image_url" := Str("data:" + head + ",")])) == Err(ImageWithoutData)
  {
    var bare, ended := "data:" + head, "data:" + head + ",";
    assert bare[..5] == "data:" && ended[..5] == "data:";
    assert ended == bare + ("," + "");
    FirstIndexAfter(bare, ",", "", ',');
    assert ',' !in bare;
  }

  // ----- Calls -----

  /** A call's input is the object its argument text spells; text that spells anything else, or nothing, is kept in one. */
  lemma ArgumentsBecomeAnObject(text: string, codec: Codec)
    ensures text == "" ==> InputOf(Str(text), codec) == Obj(map[])
    ensures text != "" ==>
              match codec.parse(text)
              case Some(Obj(fields)) => InputOf(Str(text), codec) == Obj(fields)
              case Some(value) => InputOf(Str(text), codec) == Obj(map["__raw_arguments" := value])
              case None => InputOf(Str(text), codec) == Obj(map["__raw_arguments" := Str(text)])
  {
  }

  /** Arguments that come as an object are the input; a list is kept in one; none are an empty object. */
  lemma StructuredArguments(fields: map<string, Json>, items: seq<Json>, codec: Codec)
    ensures InputOf(Obj(fields), codec) == Obj(fields)
    ensures InputOf(Arr(items), codec) == Obj(map["__raw_arguments" := Arr(items)])
    ensures InputOf(Null, codec) == Obj(map[])
  {
  }

  /** A call's name is its function's, and only for want of one its own. */
  lemma FunctionNamesTheCall(id: string, name: string, own: string, fields: map<string, Json>, minted: string, codec: Codec)
    requires id != "" && own != ""
    ensures CallBlocks(Obj(map["id" := Str(id), "name" := Str(own),
                               "function" := Obj(map["name" := Str(name), "arguments" := Obj(fields)])]), minted, codec) ==
            [ToolUse(Str(id), Str(if name != "" then name else own), Obj(fields))]
  {
    var fn := Obj(map["name" := Str(name), "arguments" := Obj(fields)]);
    var call := Obj(map["id" := Str(id), "name" := Str(own), "function" := fn]);
    assert Field(call, "function") == fn && Field(call, "id") == Str(id) && Field(call, "name") == Str(own);
    assert Field(fn, "name") == Str(name) && Field(fn, "arguments") == Obj(fields);
  }

  /** A call stated without a function has its name and arguments on itself; one without an id gets the minted one. */
  lemma FlatCallIsRead(name: string, fields: map<string, Json>, minted: string, codec: Codec)
    requires name != ""
    ensures CallBlocks(Obj(map["name" := Str(name), "arguments" := Obj(fields)]), minted, codec) ==
            [ToolUse(Str(minted), Str(name), Obj(fields))]
  {
    var call := Obj(map["name" := Str(name), "arguments" := Obj(fields)]);
    assert Field(call, "function") == Null && Field(call, "id") == Null;
    assert Field(call, "name") == Str(name) && Field(call, "arguments") == Obj(fields);
  }

  /** Of the reasoning handed back, the thinking blocks are kept, redacted ones too, and nothing else. */
  lemma {:induction false} OnlyThinkingIsKept(details: seq<Json>, detail: Json)
    ensures KeptThinking(details + [detail]) ==
            KeptThinking(details) +
            if detail.Obj? && "type" in detail.fields
               && (detail.fields["type"] == Str("thinking") || detail.fields["type"] == Str("redacted_thinking"))
            then [ThinkingBlock(detail)] else []
  {
    assert (details + [detail])[..|details|] == details;
    assert KeptThinking(details) + [] == KeptThinking(details);
  }

  // ----- Budgets and ceilings -----

  const BUDGETS: map<string, int> := map["minimal" := 1024, "low" := 4096, "medium" := 8192, "high" := 16384, "xhigh" := 32768]

  /** The budget of an effort is its table entry, whatever its case and the space around it; other words have none. */
  lemma EffortMeansItsEntry(word: string, spelled: string, before: string, after: string)
    requires Lower(spelled) == word && spelled != "" && !IsSpace(spelled[0]) && !IsSpace(spelled[|spelled| - 1])
    requires forall c | c in before + after :: IsSpace(c)
    ensures BudgetFor(Str(before + spelled + after)) == Lookup(BUDGETS, word)
  {
    StripsSpace(before, spelled, after);
  }

  lemma OnlyWordsAreEfforts(effort: Json)
    requires !effort.Str?
    ensures BudgetFor(effort) == None
  {
  }

  /** The flat effort decides where it names one; otherwise the nested one does. */
  lemma FlatEffortFirst(flat: Json, nested: Json)
    ensures BudgetFor(flat) != None ==> EffortBudget(flat, Obj(map["effort" := nested])) == BudgetFor(flat)
    ensures BudgetFor(flat) == None ==> EffortBudget(flat, Obj(map["effort" := nested])) == BudgetFor(nested)
    ensures EffortBudget(flat, Null) == BudgetFor(flat)
  {
    assert Field(Obj(map["effort" := nested]), "effort") == nested;
  }

  /** The caller's ceiling is its `max_tokens`, or else its `max_completion_tokens`; zero is none. */
  lemma CeilingMeans(request: Request, n: int)
    requires n != 0
    ensures request.maxTokens == Some(n) ==> CeilingOf(request) == Some(n)
    ensures (request.maxTokens == None || request.maxTokens == Some(0)) && request.maxCompletionTokens == Some(n) ==>
              CeilingOf(request) == Some(n)
    ensures (request.maxTokens == None || request.maxTokens == Some(0))
            && (request.maxCompletionTokens == None || request.maxCompletionTokens == Some(0)) ==>
              CeilingOf(request) == None
  {
  }

  /** The numbers behind the fitting: 8192 tokens where nobody sets a ceiling, 1024 to think with, 4096 beneath it to reply with. */
  lemma FittingNumbers(ceiling: int, table: int)
    requires table >= 1024
    ensures FitThinking(None, None) == (8192, None) && FitThinking(Some(ceiling), None) == (ceiling, None)
    ensures FitThinking(None, Some(table)) == (if table + 4096 > 8192 then table + 4096 else 8192, Some(table))
    ensures ceiling < 5120 ==> FitThinking(Some(ceiling), Some(table)) == (ceiling, None)
    ensures ceiling >= 5120 ==>
              FitThinking(Some(ceiling), Some(table)) == (ceiling, Some(if table <= ceiling - 4096 then table else ceiling - 4096))
  {
  }
}
