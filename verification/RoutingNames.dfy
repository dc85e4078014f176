/**
 Routing told in the words a row is written in: the harnesses it names, the
 paths its provider states, and the URIs it stores.
*/
module RoutingNames {
  import opened Wrappers
  import opened Text
  import opened Routing

  // ----- The harnesses a row names -----

  /** Pieces written one after another with commas between them. */
  function Listing(pieces: seq<string>): string
    requires pieces != []
  {
    if |pieces| == 1 then pieces[0] else pieces[0] + "," + Listing(pieces[1..])
  }

  lemma {:induction false} SplitPiece(word: string, rest: string, piece: string)
    requires ',' !in word && (rest == "" || rest[0] == ',')
    ensures SplitFrom(word + rest, ',', piece) ==
            if rest == "" then [piece + word] else [piece + word] + SplitFrom(rest[1..], ',', "")
    decreases |word|
  {
    if word == "" {
      assert word + rest == rest && piece + word == piece;
    } else {
      assert (word + rest)[0] == word[0] && (word + rest)[1..] == word[1..] + rest;
      SplitPiece(word[1..], rest, piece + [word[0]]);
      assert (piece + [word[0]]) + word[1..] == piece + word;
    }
  }

  /** Splitting at the commas gives the pieces back. */
  lemma {:induction false} SplitListing(pieces: seq<string>)
    requires pieces != [] && forall p | p in pieces :: ',' !in p
    ensures Split(Listing(pieces), ',') == pieces
    decreases |pieces|
  {
    assert pieces[0] in pieces;
    if |pieces| == 1 {
      SplitPiece(pieces[0], "", "");
      assert pieces[0] + "" == pieces[0] && "" + pieces[0] == pieces[0];
    } else {
      SplitListing(pieces[1..]);
      var rest := "," + Listing(pieces[1..]);
      SplitPiece(pieces[0], rest, "");
      assert pieces[0] + "," + Listing(pieces[1..]) == pieces[0] + rest;
      assert rest[1..] == Listing(pieces[1..]) && "" + pieces[0] == pieces[0];
      assert pieces == [pieces[0]] + pieces[1..];
    }
  }

  /** The row's list names the harness, in any case and with any space around it, or names nobody at all. */
  ghost predicate Names(pieces: seq<string>, harness: string) {
    || (forall p | p in pieces :: Strip(p) == "")
    || exists p :: p in pieces && Strip(p) != "" && Lower(Strip(p)) == Lower(Strip(harness))
  }

  /** A row is visible to the harnesses it names, and to all where it names none. */
  lemma VisibleMeans(row: Model, pieces: seq<string>, harness: string)
    requires pieces != [] && (forall p | p in pieces :: ',' !in p)
    ensures row.harnesses == Some(Listing(pieces)) ==> (row.VisibleTo(harness) <==> Names(pieces, harness))
    ensures row.harnesses == None || row.harnesses == Some("") ==> row.VisibleTo(harness)
  {
    SplitListing(pieces);
    forall p | p in pieces ensures Lower(Strip(p)) == "" <==> Strip(p) == "" {
      assert |Lower(Strip(p))| == |Strip(p)|;
    }
    if row.harnesses == Some(Listing(pieces)) {
      if p :| p in pieces && Strip(p) != "" {
        assert Lower(Strip(p)) in row.AllowedHarnesses();
      }
    }
    if row.harnesses == None || row.harnesses == Some("") {
      assert Split("", ',') == [""] && Strip("") == "" && Lower("") == "";
      assert row.AllowedHarnesses() == {};
    }
  }

  /** A request that declares nothing is judged by its wire: Messages as Claude's, Responses and chat as Codex's. */
  lemma JudgedByWire(declared: Option<string>)
    requires declared == None || Lower(Strip(declared.value)) != "dsh"
    ensures JudgedHarness(Some(AnthropicMessages), declared) == Some("claude")
    ensures JudgedHarness(Some(OpenaiResponses), declared) == Some("codex")
    ensures JudgedHarness(Some(ChatCompletions), declared) == Some("codex")
    ensures JudgedHarness(Some(SystemOne), declared) == None && JudgedHarness(None, declared) == None
  {
    assert Strip("") == "" && Lower("") == "";
  }

  /** One that declares itself is judged by its own name on the wire it speaks, and by the wire on any other. */
  lemma JudgedByName(declared: string)
    requires Lower(Strip(declared)) == "dsh"
    ensures JudgedHarness(Some(ChatCompletions), Some(declared)) == Some("dsh")
    ensures JudgedHarness(Some(AnthropicMessages), Some(declared)) == Some("claude")
    ensures JudgedHarness(Some(OpenaiResponses), Some(declared)) == Some("codex")
  {
  }

  /** A request without a declaration finds a row exactly if it may, by admin and by the harnesses the row names. */
  lemma FoundIffNamed(rows: seq<Model>, row: Model, pieces: seq<string>, isAdmin: bool, wire: Wire)
    requires UniqueNames(rows) && row in rows && row.name != "" && row.enabled && wire != SystemOne
    requires pieces != [] && (forall p | p in pieces :: ',' !in p) && row.harnesses == Some(Listing(pieces))
    ensures var harness := if wire == AnthropicMessages then "claude" else "codex";
            Resolve(rows, row.name, isAdmin, Some(wire), None) != Err(NotRegistered) <==>
            (row.adminOnly ==> isAdmin) && Names(pieces, harness)
  {
    UniqueRow(rows, row);
    JudgedByWire(None);
    VisibleMeans(row, pieces, if wire == AnthropicMessages then "claude" else "codex");
  }

  /** Four harnesses are known, each with the wires it speaks. */
  lemma KnownHarnesses(harness: string, wire: Wire)
    ensures IsHarness(harness) <==> harness == "claude" || harness == "codex" || harness == "dsh" || harness == "hermes"
    ensures wire in HarnessWires("claude") <==> wire == AnthropicMessages
    ensures wire in HarnessWires("codex") <==> wire == OpenaiResponses || wire == ChatCompletions
    ensures wire in HarnessWires("dsh") <==> wire == ChatCompletions
    ensures wire in HarnessWires("hermes") <==> wire != SystemOne
  {
  }

  /** Why a request is refused: no name, no row it may see, no URI on its wire, or no credential, in that order. */
  lemma RefusalMeans(rows: seq<Model>, row: Model, isAdmin: bool, wire: Wire, declared: Option<string>)
    requires UniqueNames(rows) && row in rows && row.name != "" && row.enabled && (row.adminOnly ==> isAdmin)
    requires row.harnesses == None
    ensures Resolve(rows, "", isAdmin, Some(wire), declared) == Err(MissingName)
    ensures var r, uri := Resolve(rows, row.name, isAdmin, Some(wire), declared), TargetUri(row, Some(wire));
            && (r == Err(NoUri) <==> uri == None || uri == Some(""))
            && (r == Err(NoCredential) <==> uri != None && uri != Some("") && row.secret == None)
            && (r.Ok? <==> uri != None && uri != Some("") && row.secret != None)
            && (r.Ok? ==> r.value.uri == uri.value && r.value.secret == row.secret.value)
  {
    UniqueRow(rows, row);
    var harness := JudgedHarness(Some(wire), declared);
    if harness.Some? {
      VisibleMeans(row, [""], harness.value);
    }
  }

  /** A name that no enabled row has, or only one for admins, is reported as not there. */
  lemma AbsentIsNotRegistered(rows: seq<Model>, name: string, isAdmin: bool, wire: Wire, declared: Option<string>)
    requires name != "" && forall row | row in rows && row.name == name :: !row.enabled || (row.adminOnly && !isAdmin)
    ensures Resolve(rows, name, isAdmin, Some(wire), declared) == Err(NotRegistered)
  {
    FoundIsARow(rows, name);
  }

  lemma {:induction false} FoundIsARow(rows: seq<Model>, name: string)
    ensures RowOf(rows, name).Some? ==>
              RowOf(rows, name).value in rows && RowOf(rows, name).value.name == name && RowOf(rows, name).value.enabled
  {
    if rows != [] {
      FoundIsARow(rows[1..], name);
    }
  }

  /** A listing offers each harness only the wires it speaks. */
  lemma ListedOnSpokenWires(rows: seq<Model>, id: string, wire: Wire, isAdmin: bool)
    ensures RowListed(rows, id, wire, Some("claude"), isAdmin) ==> wire == AnthropicMessages
    ensures RowListed(rows, id, wire, Some("codex"), isAdmin) ==> wire == OpenaiResponses || wire == ChatCompletions
    ensures RowListed(rows, id, wire, Some("dsh"), isAdmin) ==> wire == ChatCompletions
    ensures RowListed(rows, id, wire, Some("hermes"), isAdmin) ==> wire != SystemOne
  {
  }

  // ----- The paths a provider states -----

  /** Each wire goes to its own path, after the base. */
  lemma OwnPathIsUsed(row: Model, base: string, path: string)
    requires row.provider.Some? && row.provider.value.enabled && row.provider.value.baseUrl == base
    requires (base == "" || base[|base| - 1] != '/') && (path == "" || path[0] != '/')
    ensures row.provider.value.messagesPath == Some("/" + path) ==>
              TargetUri(row, Some(AnthropicMessages)) == Some(base + "/" + path)
    ensures row.provider.value.responsesPath == Some("/" + path) ==>
              TargetUri(row, Some(OpenaiResponses)) == Some(base + "/" + path)
    ensures row.provider.value.chatPath == Some("/" + path) ==>
              TargetUri(row, Some(ChatCompletions)) == Some(base + "/" + path)
  {
    assert ("/" + path)[1..] == path;
    assert TrimLeft("/" + path, '/') == path && TrimRight(base, '/') == base;
  }

  /** Without a path of its own a wire is not served, but for chat, which the two others stand in for. */
  lemma NoPathNoUri(row: Model)
    requires row.provider.Some? && row.provider.value.enabled
    ensures row.provider.value.messagesPath == None ==> TargetUri(row, Some(AnthropicMessages)) == None
    ensures row.provider.value.responsesPath == None ==> TargetUri(row, Some(OpenaiResponses)) == None
    ensures row.provider.value.chatPath == None && row.provider.value.responsesPath == None && row.provider.value.messagesPath == None ==>
              TargetUri(row, Some(ChatCompletions)) == None
  {
  }

  // ----- The URIs a row stores -----

  /** A URI on another host that ends in a standard path, slashes aside, serves that path's wire, and chat. */
  lemma StandardPathServes(prefix: string, slashes: nat)
    ensures var uri := prefix + "/v1/messages" + Slashes(slashes);
            !Contains(uri, "api.anthropic.com") ==> UriServes(Some(uri), AnthropicMessages) && UriServes(Some(uri), ChatCompletions)
    ensures var uri := prefix + "/v1/responses" + Slashes(slashes);
            !Contains(uri, "api.openai.com") && !Contains(uri, "chatgpt.com") ==>
              UriServes(Some(uri), OpenaiResponses) && UriServes(Some(uri), ChatCompletions)
  {
    EndsInPath(prefix, "/v1/messages", slashes);
    EndsInPath(prefix, "/v1/responses", slashes);
  }

  lemma EndsInPath(prefix: string, path: string, slashes: nat)
    requires path != "" && path[|path| - 1] != '/'
    ensures EndsWith(TrimRight(prefix + path + Slashes(slashes), '/'), path)
  {
    var uri := prefix + path;
    TrimsTrailing(uri, slashes);
    assert uri[|uri| - 1] == path[|path| - 1];
    assert uri[|uri| - |path|..] == path;
  }

  /** On the vendors' own hosts the wire's word anywhere in the URI is what it takes. */
  lemma VendorPathServes(a: string, b: string, c: string)
    ensures UriServes(Some(a + "api.anthropic.com" + (b + "/messages" + c)), AnthropicMessages)
    ensures UriServes(Some(a + "api.openai.com" + (b + "/responses" + c)), OpenaiResponses)
    ensures UriServes(Some(a + "chatgpt.com" + (b + "/responses" + c)), OpenaiResponses)
  {
    WordAfterHost(a, "api.anthropic.com", b, "/messages", c);
    WordAfterHost(a, "api.openai.com", b, "/responses", c);
    WordAfterHost(a, "chatgpt.com", b, "/responses", c);
  }

  lemma WordAfterHost(a: string, host: string, b: string, word: string, c: string)
    requires host != ""
    ensures var uri := a + host + (b + word + c); uri != "" && Contains(uri, host) && Contains(uri, word)
  {
    var uri := a + host + (b + word + c);
    ContainsMiddle(a, host, b + word + c);
    assert uri == (a + host + b) + word + c;
    ContainsMiddle(a + host + b, word, c);
  }

  /** A chat path anywhere serves chat, unless the URI is a Responses one; nothing stored serves the last wire. */
  lemma ChatPathServes(a: string, b: string)
    ensures var uri := a + "/chat/completions" + b;
            && UriServes(Some(uri), SystemOne) == false
            && (!Contains(uri, "/openai/responses") ==> UriServes(Some(uri), ChatCompletions))
    ensures var uri := a + "/openai/responses" + b;
            !Contains(uri, "api.openai.com") && !Contains(uri, "chatgpt.com") ==> UriServes(Some(uri), OpenaiResponses)
  {
    ContainsMiddle(a, "/chat/completions", b);
    ContainsMiddle(a, "/openai/responses", b);
  }

  /** A vendor's URI without the wire's word does not serve it. */
  lemma VendorNeedsItsWord(uri: string)
    ensures Contains(uri, "api.anthropic.com") && !Contains(uri, "/messages") ==> !UriServes(Some(uri), AnthropicMessages)
    ensures (Contains(uri, "api.openai.com") || Contains(uri, "chatgpt.com")) && !Contains(uri, "/responses") ==>
              !UriServes(Some(uri), OpenaiResponses)
    ensures !UriServes(None, AnthropicMessages) && !UriServes(Some(""), AnthropicMessages)
  {
  }
}
