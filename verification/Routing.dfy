/**
 Where a request for a model goes, and which models a harness is offered: two
 independent paths over the same rows, which agree.
*/
module Routing {
  import opened Wrappers
  import opened Text

  // ----- Rows -----

  datatype Wire = AnthropicMessages | OpenaiResponses | ChatCompletions | SystemOne

  datatype Provider = Provider(
    enabled: bool,
    baseUrl: string,
    messagesPath: Option<string>,
    responsesPath: Option<string>,
    chatPath: Option<string>,
    systemOnePath: Option<string>,
    apiVersion: Option<string>
  ) {
    function PathFor(wire: Wire): Option<string> {
      match wire
      case AnthropicMessages => messagesPath
      case OpenaiResponses => responsesPath
      case ChatCompletions => chatPath
      case SystemOne => systemOnePath
    }
  }

  /** A model row; `secret` is what its credential resolves to, if it does. */
  datatype Model = Model(
    name: string,
    targetUri: Option<string>,
    provider: Option<Provider>,
    harnesses: Option<string>,
    enabled: bool,
    adminOnly: bool,
    contextWindow: Option<nat>,
    secret: Option<string>,
    apiVersion: Option<string>
  ) {
    /** The harnesses named; where none is, nobody is kept out. */
    function AllowedHarnesses(): set<string> {
      set part | part in Split(harnesses.GetOr(""), ',') && Lower(Strip(part)) != "" :: Lower(Strip(part))
    }

    predicate VisibleTo(harness: string) {
      AllowedHarnesses() == {} || Lower(Strip(harness)) in AllowedHarnesses()
    }
  }

  predicate Given(value: Option<string>) {
    value.GetOr("") != ""
  }

  // ----- What a URI speaks -----

  predicate IsAnthropicMessages(uri: string) {
    if Contains(uri, "api.anthropic.com") then Contains(uri, "/messages")
    else (Contains(uri, "/anthropic/") && Contains(uri, "/messages")) || EndsWith(TrimRight(uri, '/'), "/v1/messages")
  }

  predicate IsOpenaiResponses(uri: string) {
    if Contains(uri, "api.openai.com") || Contains(uri, "chatgpt.com") then Contains(uri, "/responses")
    else Contains(uri, "/openai/responses") || EndsWith(TrimRight(uri, '/'), "/v1/responses")
  }

  predicate IsNativeChat(uri: string) {
    Contains(uri, "/chat/completions") && !Contains(uri, "/openai/responses")
  }

  predicate SpeaksAnyChat(uri: string) {
    IsOpenaiResponses(uri) || IsNativeChat(uri) || IsAnthropicMessages(uri)
  }

  /** The wires a URI of its own lets a row serve. */
  predicate UriServes(uri: Option<string>, wire: Wire) {
    Given(uri) &&
    match wire
    case AnthropicMessages => IsAnthropicMessages(uri.value)
    case OpenaiResponses => IsOpenaiResponses(uri.value)
    case ChatCompletions => SpeaksAnyChat(uri.value)
    case SystemOne => false
  }

  /** The guard each route puts after resolution. */
  predicate GuardAccepts(uri: string, wire: Wire)
    requires wire != SystemOne
  {
    match wire
    case AnthropicMessages => IsAnthropicMessages(uri)
    case OpenaiResponses => IsOpenaiResponses(uri)
    case ChatCompletions => SpeaksAnyChat(uri)
  }

  // ----- Where a request goes -----

  function Either(a: Option<string>, b: Option<string>): Option<string> {
    if Given(a) then a else b
  }

  /** The provider's path for a wire; a request that names no wire takes the first path served. */
  function ProviderPath(provider: Provider, wire: Option<Wire>): Option<string> {
    if wire.None? then Either(Either(provider.messagesPath, provider.responsesPath), provider.chatPath)
    else if provider.PathFor(wire.value).Some? then provider.PathFor(wire.value)
    else if wire == Some(ChatCompletions) then Either(provider.responsesPath, provider.messagesPath)
    else None
  }

  function JoinUri(base: string, path: string): string {
    TrimRight(base, '/') + "/" + TrimLeft(path, '/')
  }

  function TargetUri(row: Model, wire: Option<Wire>): Option<string> {
    if row.provider.None? then row.targetUri
    else if !row.provider.value.enabled then None
    else
      var path := ProviderPath(row.provider.value, wire);
      if path.None? then None else Some(JoinUri(row.provider.value.baseUrl, path.value))
  }

  method ResolveTargetUri(row: Model, wire: Option<Wire>) returns (uri: Option<string>)
    ensures uri == TargetUri(row, wire)
  {
    if row.provider.None? {
      return row.targetUri;
    }
    var provider := row.provider.value;
    if !provider.enabled {
      return None;
    }
    var path := if wire.Some? then provider.PathFor(wire.value) else None;
    if path.None? && wire.Some? {
      if wire == Some(ChatCompletions) {
        path := Either(provider.responsesPath, provider.messagesPath);
      }
      if path.None? {
        return None;
      }
    }
    if path.None? {
      path := Either(Either(provider.messagesPath, provider.responsesPath), provider.chatPath);
    }
    if path.None? {
      return None;
    }
    return Some(JoinUri(provider.baseUrl, path.value));
  }

  // ----- Who is asking -----

  const ALL_WIRES: seq<Wire> := [AnthropicMessages, OpenaiResponses, ChatCompletions]

  function HarnessForWire(wire: Option<Wire>): Option<string> {
    match wire
    case Some(AnthropicMessages) => Some("claude")
    case Some(OpenaiResponses) => Some("codex")
    case Some(ChatCompletions) => Some("codex")
    case _ => None
  }

  function HarnessWires(harness: string): set<Wire> {
    if harness == "claude" then {AnthropicMessages}
    else if harness == "codex" then {OpenaiResponses, ChatCompletions}
    else if harness == "dsh" then {ChatCompletions}
    else if harness == "hermes" then {AnthropicMessages, OpenaiResponses, ChatCompletions}
    else {}
  }

  predicate IsHarness(harness: string) {
    harness in {"claude", "codex", "dsh", "hermes"}
  }

  /** The harnesses that say who they are in a header. */
  const DECLARED: set<string> := {"dsh"}

  /** Whose visibility decides for a request: the declared harness, or the wire's usual one. */
  function JudgedHarness(wire: Option<Wire>, declared: Option<string>): Option<string> {
    var name := Lower(Strip(declared.GetOr("")));
    if name in DECLARED && wire.Some? && wire.value in HarnessWires(name) then Some(name) else HarnessForWire(wire)
  }

  // ----- Resolution -----

  /** Where a request is posted, with what. */
  datatype Target = Target(uri: string, secret: string, apiVersion: Option<string>) {
    function UpstreamUrl(): string {
      WithVersion(uri, apiVersion)
    }
  }

  function WithVersion(uri: string, version: Option<string>): string {
    if !Given(version) then uri else uri + (if '?' in uri then "&" else "?") + "api-version=" + version.value
  }

  /** The row's own version, else the one its provider lends it. */
  function EffectiveVersion(row: Model): Option<string> {
    if Given(row.apiVersion) then row.apiVersion
    else if row.provider.Some? && row.provider.value.enabled then row.provider.value.apiVersion
    else None
  }

  /** The URL that requests for a model go to on a wire. */
  function PostedUrl(row: Model, wire: Option<Wire>): Option<string> {
    var uri := TargetUri(row, wire);
    if !Given(uri) then None else Some(WithVersion(uri.value, EffectiveVersion(row)))
  }

  datatype Refusal = MissingName | NotRegistered | NoUri | NoCredential

  /** The enabled row of a name; names are unique, so at most one. */
  function RowOf(rows: seq<Model>, name: string): Option<Model> {
    if rows == [] then None
    else if rows[0].name == name && rows[0].enabled then Some(rows[0])
    else RowOf(rows[1..], name)
  }

  predicate HiddenFrom(row: Model, wire: Option<Wire>, declared: Option<string>) {
    var harness := JudgedHarness(wire, declared);
    harness.Some? && !row.VisibleTo(harness.value)
  }

  /** What a request is sent with, or why it is refused. */
  function Resolve(rows: seq<Model>, name: string, isAdmin: bool, wire: Option<Wire>, declared: Option<string>):
    Result<Target, Refusal>
  {
    var row := RowOf(rows, name);
    if name == "" then Err(MissingName)
    else if row.None? || (row.value.adminOnly && !isAdmin) || HiddenFrom(row.value, wire, declared) then Err(NotRegistered)
    else
      var uri := TargetUri(row.value, wire);
      if !Given(uri) then Err(NoUri)
      else if row.value.secret.None? then Err(NoCredential)
      else Ok(Target(uri.value, row.value.secret.value, EffectiveVersion(row.value)))
  }

  method ResolveDeployment(rows: seq<Model>, name: string, isAdmin: bool, wire: Option<Wire>, declared: Option<string>)
    returns (target: Result<Target, Refusal>)
    ensures target == Resolve(rows, name, isAdmin, wire, declared)
  {
    if name == "" {
      return Err(MissingName);
    }
    var at := 0;
    while at < |rows| && !(rows[at].name == name && rows[at].enabled)
      invariant 0 <= at <= |rows|
      invariant RowOf(rows, name) == RowOf(rows[at..], name)
    {
      at := at + 1;
    }
    if at == |rows| {
      return Err(NotRegistered);
    }
    var row := rows[at];
    if row.adminOnly && !isAdmin {
      return Err(NotRegistered);
    }
    var harness := JudgedHarness(wire, declared);
    if harness.Some? && !row.VisibleTo(harness.value) {
      return Err(NotRegistered);
    }
    var uri := ResolveTargetUri(row, wire);
    if !Given(uri) {
      return Err(NoUri);
    }
    if row.secret.None? {
      return Err(NoCredential);
    }
    var lent := if row.provider.Some? && row.provider.value.enabled then row.provider.value.apiVersion else None;
    return Ok(Target(uri.value, row.secret.value, if Given(row.apiVersion) then row.apiVersion else lent));
  }

  // ----- The listing -----

  /** Every wire this model can be reached on, whoever asks. */
  method WiresFor(row: Model) returns (served: seq<Wire>)
    ensures forall w :: w in served <==> Serves(row, w)
  {
    served := [];
    for i := 0 to |ALL_WIRES|
      invariant forall w :: w in served <==> w in ALL_WIRES[..i] && Serves(row, w)
    {
      var wire := ALL_WIRES[i];
      var uri := ResolveTargetUri(row, Some(wire));
      if !Given(uri) {
        continue;
      }
      if row.provider.None? && !UriServes(uri, wire) {
        continue;
      }
      served := served + [wire];
    }
  }

  predicate Serves(row: Model, wire: Wire) {
    && wire in ALL_WIRES
    && Given(TargetUri(row, Some(wire)))
    && (row.provider.None? ==> UriServes(TargetUri(row, Some(wire)), wire))
  }

  /** Codex is not offered the Anthropic stand-in on the chat wire. */
  predicate OfferableTo(row: Model, wire: Wire, harness: string) {
    wire != ChatCompletions || harness != "codex" ||
    !IsAnthropicMessages(TargetUri(row, Some(wire)).GetOr(""))
  }

  predicate Offered(row: Model, wire: Wire, harness: Option<string>) {
    && Serves(row, wire)
    && match harness
       case None => true
       case Some(h) =>
         && wire in HarnessWires(h)
         && row.VisibleTo(JudgedHarness(Some(wire), Some(h)).GetOr(h))
         && OfferableTo(row, wire, h)
  }

  datatype Listed = Listed(id: string, wires: seq<Wire>)

  /** The rows of a listing: each offers exactly the wires offered, and none is left out that offers any. */
  method ListingFor(rows: seq<Model>, harness: Option<string>, isAdmin: bool) returns (data: Option<seq<Listed>>)
    ensures data.None? <==> harness.Some? && !IsHarness(harness.value)
    ensures data.Some? ==>
              forall id, w :: ListedOn(data.value, id, w) <==> RowListed(rows, id, w, harness, isAdmin)
  {
    if harness.Some? && !IsHarness(harness.value) {
      return None;
    }
    var listed: seq<Listed> := [];
    for i := 0 to |rows|
      invariant forall id, w :: ListedOn(listed, id, w) <==> RowListed(rows[..i], id, w, harness, isAdmin)
    {
      var row := rows[i];
      RowListedSnoc(rows, i, harness, isAdmin);
      if !row.enabled || (row.adminOnly && !isAdmin) {
        continue;
      }
      var served := WiresFor(row);
      var wires := Narrow(row, served, harness);
      if wires == [] {
        assert forall w :: w !in wires;
        continue;
      }
      if row.contextWindow.GetOr(0) == 0 {
        continue;
      }
      ListedSnoc(listed, Listed(row.name, wires));
      listed := listed + [Listed(row.name, wires)];
    }
    assert rows[..|rows|] == rows;
    return Some(listed);
  }

  /** The wires the asker speaks and is offered. */
  method Narrow(row: Model, served: seq<Wire>, harness: Option<string>) returns (wires: seq<Wire>)
    requires forall w :: w in served <==> Serves(row, w)
    ensures forall w :: w in wires <==> Offered(row, w, harness)
  {
    wires := [];
    for i := 0 to |served|
      invariant forall w :: w in wires <==> w in served[..i] && Offered(row, w, harness)
    {
      var wire := served[i];
      if harness.Some? {
        var h := harness.value;
        if wire !in HarnessWires(h)
           || !row.VisibleTo(JudgedHarness(Some(wire), Some(h)).GetOr(h))
           || !OfferableTo(row, wire, h)
        {
          continue;
        }
      }
      wires := wires + [wire];
    }
  }

  predicate ListedOn(listed: seq<Listed>, id: string, wire: Wire) {
    exists i | 0 <= i < |listed| :: listed[i].id == id && wire in listed[i].wires
  }

  predicate RowLists(row: Model, id: string, wire: Wire, harness: Option<string>, isAdmin: bool) {
    && row.name == id && row.enabled && (row.adminOnly ==> isAdmin)
    && row.contextWindow.GetOr(0) != 0
    && Offered(row, wire, harness)
  }

  predicate RowListed(rows: seq<Model>, id: string, wire: Wire, harness: Option<string>, isAdmin: bool) {
    exists i | 0 <= i < |rows| :: RowLists(rows[i], id, wire, harness, isAdmin)
  }

  lemma RowListedSnoc(rows: seq<Model>, i: nat, harness: Option<string>, isAdmin: bool)
    requires i < |rows|
    ensures forall id, w :: RowListed(rows[..i + 1], id, w, harness, isAdmin) <==>
                            RowListed(rows[..i], id, w, harness, isAdmin) || RowLists(rows[i], id, w, harness, isAdmin)
  {
    forall id, w
      ensures RowListed(rows[..i + 1], id, w, harness, isAdmin) <==>
              RowListed(rows[..i], id, w, harness, isAdmin) || RowLists(rows[i], id, w, harness, isAdmin)
    {
      assert rows[..i + 1][i] == rows[i];
      forall j | 0 <= j < i ensures rows[..i + 1][j] == rows[..i][j] {
      }
    }
  }

  lemma ListedSnoc(listed: seq<Listed>, last: Listed)
    ensures forall id, w :: ListedOn(listed + [last], id, w) <==> ListedOn(listed, id, w) || (last.id == id && w in last.wires)
  {
    forall id, w
      ensures ListedOn(listed + [last], id, w) <==> ListedOn(listed, id, w) || (last.id == id && w in last.wires)
    {
      var all := listed + [last];
      assert all[|listed|] == last;
      forall j | 0 <= j < |listed| ensures all[j] == listed[j] {
      }
    }
  }

  // ----- The two paths agree -----

  /** Deployment names are unique among the rows. */
  ghost predicate UniqueNames(rows: seq<Model>) {
    forall i, j | 0 <= i < j < |rows| :: rows[i].name != rows[j].name
  }

  /** A harness that declares itself sends its own name; any other sends no declared harness's. */
  predicate SendsHeader(harness: string, declared: Option<string>) {
    if harness in DECLARED then declared == Some(harness)
    else Lower(Strip(declared.GetOr(""))) !in DECLARED
  }

  lemma DshIsItsOwnName()
    ensures Lower(Strip("dsh")) == "dsh"
  {
    assert StripLeft("dsh") == "dsh";
    assert StripRight("dsh") == "dsh";
    assert LowerChar('d') == 'd' && LowerChar('s') == 's' && LowerChar('h') == 'h';
  }

  lemma OthersAreNotDeclared(harness: string)
    requires IsHarness(harness) && harness != "dsh"
    ensures Lower(Strip(harness)) !in DECLARED
  {
    var first := harness[0];
    assert first == 'c' || first == 'h';
    assert !IsSpace(first);
    assert StripLeft(harness) == harness;
    assert !IsSpace(harness[|harness| - 1]);
    assert StripRight(harness) == harness;
    assert Lower(harness)[0] == first;
  }

  /** Listing and request agree on whose visibility decides. */
  lemma JudgedAlike(harness: string, wire: Wire, declared: Option<string>)
    requires IsHarness(harness) && wire in HarnessWires(harness) && SendsHeader(harness, declared)
    ensures JudgedHarness(Some(wire), declared).Some?
    ensures JudgedHarness(Some(wire), Some(harness)) == JudgedHarness(Some(wire), declared)
  {
    DshIsItsOwnName();
    if harness != "dsh" {
      OthersAreNotDeclared(harness);
    }
  }

  lemma UniqueRow(rows: seq<Model>, row: Model)
    requires UniqueNames(rows) && row in rows
    ensures RowOf(rows, row.name) == if row.enabled then Some(row) else None
    ensures forall i | 0 <= i < |rows| :: rows[i].name == row.name ==> rows[i] == row
  {
    var at :| 0 <= at < |rows| && rows[at] == row;
    forall i | 0 <= i < |rows| && rows[i].name == row.name ensures i == at {
    }
    SkipsOthers(rows, at);
  }

  lemma {:induction false} SkipsOthers(rows: seq<Model>, at: nat)
    requires at < |rows|
    requires forall i | 0 <= i < |rows| :: rows[i].name == rows[at].name ==> i == at
    ensures RowOf(rows, rows[at].name) == if rows[at].enabled then Some(rows[at]) else None
  {
    if at == 0 {
      NoSuchRow(rows[1..], rows[0].name);
    } else {
      assert rows[0].name != rows[at].name;
      forall i | 0 <= i < |rows[1..]| && rows[1..][i].name == rows[1..][at - 1].name ensures i == at - 1 {
        assert rows[i + 1].name == rows[at].name;
      }
      SkipsOthers(rows[1..], at - 1);
    }
  }

  lemma {:induction false} NoSuchRow(rows: seq<Model>, name: string)
    requires forall i | 0 <= i < |rows| :: rows[i].name != name
    ensures RowOf(rows, name).None?
  {
    if rows != [] {
      NoSuchRow(rows[1..], name);
    }
  }

  /** The Anthropic stand-in for the chat wire, which Codex is not offered. */
  predicate WithheldStandIn(uri: string, wire: Wire, harness: string) {
    harness == "codex" && wire == ChatCompletions && IsAnthropicMessages(uri)
  }

  /**
   * A model with a context window is listed on a wire exactly when a request
   * of that harness resolves on it up to its secret, the route's guard takes
   * the URI of a row without a provider, and it is not the withheld stand-in.
   */
  lemma ListingAgreesWithResolution(rows: seq<Model>, row: Model, harness: string, isAdmin: bool, wire: Wire,
                                    declared: Option<string>)
    requires UniqueNames(rows) && row in rows && row.name != "" && row.contextWindow.GetOr(0) != 0
    requires IsHarness(harness) && wire in HarnessWires(harness) && SendsHeader(harness, declared)
    ensures var r, uri := Resolve(rows, row.name, isAdmin, Some(wire), declared), TargetUri(row, Some(wire)).GetOr("");
            && (RowListed(rows, row.name, wire, Some(harness), isAdmin) <==>
                && (r.Ok? || r == Err(NoCredential))
                && (row.provider.None? ==> GuardAccepts(uri, wire))
                && !WithheldStandIn(uri, wire, harness))
            && (r.Ok? ==> r.value.uri == uri && PostedUrl(row, Some(wire)) == Some(r.value.UpstreamUrl()))
  {
    UniqueRow(rows, row);
    JudgedAlike(harness, wire, declared);
    assert wire in ALL_WIRES;
    assert RowListed(rows, row.name, wire, Some(harness), isAdmin) <==> RowLists(row, row.name, wire, Some(harness), isAdmin);
  }

  /**
   * Once a provider is disabled no request on any wire reaches its models and
   * no listing offers them, whatever URI they had of their own.
   */
  lemma DisabledProviderTakesItsModels(rows: seq<Model>, row: Model, isAdmin: bool, wire: Wire,
                                       declared: Option<string>, harness: Option<string>)
    requires UniqueNames(rows) && row in rows && row.provider.Some? && !row.provider.value.enabled
    ensures Resolve(rows, row.name, isAdmin, Some(wire), declared).Err?
    ensures !RowListed(rows, row.name, wire, harness, isAdmin)
  {
    UniqueRow(rows, row);
    forall i | 0 <= i < |rows| ensures !RowLists(rows[i], row.name, wire, harness, isAdmin) {
      if rows[i].name == row.name {
        assert rows[i] == row;
      }
    }
  }

  /** What a row stored before it got a provider does not matter to either path. */
  lemma ProviderHidesStoredUri(row: Model, stored: Option<string>, wire: Option<Wire>)
    requires row.provider.Some?
    ensures TargetUri(row.(targetUri := stored), wire) == TargetUri(row, wire)
    ensures PostedUrl(row.(targetUri := stored), wire) == PostedUrl(row, wire)
  {
  }

  /** However many slashes end the base and start the path, one joins them. */
  lemma {:induction false} OneSlashJoins(base: string, path: string, trailing: nat, leading: nat)
    ensures JoinUri(base + Slashes(trailing), Slashes(leading) + path) == JoinUri(base, path)
  {
    TrimsTrailing(base, trailing);
    TrimsLeading(path, leading);
  }

  function Slashes(n: nat): string {
    seq(n, i => '/')
  }

  lemma {:induction false} TrimsTrailing(base: string, n: nat)
    ensures TrimRight(base + Slashes(n), '/') == TrimRight(base, '/')
  {
    if n == 0 {
      assert base + Slashes(n) == base;
    } else {
      TrimsTrailing(base, n - 1);
      assert base + Slashes(n) == base + Slashes(n - 1) + "/";
    }
  }

  lemma {:induction false} TrimsLeading(path: string, n: nat)
    ensures TrimLeft(Slashes(n) + path, '/') == TrimLeft(path, '/')
  {
    if n == 0 {
      assert Slashes(n) + path == path;
    } else {
      TrimsLeading(path, n - 1);
      assert Slashes(n) + path == "/" + (Slashes(n - 1) + path);
      assert ("/" + (Slashes(n - 1) + path))[1..] == Slashes(n - 1) + path;
    }
  }

  /** A chat request to a provider without a chat path is served by its Responses path, or failing that its Messages path. */
  lemma ChatFallsBackInOrder(row: Model)
    requires row.provider.Some? && row.provider.value.enabled && row.provider.value.chatPath.None?
    ensures var chat := TargetUri(row, Some(ChatCompletions));
            && (Given(row.provider.value.responsesPath) ==> chat == TargetUri(row, Some(OpenaiResponses)))
            && (!Given(row.provider.value.responsesPath) ==> chat == TargetUri(row, Some(AnthropicMessages)))
  {
  }
}
