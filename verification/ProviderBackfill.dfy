/**
 The migration that groups existing models into providers by host and
 credential, gives every provider a fresh name, and leaves alone the models
 whose routes it cannot classify.
*/
module ProviderBackfill {
  import opened Wrappers
  import opened Text
  import Routing

  /** A stored target URI, split; `rest` is its query and fragment with their leading marks. */
  datatype Uri = Uri(scheme: string, host: string, path: string, rest: string) {
    function Text(): string {
      (if scheme == "" then "//" else scheme + "://") + host + path + rest
    }

    /** What splitting a URI with a host guarantees of its parts. */
    predicate Split() {
      && host != "" && (forall i | 0 <= i < |scheme| :: scheme[i] != ':' && !IsMark(scheme[i]))
      && (forall i | 0 <= i < |host| :: host[i] != '/' && !IsMark(host[i]))
      && (path == "" || path[0] == '/') && (forall i | 0 <= i < |path| :: !IsMark(path[i]))
      && (rest == "" || IsMark(rest[0]))
    }
  }

  predicate IsMark(c: char) {
    c == '?' || c == '#'
  }

  datatype Row = Row(id: int, uri: Uri, credential: Option<int>, apiVersion: Option<string>, authScheme: string)

  /** What makes two models one provider. */
  datatype Key = Key(base: string, credential: Option<int>)

  datatype Shape = Messages | Responses | ChatCompletions

  datatype Provider = Provider(
    name: string,
    key: Key,
    paths: map<Shape, string>,
    apiVersion: Option<string>,
    authScheme: string
  )

  const ANTHROPIC_HOST := "api.anthropic.com"
  const CODEX_HOST := "chatgpt.com"

  function BaseOf(uri: Uri): string {
    uri.scheme + "://" + uri.host
  }

  function KeyOf(row: Row): Key {
    Key(BaseOf(row.uri), row.credential)
  }

  function ShapeOf(path: string): Option<Shape> {
    var tail := TrimRight(path, '/');
    if EndsWith(tail, "/messages") then Some(Messages)
    else if EndsWith(tail, "/responses") then Some(Responses)
    else if EndsWith(tail, "/chat/completions") then Some(ChatCompletions)
    else None
  }

  function LocalPath(shape: Shape): string {
    match shape
    case Messages => "/v1/messages"
    case Responses => "/v1/responses"
    case ChatCompletions => "/v1/chat/completions"
  }

  // ----- A fresh name -----

  function BaseName(host: string): string {
    if host == ANTHROPIC_HOST then "anthropic"
    else if host == CODEX_HOST then "openai"
    else if EndsWith(host, ":11434") then "ollama"
    else seq(|host|, i requires 0 <= i < |host| => if host[i] == '.' || host[i] == ':' then '-' else host[i])
  }

  /** The names tried for a base, in order: itself, then with suffixes 2, 3, ... */
  function Candidate(base: string, k: nat): string {
    if k == 0 then base else base + "-" + Decimal(k + 1)
  }

  lemma CandidatesDiffer(base: string, j: nat, k: nat)
    requires j != k
    ensures Candidate(base, j) != Candidate(base, k)
  {
    CandidateTail(base, j);
    CandidateTail(base, k);
  }

  lemma CandidateTail(base: string, k: nat)
    ensures k == 0 ==> Candidate(base, k) == base
    ensures k > 0 ==>
              && |Candidate(base, k)| > |base|
              && Candidate(base, k)[|base| + 1..] == Decimal(k + 1)
              && DigitsValue(Decimal(k + 1)) == k + 1
  {
    if k > 0 {
      var prefix, digits := base + "-", Decimal(k + 1);
      assert Candidate(base, k) == prefix + digits;
      assert (prefix + digits)[|prefix|..] == digits;
      DecimalReadsBack(k + 1);
    }
  }

  predicate AllTaken(base: string, k: nat, taken: set<string>) {
    forall j | 0 <= j < k :: Candidate(base, j) in taken
  }

  /** The first of a host's candidates that is not taken. */
  ghost predicate FirstFree(host: string, taken: set<string>, name: string) {
    && name !in taken
    && exists k: nat :: name == Candidate(BaseName(host), k) && AllTaken(BaseName(host), k, taken)
  }

  /** The search ends for every finite set of taken names, at the first candidate not taken. */
  method ProviderName(host: string, taken: set<string>) returns (name: string, taken': set<string>)
    ensures name !in taken && taken' == taken + {name}
    ensures FirstFree(host, taken, name)
  {
    var base := BaseName(host);
    var suffix := 2;
    name := base;
    ghost var k: nat := 0;
    ghost var tried: set<string> := {};
    while name in taken
      invariant name == Candidate(base, k) && suffix == k + 2
      invariant tried <= taken && forall j | 0 <= j < k :: Candidate(base, j) in tried
      invariant forall t | t in tried :: exists j | 0 <= j < k :: t == Candidate(base, j)
      decreases taken - tried
    {
      forall j | 0 <= j < k ensures Candidate(base, j) != name {
        CandidatesDiffer(base, j, k);
      }
      tried := tried + {name};
      k := k + 1;
      name, suffix := base + "-" + Decimal(suffix), suffix + 1;
    }
    taken' := taken + {name};
  }

  // ----- Grouping -----

  /** Rows with a host take part; the others are not looked at. */
  predicate Eligible(row: Row) {
    row.uri.host != ""
  }

  datatype Group = Group(host: string, paths: map<Shape, string>, models: seq<int>, apiVersion: Option<string>, authScheme: string)

  predicate Belongs(row: Row, key: Key) {
    Eligible(row) && KeyOf(row) == key
  }

  /** A group with one more row: the first path of each shape is kept. */
  function Extend(group: Group, row: Row): Group {
    var shape := ShapeOf(row.uri.path);
    var paths := if shape.Some? && shape.value !in group.paths then group.paths[shape.value := row.uri.path] else group.paths;
    group.(paths := paths, models := group.models + [row.id])
  }

  function NewGroup(row: Row): Group {
    Group(row.uri.host, map[], [], row.apiVersion, row.authScheme)
  }

  function GroupAt(rows: seq<Row>, key: Key): Option<Group> {
    if rows == [] then None
    else
      var n := |rows| - 1;
      var before := GroupAt(rows[..n], key);
      if Belongs(rows[n], key) then Some(Extend(before.GetOr(NewGroup(rows[n])), rows[n])) else before
  }

  ghost predicate Distinct<T(!new)>(s: seq<T>) {
    forall i, j | 0 <= i < j < |s| :: s[i] != s[j]
  }

  ghost predicate Grouped(rows: seq<Row>, order: seq<Key>, groups: map<Key, Group>) {
    && Distinct(order)
    && (forall key :: key in order <==> key in groups)
    && (forall key :: Lookup(groups, key) == GroupAt(rows, key))
  }

  /** The dictionary of groups, in order of first appearance. */
  method GroupRows(rows: seq<Row>) returns (order: seq<Key>, groups: map<Key, Group>)
    ensures Grouped(rows, order, groups)
  {
    order, groups := [], map[];
    for i := 0 to |rows|
      invariant Grouped(rows[..i], order, groups)
    {
      var row := rows[i];
      assert rows[..i + 1][..i] == rows[..i];
      if !Eligible(row) {
        continue;
      }
      var key := KeyOf(row);
      ghost var order0, groups0 := order, groups;
      var group := if key in groups then groups[key] else NewGroup(row);
      var shape := ShapeOf(row.uri.path);
      if shape.Some? && shape.value !in group.paths {
        group := group.(paths := group.paths[shape.value := row.uri.path]);
      }
      if key !in groups {
        order := order + [key];
      }
      group := group.(models := group.models + [row.id]);
      groups := groups[key := group];
      GroupedStep(rows, i, order0, groups0, order, groups);
    }
    assert rows[..|rows|] == rows;
  }

  lemma GroupedStep(rows: seq<Row>, i: nat, order: seq<Key>, groups: map<Key, Group>,
                    order': seq<Key>, groups': map<Key, Group>)
    requires i < |rows| && Eligible(rows[i]) && Grouped(rows[..i], order, groups)
    requires var key := KeyOf(rows[i]);
             && order' == (if key in groups then order else order + [key])
             && groups' == groups[key := Extend(Lookup(groups, key).GetOr(NewGroup(rows[i])), rows[i])]
    ensures Grouped(rows[..i + 1], order', groups')
  {
    assert rows[..i + 1][..i] == rows[..i];
    forall key ensures Lookup(groups', key) == GroupAt(rows[..i + 1], key) {
      assert Lookup(groups, key) == GroupAt(rows[..i], key);
    }
  }

  // ----- What a group holds -----

  /** The first stored path of a shape among a key's rows. */
  function FirstPath(rows: seq<Row>, key: Key, shape: Shape): Option<string> {
    if rows == [] then None
    else
      var n := |rows| - 1;
      var before := FirstPath(rows[..n], key, shape);
      if before.Some? then before
      else if Belongs(rows[n], key) && ShapeOf(rows[n].uri.path) == Some(shape) then Some(rows[n].uri.path)
      else None
  }

  /** A key some of whose rows have a route this migration can classify. */
  ghost predicate Classified(rows: seq<Row>, key: Key) {
    exists i | 0 <= i < |rows| :: Belongs(rows[i], key) && ShapeOf(rows[i].uri.path).Some?
  }

  ghost predicate IsModelOf(rows: seq<Row>, key: Key, id: int) {
    exists i | 0 <= i < |rows| :: Belongs(rows[i], key) && rows[i].id == id
  }

  lemma IsModelOfSnoc(rows: seq<Row>, key: Key, id: int)
    requires rows != []
    ensures var n := |rows| - 1;
            IsModelOf(rows, key, id) <==> IsModelOf(rows[..n], key, id) || (Belongs(rows[n], key) && rows[n].id == id)
    ensures var n := |rows| - 1;
            Classified(rows, key) <==>
            Classified(rows[..n], key) || (Belongs(rows[n], key) && ShapeOf(rows[n].uri.path).Some?)
  {
    var n := |rows| - 1;
    forall i | 0 <= i < n ensures rows[..n][i] == rows[i] {
    }
  }

  /** The first row of a key: it names the host, the API version and the scheme of the group. */
  function FirstRow(rows: seq<Row>, key: Key): Option<Row> {
    if rows == [] then None
    else
      var n := |rows| - 1;
      var before := FirstRow(rows[..n], key);
      if before.Some? then before else if Belongs(rows[n], key) then Some(rows[n]) else None
  }

  lemma {:induction false} FirstRowBelongs(rows: seq<Row>, key: Key)
    ensures FirstRow(rows, key).Some? <==> exists i | 0 <= i < |rows| :: Belongs(rows[i], key)
    ensures FirstRow(rows, key).Some? ==> FirstRow(rows, key).value in rows && Belongs(FirstRow(rows, key).value, key)
  {
    if rows != [] {
      var n := |rows| - 1;
      FirstRowBelongs(rows[..n], key);
      forall i | 0 <= i < n ensures rows[..n][i] == rows[i] {
      }
    }
  }

  lemma {:induction false} FirstPathIsARows(rows: seq<Row>, key: Key, shape: Shape)
    ensures var path := FirstPath(rows, key, shape);
            path.Some? ==> exists i | 0 <= i < |rows| ::
              Belongs(rows[i], key) && rows[i].uri.path == path.value && ShapeOf(path.value) == Some(shape)
  {
    if rows != [] {
      var n := |rows| - 1;
      FirstPathIsARows(rows[..n], key, shape);
      forall i | 0 <= i < n ensures rows[..n][i] == rows[i] {
      }
    }
  }

  lemma {:induction false} FirstPathExists(rows: seq<Row>, i: nat)
    requires i < |rows| && Eligible(rows[i]) && ShapeOf(rows[i].uri.path).Some?
    ensures FirstPath(rows, KeyOf(rows[i]), ShapeOf(rows[i].uri.path).value).Some?
  {
    var n := |rows| - 1;
    if i < n {
      assert rows[..n][i] == rows[i];
      FirstPathExists(rows[..n], i);
    }
  }

  lemma {:induction false} GroupHolds(rows: seq<Row>, key: Key)
    ensures GroupAt(rows, key).None? <==> FirstRow(rows, key).None?
    ensures GroupAt(rows, key).None? ==> !Classified(rows, key) && forall id :: !IsModelOf(rows, key, id)
    ensures GroupAt(rows, key).None? ==> forall shape :: FirstPath(rows, key, shape).None?
    ensures GroupAt(rows, key).Some? ==>
              var group, first := GroupAt(rows, key).value, FirstRow(rows, key).value;
              && (forall shape :: Lookup(group.paths, shape) == FirstPath(rows, key, shape))
              && (forall id :: id in group.models <==> IsModelOf(rows, key, id))
              && (group.paths != map[] <==> Classified(rows, key))
              && group.host == first.uri.host && group.apiVersion == first.apiVersion
              && group.authScheme == first.authScheme
  {
    if rows != [] {
      var n := |rows| - 1;
      GroupHolds(rows[..n], key);
      forall id ensures IsModelOf(rows, key, id) <==> IsModelOf(rows[..n], key, id) || (Belongs(rows[n], key) && rows[n].id == id) {
        IsModelOfSnoc(rows, key, id);
      }
      IsModelOfSnoc(rows, key, 0);
    }
  }

  // ----- The providers -----

  ghost predicate UniqueIds(rows: seq<Row>) {
    forall i, j | 0 <= i < j < |rows| :: rows[i].id != rows[j].id
  }

  predicate IsVendor(host: string) {
    host == ANTHROPIC_HOST || host == CODEX_HOST
  }

  /** The path a provider stores for a shape: the first its models used, or a local server's standard one. */
  function StoredPath(rows: seq<Row>, key: Key, shape: Shape): Option<string>
    requires FirstRow(rows, key).Some?
  {
    var first := FirstPath(rows, key, shape);
    if first.None? && !IsVendor(FirstRow(rows, key).value.uri.host) then Some(LocalPath(shape)) else first
  }

  ghost predicate Describes(rows: seq<Row>, provider: Provider) {
    && Classified(rows, provider.key)
    && FirstRow(rows, provider.key).Some?
    && var first := FirstRow(rows, provider.key).value;
    && (forall shape :: Lookup(provider.paths, shape) == StoredPath(rows, provider.key, shape))
    && provider.apiVersion == first.apiVersion
    && provider.authScheme == (if first.authScheme == "" then "bearer" else first.authScheme)
  }

  function Names(providers: seq<Provider>): set<string> {
    set i | 0 <= i < |providers| :: providers[i].name
  }

  /** Each provider has the first free name of its host, so no two have the same. */
  ghost predicate WellNamed(rows: seq<Row>, providers: seq<Provider>) {
    forall i | 0 <= i < |providers| ::
      && FirstRow(rows, providers[i].key).Some?
      && FirstFree(FirstRow(rows, providers[i].key).value.uri.host, Names(providers[..i]), providers[i].name)
  }

  ghost predicate Hosted(providers: seq<Provider>, key: Key) {
    exists i | 0 <= i < |providers| :: providers[i].key == key
  }

  /** Every model of a provider's key is attached to it, and no other model to anything. */
  ghost predicate Attached(rows: seq<Row>, providers: seq<Provider>, attached: map<int, nat>) {
    && (forall id | id in attached :: attached[id] < |providers| && IsModelOf(rows, providers[attached[id]].key, id))
    && (forall id, p | 0 <= p < |providers| && IsModelOf(rows, providers[p].key, id) :: Lookup(attached, id) == Some(p))
  }

  ghost predicate Providers(rows: seq<Row>, providers: seq<Provider>, attached: map<int, nat>) {
    && (forall i, j | 0 <= i < j < |providers| :: providers[i].key != providers[j].key)
    && (forall i | 0 <= i < |providers| :: Describes(rows, providers[i]))
    && WellNamed(rows, providers)
    && Attached(rows, providers, attached)
  }

  /** The outcome of the migration: one provider for each key it can classify. */
  ghost predicate Migrated(rows: seq<Row>, providers: seq<Provider>, attached: map<int, nat>) {
    && Providers(rows, providers, attached)
    && forall key :: Hosted(providers, key) <==> Classified(rows, key)
  }

  method FillLocalPaths(paths: map<Shape, string>) returns (filled: map<Shape, string>)
    ensures forall shape :: Lookup(filled, shape) == Some(Lookup(paths, shape).GetOr(LocalPath(shape)))
  {
    filled := paths;
    var shapes := [Messages, Responses, ChatCompletions];
    for i := 0 to |shapes|
      invariant forall shape ::
          Lookup(filled, shape) ==
          if shape in shapes[..i] then Some(Lookup(paths, shape).GetOr(LocalPath(shape))) else Lookup(paths, shape)
    {
      if shapes[i] !in filled {
        filled := filled[shapes[i] := LocalPath(shapes[i])];
      }
    }
    forall shape: Shape ensures shape in shapes[..|shapes|] {
      assert shapes[..|shapes|] == shapes;
      assert shape == match shape case Messages => shapes[0] case Responses => shapes[1] case ChatCompletions => shapes[2];
    }
  }

  method AttachAll(models: seq<int>, provider: nat, attached: map<int, nat>) returns (more: map<int, nat>)
    ensures forall id :: Lookup(more, id) == if id in models then Some(provider) else Lookup(attached, id)
  {
    more := attached;
    for j := 0 to |models|
      invariant forall id :: Lookup(more, id) == if id in models[..j] then Some(provider) else Lookup(attached, id)
    {
      assert models[..j + 1] == models[..j] + [models[j]];
      more := more[models[j] := provider];
    }
    assert models[..|models|] == models;
  }

  method Backfill(rows: seq<Row>) returns (providers: seq<Provider>, attached: map<int, nat>)
    requires UniqueIds(rows)
    ensures Migrated(rows, providers, attached)
  {
    var order, groups := GroupRows(rows);
    var taken: set<string> := {};
    providers, attached := [], map[];
    for i := 0 to |order|
      invariant taken == Names(providers)
      invariant Providers(rows, providers, attached)
      invariant forall key :: Hosted(providers, key) <==> key in order[..i] && Classified(rows, key)
    {
      var key := order[i];
      var group := groups[key];
      GroupIsComplete(rows, order, groups, key);
      if group.paths == map[] {
        continue;
      }
      var paths := group.paths;
      if !IsVendor(group.host) {
        paths := FillLocalPaths(paths);
      }
      var name;
      name, taken := ProviderName(group.host, taken);
      var scheme := if group.authScheme == "" then "bearer" else group.authScheme;
      var provider := Provider(name, key, paths, group.apiVersion, scheme);
      assert !Hosted(providers, key);
      ghost var attached0 := attached;
      attached := AttachAll(group.models, |providers|, attached);
      ProvidersStep(rows, providers, attached0, provider, attached);
      providers := providers + [provider];
    }
    assert order[..|order|] == order;
    OnlyGroupsAreClassified(rows, order, groups);
  }

  lemma GroupIsComplete(rows: seq<Row>, order: seq<Key>, groups: map<Key, Group>, key: Key)
    requires Grouped(rows, order, groups) && key in order
    ensures FirstRow(rows, key).Some?
    ensures var group, first := groups[key], FirstRow(rows, key).value;
            && (forall shape :: Lookup(group.paths, shape) == FirstPath(rows, key, shape))
            && (forall id :: id in group.models <==> IsModelOf(rows, key, id))
            && (group.paths != map[] <==> Classified(rows, key))
            && group.host == first.uri.host && group.apiVersion == first.apiVersion
            && group.authScheme == first.authScheme
  {
    GroupHolds(rows, key);
    assert Lookup(groups, key) == GroupAt(rows, key);
  }

  lemma OnlyGroupsAreClassified(rows: seq<Row>, order: seq<Key>, groups: map<Key, Group>)
    requires Grouped(rows, order, groups)
    ensures forall key | Classified(rows, key) :: key in order
  {
    forall key | Classified(rows, key) ensures key in order {
      GroupHolds(rows, key);
      assert Lookup(groups, key) == GroupAt(rows, key);
    }
  }

  lemma HostedSnoc(providers: seq<Provider>, provider: Provider)
    ensures forall key :: Hosted(providers + [provider], key) <==> Hosted(providers, key) || key == provider.key
    ensures Names(providers + [provider]) == Names(providers) + {provider.name}
  {
    var all := providers + [provider];
    assert all[|providers|] == provider;
    forall i | 0 <= i < |providers| ensures all[i] == providers[i] {
    }
  }

  lemma OneKeyPerModel(rows: seq<Row>, a: Key, b: Key, id: int)
    requires UniqueIds(rows) && IsModelOf(rows, a, id) && IsModelOf(rows, b, id)
    ensures a == b
  {
  }

  lemma ProvidersStep(rows: seq<Row>, providers: seq<Provider>, attached: map<int, nat>, provider: Provider,
                      attached': map<int, nat>)
    requires UniqueIds(rows) && Providers(rows, providers, attached) && !Hosted(providers, provider.key)
    requires Describes(rows, provider)
    requires FirstFree(FirstRow(rows, provider.key).value.uri.host, Names(providers), provider.name)
    requires forall id :: Lookup(attached', id) ==
                          if IsModelOf(rows, provider.key, id) then Some(|providers|) else Lookup(attached, id)
    ensures Providers(rows, providers + [provider], attached')
    ensures forall key :: Hosted(providers + [provider], key) <==> Hosted(providers, key) || key == provider.key
    ensures Names(providers + [provider]) == Names(providers) + {provider.name}
  {
    HostedSnoc(providers, provider);
    WellNamedStep(rows, providers, provider);
    AttachedStep(rows, providers, attached, provider, attached');
    var all := providers + [provider];
    forall i, j | 0 <= i < j < |all| ensures all[i].key != all[j].key {
      assert Hosted(providers, all[i].key);
    }
  }

  lemma WellNamedStep(rows: seq<Row>, providers: seq<Provider>, provider: Provider)
    requires WellNamed(rows, providers) && FirstRow(rows, provider.key).Some?
    requires FirstFree(FirstRow(rows, provider.key).value.uri.host, Names(providers), provider.name)
    ensures WellNamed(rows, providers + [provider])
  {
    var all := providers + [provider];
    forall i | 0 <= i < |all|
      ensures && FirstRow(rows, all[i].key).Some?
              && FirstFree(FirstRow(rows, all[i].key).value.uri.host, Names(all[..i]), all[i].name)
    {
      assert all[..i] == providers[..i];
      assert providers[..|providers|] == providers;
    }
  }

  lemma AttachedStep(rows: seq<Row>, providers: seq<Provider>, attached: map<int, nat>, provider: Provider,
                     attached': map<int, nat>)
    requires UniqueIds(rows) && Attached(rows, providers, attached) && !Hosted(providers, provider.key)
    requires forall id :: Lookup(attached', id) ==
                          if IsModelOf(rows, provider.key, id) then Some(|providers|) else Lookup(attached, id)
    ensures Attached(rows, providers + [provider], attached')
  {
    var all := providers + [provider];
    forall id | id in attached' ensures attached'[id] < |all| && IsModelOf(rows, all[attached'[id]].key, id) {
      assert Lookup(attached', id).Some?;
    }
    forall id, p | 0 <= p < |all| && IsModelOf(rows, all[p].key, id) ensures Lookup(attached', id) == Some(p) {
      if p < |providers| {
        assert all[p] == providers[p] && Lookup(attached, id) == Some(p);
        assert Hosted(providers, all[p].key);
        if IsModelOf(rows, provider.key, id) {
          OneKeyPerModel(rows, provider.key, all[p].key, id);
        }
      }
    }
  }

  // ----- What the migration promises -----

  lemma NamesAreDistinct(rows: seq<Row>, providers: seq<Provider>, attached: map<int, nat>, i: nat, j: nat)
    requires Migrated(rows, providers, attached) && i < j < |providers|
    ensures providers[i].name != providers[j].name
  {
    assert providers[..j][i] == providers[i];
    assert providers[i].name in Names(providers[..j]);
  }

  /** A model is attached exactly when its URI has a host and some model like it has a known route. */
  lemma AttachedIffClassified(rows: seq<Row>, providers: seq<Provider>, attached: map<int, nat>, i: nat)
    requires UniqueIds(rows) && Migrated(rows, providers, attached) && i < |rows|
    ensures rows[i].id in attached <==> Eligible(rows[i]) && Classified(rows, KeyOf(rows[i]))
    ensures rows[i].id in attached ==>
              && attached[rows[i].id] < |providers|
              && providers[attached[rows[i].id]].key == KeyOf(rows[i])
  {
    var row := rows[i];
    if row.id in attached {
      var key := providers[attached[row.id]].key;
      assert IsModelOf(rows, key, row.id);
      assert Belongs(row, key);
      assert Hosted(providers, key);
    }
    if Eligible(row) && Classified(rows, KeyOf(row)) {
      var p :| 0 <= p < |providers| && providers[p].key == KeyOf(row);
      assert Belongs(row, providers[p].key);
      assert IsModelOf(rows, providers[p].key, row.id);
      assert Lookup(attached, row.id) == Some(p);
    }
  }

  /** A URI without a host is left alone, and one with a host and a known route is not. */
  lemma HostAndRouteAreEnough(rows: seq<Row>, providers: seq<Provider>, attached: map<int, nat>, i: nat)
    requires UniqueIds(rows) && Migrated(rows, providers, attached) && i < |rows|
    ensures rows[i].uri.host == "" ==> rows[i].id !in attached
    ensures rows[i].uri.host != "" && ShapeOf(rows[i].uri.path).Some? ==> rows[i].id in attached
  {
    AttachedIffClassified(rows, providers, attached, i);
    if rows[i].uri.host != "" && ShapeOf(rows[i].uri.path).Some? {
      assert Belongs(rows[i], KeyOf(rows[i]));
    }
  }

  /** Two attached models have one provider exactly when scheme, host and credential are the same. */
  lemma SharedIffSameUpstream(rows: seq<Row>, providers: seq<Provider>, attached: map<int, nat>, i: nat, j: nat)
    requires UniqueIds(rows) && Migrated(rows, providers, attached) && i < |rows| && j < |rows|
    requires rows[i].id in attached && rows[j].id in attached
    requires rows[i].uri.Split() && rows[j].uri.Split()
    ensures attached[rows[i].id] == attached[rows[j].id] <==>
            && rows[i].uri.scheme == rows[j].uri.scheme && rows[i].uri.host == rows[j].uri.host
            && rows[i].credential == rows[j].credential
  {
    AttachedIffClassified(rows, providers, attached, i);
    AttachedIffClassified(rows, providers, attached, j);
    BaseNamesHost(rows[i].uri, rows[j].uri);
  }

  lemma SchemeEndsAtColon(uri: Uri)
    requires uri.Split()
    ensures var base, n := BaseOf(uri), |uri.scheme|;
            n < |base| && base[n] == ':' && forall k | 0 <= k < n :: base[k] != ':'
  {
    forall k | 0 <= k < |uri.scheme| ensures BaseOf(uri)[k] != ':' {
      assert BaseOf(uri)[k] == uri.scheme[k];
    }
  }

  lemma BaseNamesHost(a: Uri, b: Uri)
    requires a.Split() && b.Split()
    ensures BaseOf(a) == BaseOf(b) <==> a.scheme == b.scheme && a.host == b.host
  {
    if BaseOf(a) == BaseOf(b) {
      SchemeEndsAtColon(a);
      SchemeEndsAtColon(b);
      var n := |a.scheme|;
      assert BaseOf(a)[..n] == a.scheme && BaseOf(b)[..n] == b.scheme;
      assert BaseOf(a)[n + 3..] == a.host && BaseOf(b)[n + 3..] == b.host;
    }
  }

  // ----- Routes across the migration -----

  function WireOf(shape: Shape): Routing.Wire {
    match shape
    case Messages => Routing.AnthropicMessages
    case Responses => Routing.OpenaiResponses
    case ChatCompletions => Routing.ChatCompletions
  }

  function AsProvider(provider: Provider): Routing.Provider {
    Routing.Provider(true, provider.key.base, Lookup(provider.paths, Messages), Lookup(provider.paths, Responses),
                     Lookup(provider.paths, ChatCompletions), None, provider.apiVersion)
  }

  /** A model as the router sees it before and after the migration. */
  predicate Moves(row: Row, provider: Provider, before: Routing.Model, after: Routing.Model) {
    && before.targetUri == Some(row.uri.Text()) && before.provider.None? && before.apiVersion == row.apiVersion
    && after == before.(provider := Some(AsProvider(provider)))
  }

  /**
   * A model with a known route resolves to the very same URI afterwards, on the
   * wire of that route, exactly when its URI has a scheme, no query, a path
   * with one leading slash, and that path is the one its provider stores, up to
   * leading slashes.
   */
  lemma UriIsKept(rows: seq<Row>, providers: seq<Provider>, attached: map<int, nat>, i: nat, shape: Shape,
                    before: Routing.Model, after: Routing.Model)
    requires UniqueIds(rows) && Migrated(rows, providers, attached) && i < |rows|
    requires forall k | 0 <= k < |rows| && Eligible(rows[k]) :: rows[k].uri.Split()
    requires rows[i].id in attached && attached[rows[i].id] < |providers| && ShapeOf(rows[i].uri.path) == Some(shape)
    requires Moves(rows[i], providers[attached[rows[i].id]], before, after)
    ensures var uri, wire := rows[i].uri, Some(WireOf(shape));
            && FirstPath(rows, KeyOf(rows[i]), shape).Some?
            && (Routing.TargetUri(after, wire) == Routing.TargetUri(before, wire) <==>
                && uri.scheme != "" && uri.rest == "" && !StartsWith(uri.path, "//")
                && TrimLeft(FirstPath(rows, KeyOf(rows[i]), shape).value, '/') == TrimLeft(uri.path, '/'))
  {
    var row := rows[i];
    AttachedIffClassified(rows, providers, attached, i);
    var stored := StoredAtFirst(rows, i, shape, providers[attached[row.id]]);
    RouteAfter(row, providers[attached[row.id]], before, after, shape, stored);
    JoinKeeps(row.uri, stored);
  }

  /** The path stored for the shape of an attached model is that of the first such model. */
  lemma StoredAtFirst(rows: seq<Row>, i: nat, shape: Shape, provider: Provider) returns (stored: string)
    requires forall k | 0 <= k < |rows| && Eligible(rows[k]) :: rows[k].uri.Split()
    requires i < |rows| && Belongs(rows[i], provider.key) && ShapeOf(rows[i].uri.path) == Some(shape)
    requires Describes(rows, provider)
    ensures FirstPath(rows, provider.key, shape) == Some(stored) && Lookup(provider.paths, shape) == Some(stored)
    ensures forall k | 0 <= k < |stored| :: !IsMark(stored[k])
  {
    FirstPathExists(rows, i);
    FirstPathIsARows(rows, provider.key, shape);
    stored := FirstPath(rows, provider.key, shape).value;
    assert StoredPath(rows, provider.key, shape) == Some(stored);
  }

  lemma RouteAfter(row: Row, provider: Provider, before: Routing.Model, after: Routing.Model, shape: Shape, stored: string)
    requires Moves(row, provider, before, after) && Lookup(provider.paths, shape) == Some(stored)
    ensures Routing.TargetUri(before, Some(WireOf(shape))) == Some(row.uri.Text())
    ensures Routing.TargetUri(after, Some(WireOf(shape))) == Some(Routing.JoinUri(provider.key.base, stored))
  {
  }

  lemma JoinKeeps(uri: Uri, stored: string)
    requires uri.Split() && uri.path != "" && forall i | 0 <= i < |stored| :: !IsMark(stored[i])
    ensures Routing.JoinUri(BaseOf(uri), stored) == uri.Text() <==>
            && uri.scheme != "" && uri.rest == "" && !StartsWith(uri.path, "//")
            && TrimLeft(stored, '/') == TrimLeft(uri.path, '/')
  {
    var base, tail := BaseOf(uri), TrimLeft(stored, '/');
    TrimLeftIsSuffix(stored, '/');
    JoinedAfterBase(uri, stored);
    AfterOneSlash(uri.path, uri.rest, tail);
    if uri.scheme != "" {
      assert uri.Text() == base + (uri.path + uri.rest);
      SameAfter(base, "/" + tail, uri.path + uri.rest);
    } else {
      assert base[0] == ':' && uri.Text()[0] == '/';
    }
  }

  /** What is posted after the path: the stored query, and the API version if there is one. */
  function Suffix(rest: string, version: Option<string>): string {
    if !Routing.Given(version) then rest else rest + (if '?' in rest then "&" else "?") + "api-version=" + version.value
  }

  /**
   * The same is posted after the path as before: there was no query, and the
   * model has a version of its own or is lent none; or its query was the very
   * version it is lent now.
   */
  predicate QueryIsKept(rest: string, own: Option<string>, lent: Option<string>) {
    if rest == "" then Routing.Given(own) || !Routing.Given(lent)
    else !Routing.Given(own) && Routing.Given(lent) && rest == "?api-version=" + lent.value
  }

  lemma SuffixesAgree(rest: string, own: Option<string>, lent: Option<string>)
    ensures Suffix(rest, own) == Suffix("", if Routing.Given(own) then own else lent) <==> QueryIsKept(rest, own, lent)
  {
    if Routing.Given(own) {
      var version := "api-version=" + own.value;
      assert |Suffix(rest, own)| == |rest| + 1 + |version|;
      assert |Suffix("", own)| == 1 + |version|;
    } else if Routing.Given(lent) {
      assert Suffix("", lent) == "?api-version=" + lent.value;
    }
  }

  lemma VersionAtTheEnd(front: string, rest: string, version: Option<string>)
    requires '?' !in front
    ensures Routing.WithVersion(front + rest, version) == front + Suffix(rest, version)
  {
    assert '?' in front + rest <==> '?' in rest;
  }

  /**
   * Requests for a model with a known route are posted to the very same URL
   * afterwards, on the wire of that route, exactly when its URI has a scheme,
   * one leading slash on its path and the path its provider stores, and what
   * follows the path is kept.
   */
  lemma RouteIsKept(rows: seq<Row>, providers: seq<Provider>, attached: map<int, nat>, i: nat, shape: Shape,
                    before: Routing.Model, after: Routing.Model)
    requires UniqueIds(rows) && Migrated(rows, providers, attached) && i < |rows|
    requires forall k | 0 <= k < |rows| && Eligible(rows[k]) :: rows[k].uri.Split()
    requires rows[i].id in attached && attached[rows[i].id] < |providers| && ShapeOf(rows[i].uri.path) == Some(shape)
    requires Moves(rows[i], providers[attached[rows[i].id]], before, after)
    ensures var uri, key, wire := rows[i].uri, KeyOf(rows[i]), Some(WireOf(shape));
            && FirstPath(rows, key, shape).Some? && FirstRow(rows, key).Some?
            && (Routing.PostedUrl(after, wire) == Routing.PostedUrl(before, wire) <==>
                && uri.scheme != "" && !StartsWith(uri.path, "//")
                && TrimLeft(FirstPath(rows, key, shape).value, '/') == TrimLeft(uri.path, '/')
                && QueryIsKept(uri.rest, rows[i].apiVersion, FirstRow(rows, key).value.apiVersion))
  {
    var row := rows[i];
    AttachedIffClassified(rows, providers, attached, i);
    var provider := providers[attached[row.id]];
    assert Describes(rows, provider);
    var stored := StoredAtFirst(rows, i, shape, provider);
    RouteAfter(row, provider, before, after, shape, stored);
    var version := if Routing.Given(row.apiVersion) then row.apiVersion else provider.apiVersion;
    assert Routing.EffectiveVersion(after) == version;
    JoinIsGiven(row.uri, stored);
    assert Routing.PostedUrl(after, Some(WireOf(shape))) ==
           Some(Routing.WithVersion(Routing.JoinUri(BaseOf(row.uri), stored), version));
    UrlIsKept(row.uri, stored, row.apiVersion, provider.apiVersion);
  }

  lemma JoinIsGiven(uri: Uri, stored: string)
    requires uri.Split()
    ensures Routing.JoinUri(BaseOf(uri), stored) != "" && uri.Text() != ""
    ensures Routing.Given(Some(Routing.JoinUri(BaseOf(uri), stored))) && Routing.Given(Some(uri.Text()))
  {
  }

  lemma UrlBefore(uri: Uri, own: Option<string>)
    requires uri.Split() && uri.scheme != ""
    ensures Routing.WithVersion(uri.Text(), if Routing.Given(own) then own else None) ==
            (BaseOf(uri) + uri.path) + Suffix(uri.rest, own)
  {
    NoMarkInBase(uri);
    assert uri.Text() == (BaseOf(uri) + uri.path) + uri.rest;
    VersionAtTheEnd(BaseOf(uri) + uri.path, uri.rest, own);
  }

  lemma UrlAfter(uri: Uri, stored: string, version: Option<string>)
    requires uri.Split() && forall i | 0 <= i < |stored| :: !IsMark(stored[i])
    ensures Routing.WithVersion(Routing.JoinUri(BaseOf(uri), stored), version) ==
            (BaseOf(uri) + ("/" + TrimLeft(stored, '/'))) + Suffix("", version)
  {
    NoMarkInBase(uri);
    TrimLeftIsSuffix(stored, '/');
    JoinedAfterBase(uri, stored);
    NoQueryBefore(BaseOf(uri) + ("/" + TrimLeft(stored, '/')), version);
  }

  lemma UrlIsKept(uri: Uri, stored: string, own: Option<string>, lent: Option<string>)
    requires uri.Split() && uri.path != "" && forall i | 0 <= i < |stored| :: !IsMark(stored[i])
    ensures var version := if Routing.Given(own) then own else lent;
            Routing.WithVersion(Routing.JoinUri(BaseOf(uri), stored), version) ==
            Routing.WithVersion(uri.Text(), if Routing.Given(own) then own else None) <==>
            && uri.scheme != "" && !StartsWith(uri.path, "//")
            && TrimLeft(stored, '/') == TrimLeft(uri.path, '/')
            && QueryIsKept(uri.rest, own, lent)
  {
    var version := if Routing.Given(own) then own else lent;
    UrlAfter(uri, stored, version);
    if uri.scheme == "" {
      UrlsStartApart(uri, own, "/" + TrimLeft(stored, '/'), Suffix("", version));
    } else {
      UrlBefore(uri, own);
      UrlPartsAgree(BaseOf(uri), uri.path, uri.rest, stored, own, lent);
    }
  }

  lemma UrlsStartApart(uri: Uri, own: Option<string>, path: string, suffix: string)
    requires uri.scheme == ""
    ensures (BaseOf(uri) + path) + suffix != Routing.WithVersion(uri.Text(), if Routing.Given(own) then own else None)
  {
    assert ((BaseOf(uri) + path) + suffix)[0] == ':';
    assert Routing.WithVersion(uri.Text(), if Routing.Given(own) then own else None)[0] == '/';
  }

  lemma UrlPartsAgree(base: string, path: string, rest: string, stored: string, own: Option<string>, lent: Option<string>)
    requires path != "" && path[0] == '/' && forall i | 0 <= i < |path| :: !IsMark(path[i])
    requires (rest == "" || IsMark(rest[0])) && forall i | 0 <= i < |stored| :: !IsMark(stored[i])
    ensures (base + ("/" + TrimLeft(stored, '/'))) + Suffix("", if Routing.Given(own) then own else lent) ==
            (base + path) + Suffix(rest, own) <==>
            !StartsWith(path, "//") && TrimLeft(stored, '/') == TrimLeft(path, '/') && QueryIsKept(rest, own, lent)
  {
    var tail := TrimLeft(stored, '/');
    TrimLeftIsSuffix(stored, '/');
    SuffixesAgree(rest, own, lent);
    AfterOneSlash(path, "", tail);
    assert path + "" == path;
    StartsAtMark(rest, own);
    StartsAtMark("", if Routing.Given(own) then own else lent);
    SameUrl(base, path, tail, Suffix("", if Routing.Given(own) then own else lent), Suffix(rest, own));
  }

  lemma StartsAtMark(rest: string, version: Option<string>)
    requires rest == "" || IsMark(rest[0])
    ensures Suffix(rest, version) == "" || IsMark(Suffix(rest, version)[0])
  {
  }

  lemma NoQueryBefore(front: string, version: Option<string>)
    requires '?' !in front
    ensures Routing.WithVersion(front, version) == front + Suffix("", version)
  {
    VersionAtTheEnd(front, "", version);
    assert front + "" == front;
  }

  lemma SameUrl(base: string, path: string, tail: string, after: string, before: string)
    requires forall i | 0 <= i < |path| :: !IsMark(path[i])
    requires forall i | 0 <= i < |tail| :: !IsMark(tail[i])
    requires (after == "" || IsMark(after[0])) && (before == "" || IsMark(before[0]))
    ensures (base + ("/" + tail)) + after == (base + path) + before <==> "/" + tail == path && after == before
  {
    assert (base + ("/" + tail)) + after == base + (("/" + tail) + after);
    assert (base + path) + before == base + (path + before);
    SameAfter(base, ("/" + tail) + after, path + before);
    SplitsAtMark("/" + tail, after, path, before);
  }

  lemma NoMarkInBase(uri: Uri)
    requires uri.Split()
    ensures forall i | 0 <= i < |BaseOf(uri)| :: !IsMark(BaseOf(uri)[i])
  {
  }

  /** Two texts split at their first mark are the same when both parts are. */
  lemma SplitsAtMark(a: string, afterA: string, b: string, afterB: string)
    requires forall i | 0 <= i < |a| :: !IsMark(a[i])
    requires forall i | 0 <= i < |b| :: !IsMark(b[i])
    requires (afterA == "" || IsMark(afterA[0])) && (afterB == "" || IsMark(afterB[0]))
    ensures a + afterA == b + afterB <==> a == b && afterA == afterB
  {
    if a + afterA == b + afterB {
      NotShorter(a, afterA, b, afterB);
      NotShorter(b, afterB, a, afterA);
      assert (a + afterA)[..|a|] == a && (b + afterB)[..|b|] == b;
      assert (a + afterA)[|a|..] == afterA && (b + afterB)[|b|..] == afterB;
    }
  }

  lemma NotShorter(a: string, afterA: string, b: string, afterB: string)
    requires a + afterA == b + afterB && (afterA == "" || IsMark(afterA[0]))
    requires forall i | 0 <= i < |b| :: !IsMark(b[i])
    ensures |a| >= |b|
  {
    assert forall k | 0 <= k < |b| :: (b + afterB)[k] == b[k];
    assert |afterA| > 0 ==> (a + afterA)[|a|] == afterA[0];
    assert |a + afterA| == |b + afterB|;
  }

  /** Of two models at one URI, the one without an API version is lent the other's, and is sent elsewhere. */
  lemma LentVersionMoves(a: Row, b: Row, shape: Shape, providers: seq<Provider>, attached: map<int, nat>,
                         before: Routing.Model, after: Routing.Model)
    requires a.id != b.id && a.uri == b.uri && a.credential == b.credential
    requires a.uri.Split() && a.uri.scheme != "" && a.uri.rest == "" && !StartsWith(a.uri.path, "//")
    requires ShapeOf(a.uri.path) == Some(shape) && Routing.Given(a.apiVersion) && !Routing.Given(b.apiVersion)
    requires Migrated([a, b], providers, attached) && b.id in attached && attached[b.id] < |providers|
    requires Moves(b, providers[attached[b.id]], before, after)
    ensures Routing.TargetUri(after, Some(WireOf(shape))) == Routing.TargetUri(before, Some(WireOf(shape)))
    ensures Routing.PostedUrl(after, Some(WireOf(shape))) != Routing.PostedUrl(before, Some(WireOf(shape)))
  {
    var rows := [a, b];
    var key := KeyOf(a);
    assert rows[..1] == [a] && [a][..0] == [];
    assert FirstRow(rows, key) == FirstRow([a], key) == Some(a);
    assert FirstPath(rows, key, shape) == FirstPath([a], key, shape) == Some(a.uri.path);
    UriIsKept(rows, providers, attached, 1, shape, before, after);
    RouteIsKept(rows, providers, attached, 1, shape, before, after);
  }

  lemma JoinedAfterBase(uri: Uri, path: string)
    requires uri.Split()
    ensures Routing.JoinUri(BaseOf(uri), path) == BaseOf(uri) + ("/" + TrimLeft(path, '/'))
  {
    var base := BaseOf(uri);
    assert base[|base| - 1] == uri.host[|uri.host| - 1];
    assert TrimRight(base, '/') == base;
  }

  lemma SameAfter(base: string, a: string, b: string)
    ensures base + a == base + b <==> a == b
  {
    assert (base + a)[|base|..] == a && (base + b)[|base|..] == b;
  }

  lemma {:induction false} TrimLeftIsSuffix(s: string, c: char)
    ensures var t := TrimLeft(s, c); |t| <= |s| && t == s[|s| - |t|..] && (t == "" || t[0] != c)
  {
    if s != "" && s[0] == c {
      TrimLeftIsSuffix(s[1..], c);
    }
  }

  lemma AfterOneSlash(path: string, rest: string, tail: string)
    requires path != "" && path[0] == '/' && (rest == "" || IsMark(rest[0]))
    requires (tail == "" || tail[0] != '/') && forall i | 0 <= i < |tail| :: !IsMark(tail[i])
    ensures "/" + tail == path + rest <==> rest == "" && !StartsWith(path, "//") && tail == TrimLeft(path, '/')
  {
    var joined := "/" + tail;
    TrimLeftIsSuffix(path, '/');
    assert TrimLeft(path, '/') == TrimLeft(path[1..], '/');
    if rest != "" {
      assert IsMark((path + rest)[|path|]);
      assert |path| < |joined| ==> !IsMark(joined[|path|]);
    }
    if joined == path + rest {
      assert path + rest == path;
      assert joined[1..] == tail;
    }
    if !StartsWith(path, "//") {
      if |path| > 1 {
        assert path[..2] == "/" + [path[1]];
        assert path[1] != '/';
      }
      assert TrimLeft(path, '/') == path[1..];
      assert path == "/" + path[1..];
    }
  }

  /** A lone model whose path starts with two slashes has its own path stored, and yet is sent elsewhere afterwards. */
  lemma DoubledSlashMoves(row: Row, shape: Shape, providers: seq<Provider>, attached: map<int, nat>,
                          before: Routing.Model, after: Routing.Model)
    requires row.uri.Split() && StartsWith(row.uri.path, "//") && ShapeOf(row.uri.path) == Some(shape)
    requires Migrated([row], providers, attached) && row.id in attached && attached[row.id] < |providers|
    requires Moves(row, providers[attached[row.id]], before, after)
    ensures FirstPath([row], KeyOf(row), shape) == Some(row.uri.path)
    ensures Routing.PostedUrl(after, Some(WireOf(shape))) != Routing.PostedUrl(before, Some(WireOf(shape)))
  {
    var rows := [row];
    FirstPathExists(rows, 0);
    FirstPathIsARows(rows, KeyOf(row), shape);
    RouteIsKept(rows, providers, attached, 0, shape, before, after);
  }

  /** Such a model at `//v1/messages`, say. */
  lemma DoubledSlashExample(row: Row, prefix: string, providers: seq<Provider>, attached: map<int, nat>,
                            before: Routing.Model, after: Routing.Model)
    requires prefix == "//v1" && row.uri == Uri("http", "local", prefix + "/messages", "")
    requires Migrated([row], providers, attached) && row.id in attached && attached[row.id] < |providers|
    requires Moves(row, providers[attached[row.id]], before, after)
    ensures Routing.PostedUrl(after, Some(Routing.AnthropicMessages)) != Routing.PostedUrl(before, Some(Routing.AnthropicMessages))
  {
    DoubledPrefix(prefix);
    AnyDoubledPath(row, prefix, providers, attached, before, after);
  }

  lemma DoubledPrefix(prefix: string)
    requires prefix == "//v1"
    ensures StartsWith(prefix, "//") && forall i | 0 <= i < |prefix| :: !IsMark(prefix[i])
  {
    assert prefix[..2] == "//";
  }

  lemma AnyDoubledPath(row: Row, prefix: string, providers: seq<Provider>, attached: map<int, nat>,
                       before: Routing.Model, after: Routing.Model)
    requires StartsWith(prefix, "//") && forall i | 0 <= i < |prefix| :: !IsMark(prefix[i])
    requires row.uri == Uri("http", "local", prefix + "/messages", "")
    requires Migrated([row], providers, attached) && row.id in attached && attached[row.id] < |providers|
    requires Moves(row, providers[attached[row.id]], before, after)
    ensures Routing.PostedUrl(after, Some(Routing.AnthropicMessages)) != Routing.PostedUrl(before, Some(Routing.AnthropicMessages))
  {
    DoubledPath(prefix);
    DoubledSlashMoves(row, Messages, providers, attached, before, after);
  }

  lemma DoubledPath(prefix: string)
    requires StartsWith(prefix, "//") && forall i | 0 <= i < |prefix| :: !IsMark(prefix[i])
    ensures var path := prefix + "/messages";
            StartsWith(path, "//") && ShapeOf(path) == Some(Messages) && Uri("http", "local", path, "").Split()
  {
    var tail := "/messages";
    var path := prefix + tail;
    assert path[..2] == prefix[..2];
    assert path[|prefix|..] == tail;
    assert path[|path| - 1] == tail[|tail| - 1] && TrimRight(path, '/') == path;
    assert path[0] == prefix[..2][0];
  }

  /** A model on a local server is served on all three wires afterwards. */
  lemma LocalServesEveryWire(rows: seq<Row>, providers: seq<Provider>, attached: map<int, nat>, i: nat,
                             before: Routing.Model, after: Routing.Model, wire: Routing.Wire)
    requires UniqueIds(rows) && Migrated(rows, providers, attached) && i < |rows|
    requires forall k | 0 <= k < |rows| && Eligible(rows[k]) :: rows[k].uri.Split()
    requires rows[i].id in attached && attached[rows[i].id] < |providers| && !IsVendor(rows[i].uri.host)
    requires Moves(rows[i], providers[attached[rows[i].id]], before, after)
    ensures Routing.Serves(after, wire) <==> wire in Routing.ALL_WIRES
  {
    AttachedIffClassified(rows, providers, attached, i);
    var provider := providers[attached[rows[i].id]];
    assert Describes(rows, provider);
    FirstRowBelongs(rows, provider.key);
    BaseNamesHost(FirstRow(rows, provider.key).value.uri, rows[i].uri);
    assert forall shape :: Lookup(provider.paths, shape).Some?;
  }

  // ----- Shapes, standard paths and names -----

  function Ending(shape: Shape): string {
    match shape
    case Messages => "/messages"
    case Responses => "/responses"
    case ChatCompletions => "/chat/completions"
  }

  /** A path is of a shape exactly when it ends in that shape's words, slashes after them aside. */
  lemma ShapeIffEnding(path: string, shape: Shape)
    ensures ShapeOf(path) == Some(shape) <==>
            exists prefix, slashes :: path == prefix + Ending(shape) + Routing.Slashes(slashes)
  {
    TrimmedAndSlashes(path);
    var tail := TrimRight(path, '/');
    if ShapeOf(path) == Some(shape) {
      var prefix, slashes := tail[..|tail| - |Ending(shape)|], |path| - |tail|;
      assert tail == prefix + Ending(shape);
      assert path == prefix + Ending(shape) + Routing.Slashes(slashes);
    }
    if prefix, slashes :| path == prefix + Ending(shape) + Routing.Slashes(slashes) {
      EndingShows(prefix, shape, slashes);
    }
  }

  lemma {:induction false} TrimmedAndSlashes(path: string)
    ensures var tail := TrimRight(path, '/');
            |tail| <= |path| && path == tail + Routing.Slashes(|path| - |tail|)
  {
    if path != "" && path[|path| - 1] == '/' {
      var front := path[..|path| - 1];
      TrimmedAndSlashes(front);
      var n := |path| - |TrimRight(path, '/')|;
      assert Routing.Slashes(n) == Routing.Slashes(n - 1) + "/";
      assert path == front + "/";
    } else {
      assert Routing.Slashes(0) == "";
    }
  }

  lemma EndingShows(prefix: string, shape: Shape, slashes: nat)
    ensures ShapeOf(prefix + Ending(shape) + Routing.Slashes(slashes)) == Some(shape)
  {
    var path, ending := prefix + Ending(shape), Ending(shape);
    Routing.TrimsTrailing(path, slashes);
    assert path[|path| - 1] == ending[|ending| - 1] && ending[|ending| - 1] == 's';
    assert TrimRight(path, '/') == path;
    assert path[|path| - |ending|..] == ending;
    LastLetters(path, shape);
    assert EndsWith(path, Ending(Messages)) <==> shape == Messages;
    assert EndsWith(path, Ending(Responses)) <==> shape == Responses;
    assert EndsWith(path, Ending(ChatCompletions)) <==> shape == ChatCompletions;
  }

  /** No path has two of the endings. */
  lemma LastLetters(path: string, shape: Shape)
    requires EndsWith(path, Ending(shape))
    ensures forall other :: EndsWith(path, Ending(other)) ==> other == shape
  {
    forall other | EndsWith(path, Ending(other)) ensures other == shape {
      var n := |path|;
      assert path[n - 2] == Ending(shape)[|Ending(shape)| - 2] && path[n - 2] == Ending(other)[|Ending(other)| - 2];
      assert path[n - 3] == Ending(shape)[|Ending(shape)| - 3] && path[n - 3] == Ending(other)[|Ending(other)| - 3];
    }
  }

  /** A local server's provider stores the standard path of every shape none of its models used, and a vendor's none. */
  lemma UnusedShapesAreFilled(rows: seq<Row>, provider: Provider, shape: Shape)
    requires Describes(rows, provider) && FirstPath(rows, provider.key, shape) == None
    ensures var host := FirstRow(rows, provider.key).value.uri.host;
            Lookup(provider.paths, shape) ==
            if host == "api.anthropic.com" || host == "chatgpt.com" then None
            else Some(match shape case Messages => "/v1/messages" case Responses => "/v1/responses"
                                  case ChatCompletions => "/v1/chat/completions")
  {
  }

  /** The first name tried: a vendor's, Ollama's by its port, or the host with its dots and colons as dashes. */
  lemma FirstNameTried(host: string)
    ensures Candidate(BaseName("api.anthropic.com"), 0) == "anthropic" && Candidate(BaseName("chatgpt.com"), 0) == "openai"
    ensures Candidate(BaseName(host + ":11434"), 0) == "ollama"
    ensures host != "api.anthropic.com" && host != "chatgpt.com" && !EndsWith(host, ":11434") ==>
              var name := Candidate(BaseName(host), 0);
              && |name| == |host|
              && forall i | 0 <= i < |host| :: name[i] == if host[i] == '.' || host[i] == ':' then '-' else host[i]
  {
    var ollama := host + ":11434";
    assert ollama[|ollama| - 6..] == ":11434";
    assert ollama[|ollama| - 1] == ":11434"[5] == '4';
    assert "api.anthropic.com"[16] == 'm' && "chatgpt.com"[10] == 'm';
    assert ollama != "api.anthropic.com" && ollama != "chatgpt.com";
  }

  /** The names tried after it carry a number, from two up. */
  lemma LaterNamesTried(base: string)
    ensures Candidate(base, 1) == base + "-" + "2" && Candidate(base, 2) == base + "-" + "3"
  {
    assert Decimal(2) == "2" && Decimal(3) == "3";
  }
}
