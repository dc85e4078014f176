/**
 The admin console's clients and keys, and the in-memory index of live keys
 that requests are checked against. Every action commits to the tables and
 then rebuilds the index from them; either half may fail.
*/
module KeyCache {
  import opened Wrappers
  import opened Text

  // ----- Tables and index -----

  datatype Client = Client(name: string, kind: string, description: Option<string>, disabled: bool, privileged: bool)

  datatype ApiKey = ApiKey(owner: int, caption: string, hash: string, revoked: bool)

  /** Rows by id. */
  datatype Tables = Tables(clients: map<int, Client>, keys: map<int, ApiKey>)

  datatype Entry = Entry(client: int, key: int, privileged: bool)

  datatype Cache = Cache(hashes: set<string>, lookup: map<string, Entry>)

  datatype State = State(tables: Tables, cache: Cache)

  /** Keys belong to clients, and names and hashes are unique. */
  ghost predicate Sound(t: Tables) {
    && SoundClients(t.clients)
    && SoundKeys(t.keys)
    && forall id | id in t.keys :: t.keys[id].owner in t.clients
  }

  ghost predicate SoundClients(clients: map<int, Client>) {
    forall a, b | a in clients && b in clients && a != b :: clients[a].name != clients[b].name
  }

  ghost predicate SoundKeys(keys: map<int, ApiKey>) {
    forall a, b | a in keys && b in keys && a != b :: keys[a].hash != keys[b].hash
  }

  /** An unrevoked key of an enabled client. */
  predicate IsLive(t: Tables, id: int) {
    && id in t.keys && !t.keys[id].revoked
    && t.keys[id].owner in t.clients && !t.clients[t.keys[id].owner].disabled
  }

  function EntryOf(t: Tables, id: int): Entry
    requires IsLive(t, id)
  {
    var owner := t.keys[id].owner;
    Entry(owner, id, t.clients[owner].privileged)
  }

  /** Exactly the live keys among some ids, by hash. */
  ghost predicate Indexes(lookup: map<string, Entry>, t: Tables, ids: set<int>) {
    && (forall id | id in ids && IsLive(t, id) :: Lookup(lookup, t.keys[id].hash) == Some(EntryOf(t, id)))
    && (forall hash | hash in lookup :: IsEntry(lookup[hash], hash, t, ids))
  }

  predicate IsEntry(entry: Entry, hash: string, t: Tables, ids: set<int>) {
    entry.key in ids && IsLive(t, entry.key) && t.keys[entry.key].hash == hash && entry == EntryOf(t, entry.key)
  }

  lemma OneIndex(a: map<string, Entry>, b: map<string, Entry>, t: Tables, ids: set<int>)
    requires Indexes(a, t, ids) && Indexes(b, t, ids)
    ensures a == b
  {
    forall hash | hash in a ensures Lookup(b, hash) == Some(a[hash]) {
      assert IsEntry(a[hash], hash, t, ids);
    }
    forall hash | hash in b ensures Lookup(a, hash) == Some(b[hash]) {
      assert IsEntry(b[hash], hash, t, ids);
    }
  }

  lemma IndexOneMore(lookup: map<string, Entry>, t: Tables, ids: set<int>, id: int)
    requires Sound(t) && id in t.keys && id !in ids && ids <= t.keys.Keys && Indexes(lookup, t, ids)
    ensures Indexes(if IsLive(t, id) then lookup[t.keys[id].hash := EntryOf(t, id)] else lookup, t, ids + {id})
  {
    var hash := t.keys[id].hash;
    var more := if IsLive(t, id) then lookup[hash := EntryOf(t, id)] else lookup;
    forall k | k in ids + {id} && IsLive(t, k) ensures Lookup(more, t.keys[k].hash) == Some(EntryOf(t, k)) {
      assert k != id ==> t.keys[k].hash != hash;
    }
    forall h | h in more ensures IsEntry(more[h], h, t, ids + {id}) {
      if h in lookup {
        assert IsEntry(lookup[h], h, t, ids);
      }
    }
  }

  lemma SomeMember(ids: set<int>)
    requires ids != {}
    ensures exists id :: id in ids
  {
    var none: set<int> := {};
    assert (forall id :: id in ids <==> id in none) ==> ids == none;
  }

  ghost function LookupOf(t: Tables, ids: set<int>): (lookup: map<string, Entry>)
    requires Sound(t) && ids <= t.keys.Keys
    ensures Indexes(lookup, t, ids)
  {
    if ids == {} then map[]
    else
      SomeMember(ids);
      var id :| id in ids;
      var fewer := LookupOf(t, ids - {id});
      IndexOneMore(fewer, t, ids - {id}, id);
      assert ids - {id} + {id} == ids;
      if IsLive(t, id) then fewer[t.keys[id].hash := EntryOf(t, id)] else fewer
  }

  /** The index a refresh leaves: the tables determine it. */
  ghost function CacheOf(t: Tables): (cache: Cache)
    requires Sound(t)
    ensures cache.hashes == cache.lookup.Keys && Indexes(cache.lookup, t, t.keys.Keys)
  {
    Cache(LookupOf(t, t.keys.Keys).Keys, LookupOf(t, t.keys.Keys))
  }

  // ----- Actions -----

  /** A new row comes with the id the database gives it: one not in use, though a deleted row may have had it. */
  datatype Action =
    | Create(id: int, name: string, kind: string, description: Option<string>, privileged: bool)
    | Update(client: int, name: string, kind: string, description: Option<string>, privileged: bool)
    | Disable(client: int)
    | Enable(client: int)
    | Delete(client: int)
    | Mint(client: int, id: int, caption: string, hash: string)
    | Revoke(client: int, key: int)

  /** What the database does to an action: its commit, or the query after it, may fail. */
  datatype Fault = NoFault | CommitFails | RefreshFails

  datatype Refusal = NotFound | NameTaken | DatabaseError

  predicate NameClash(t: Tables, name: string, self: Option<int>) {
    exists id | id in t.clients :: t.clients[id].name == name && self != Some(id)
  }

  predicate HashClash(t: Tables, hash: string) {
    exists id | id in t.keys :: t.keys[id].hash == hash
  }

  function Edit(t: Tables, a: Action): Result<Tables, Refusal> {
    if !a.Create? && a.client !in t.clients && !a.Revoke? then Err(NotFound) else
    match a
    case Create(id, name, kind, description, privileged) =>
      if NameClash(t, name, None) then Err(NameTaken)
      else if id in t.clients then Err(DatabaseError)
      else Ok(t.(clients := t.clients[id := Client(name, kind, description, false, privileged)]))
    case Update(id, name, kind, description, privileged) =>
      if NameClash(t, name, Some(id)) then Err(NameTaken)
      else Ok(t.(clients := t.clients[id := Client(name, kind, description, t.clients[id].disabled, privileged)]))
    case Disable(id) => Ok(t.(clients := t.clients[id := t.clients[id].(disabled := true)]))
    case Enable(id) => Ok(t.(clients := t.clients[id := t.clients[id].(disabled := false)]))
    case Delete(id) =>
      Ok(t.(clients := t.clients - {id}, keys := map k | k in t.keys && t.keys[k].owner != id :: t.keys[k]))
    case Mint(client, id, caption, hash) =>
      if HashClash(t, hash) || id in t.keys then Err(DatabaseError)
      else Ok(t.(keys := t.keys[id := ApiKey(client, caption, hash, false)]))
    case Revoke(id, key) =>
      if key !in t.keys || t.keys[key].owner != id then Err(NotFound)
      else Ok(t.(keys := t.keys[key := t.keys[key].(revoked := true)]))
  }

  function Committed(t: Tables, a: Action, fault: Fault): Result<Tables, Refusal> {
    var edited := Edit(t, a);
    if edited.Ok? && fault == CommitFails then Err(DatabaseError) else edited
  }

  /** What the caller is told: a failed refresh is an error although the edit stands. */
  function Report(t: Tables, a: Action, fault: Fault): Result<(), Refusal> {
    var committed := Committed(t, a, fault);
    if committed.Err? then Err(committed.error)
    else if !a.Create? && fault == RefreshFails then Err(DatabaseError)
    else Ok(())
  }

  /** The state after an action. Creating a client is the one edit that rebuilds nothing. */
  ghost function Perform(s: State, a: Action, fault: Fault): (s': State)
    requires Sound(s.tables)
    ensures Sound(s'.tables)
  {
    var committed := Committed(s.tables, a, fault);
    if committed.Err? then s
    else
      EditKeepsSound(s.tables, a);
      State(committed.value, if a.Create? || fault == RefreshFails then s.cache else CacheOf(committed.value))
  }

  lemma EditKeepsSound(t: Tables, a: Action)
    requires Sound(t) && Edit(t, a).Ok?
    ensures Sound(Edit(t, a).value)
  {
    var t' := Edit(t, a).value;
    EditKeepsClients(t, a);
    EditKeepsKeys(t, a);
    forall id | id in t'.keys ensures t'.keys[id].owner in t'.clients {
    }
  }

  lemma EditKeepsClients(t: Tables, a: Action)
    requires SoundClients(t.clients) && Edit(t, a).Ok?
    ensures SoundClients(Edit(t, a).value.clients)
  {
  }

  lemma EditKeepsKeys(t: Tables, a: Action)
    requires SoundKeys(t.keys) && Edit(t, a).Ok?
    ensures SoundKeys(Edit(t, a).value.keys)
  {
  }

  class Console {
    var clients: map<int, Client>
    var keys: map<int, ApiKey>
    var hashes: set<string>
    var lookup: map<string, Entry>

    function Rows(): Tables
      reads this
    {
      Tables(clients, keys)
    }

    function Contents(): State
      reads this
    {
      State(Rows(), Cache(hashes, lookup))
    }

    /** Rebuilds the index from the join of live keys and enabled clients. */
    method RefreshKeyCache() returns (size: nat)
      requires Sound(Rows())
      modifies this`hashes, this`lookup
      ensures Contents() == State(old(Rows()), CacheOf(old(Rows())))
      ensures size == |lookup|
    {
      var rebuilt: map<string, Entry> := map[];
      var todo := keys.Keys;
      ghost var done: set<int> := {};
      ghost var t := Rows();
      while todo != {}
        invariant keys.Keys == done + todo && t == Rows()
        invariant done !! todo && Indexes(rebuilt, t, done)
      {
        SomeMember(todo);
        var id :| id in todo;
        todo := todo - {id};
        IndexOneMore(rebuilt, t, done, id);
        done := done + {id};
        if !keys[id].revoked && keys[id].owner in clients && !clients[keys[id].owner].disabled {
          var owner := keys[id].owner;
          rebuilt := rebuilt[keys[id].hash := Entry(owner, id, clients[owner].privileged)];
        }
      }
      assert done == keys.Keys;
      OneIndex(rebuilt, CacheOf(t).lookup, t, done);
      lookup := rebuilt;
      hashes := lookup.Keys;
      size := |lookup|;
    }

    /** The end of every action but creation: the index is rebuilt before the answer. */
    method FinishWith(fault: Fault) returns (done: Result<(), Refusal>)
      requires Sound(Rows())
      modifies this`hashes, this`lookup
      ensures Contents() == if fault == RefreshFails then old(Contents()) else State(old(Rows()), CacheOf(old(Rows())))
      ensures done == if fault == RefreshFails then Err(DatabaseError) else Ok(())
    {
      if fault == RefreshFails {
        return Err(DatabaseError);
      }
      var _ := RefreshKeyCache();
      return Ok(());
    }

    method CreateClient(id: int, name: string, kind: string, description: Option<string>, privileged: bool, fault: Fault)
      returns (done: Result<(), Refusal>)
      requires Sound(Rows())
      modifies this
      ensures Contents() == Perform(old(Contents()), Create(id, name, kind, description, privileged), fault)
      ensures done == Report(old(Rows()), Create(id, name, kind, description, privileged), fault)
      ensures keys == old(keys) && hashes == old(hashes) && lookup == old(lookup)
      ensures done.Ok? <==> fault != CommitFails && id !in old(clients) && forall k | k in old(clients) :: old(clients)[k].name != name
      ensures done.Err? ==> clients == old(clients)
      ensures done.Ok? ==> clients == old(clients)[id := Client(name, kind, description, false, privileged)]
    {
      if exists k | k in clients :: clients[k].name == name {
        return Err(NameTaken);
      }
      if id in clients || fault == CommitFails {
        return Err(DatabaseError);
      }
      EditKeepsSound(Rows(), Create(id, name, kind, description, privileged));
      clients := clients[id := Client(name, kind, description, false, privileged)];
      return Ok(());
    }

    /** All of one client may change but its disabled flag; no other client and no key does. */
    method UpdateClient(client: int, name: string, kind: string, description: Option<string>, privileged: bool, fault: Fault)
      returns (done: Result<(), Refusal>)
      requires Sound(Rows())
      modifies this
      ensures Contents() == Perform(old(Contents()), Update(client, name, kind, description, privileged), fault)
      ensures done == Report(old(Rows()), Update(client, name, kind, description, privileged), fault)
      ensures keys == old(keys) && clients.Keys == old(clients).Keys
      ensures forall k | k in clients && k != client :: clients[k] == old(clients)[k]
      ensures client in clients ==>
                clients[client] ==
                if fault == CommitFails || exists k | k in old(clients) :: k != client && old(clients)[k].name == name
                then old(clients)[client]
                else Client(name, kind, description, old(clients)[client].disabled, privileged)
    {
      if client !in clients {
        return Err(NotFound);
      }
      if exists k | k in clients :: clients[k].name == name && k != client {
        return Err(NameTaken);
      }
      if fault == CommitFails {
        return Err(DatabaseError);
      }
      EditKeepsSound(Rows(), Update(client, name, kind, description, privileged));
      clients := clients[client := Client(name, kind, description, clients[client].disabled, privileged)];
      done := FinishWith(fault);
    }

    /** Nothing but this client's disabled flag changes. */
    method DisableClient(client: int, fault: Fault)
      returns (done: Result<(), Refusal>)
      requires Sound(Rows())
      modifies this
      ensures Contents() == Perform(old(Contents()), Disable(client), fault)
      ensures done == Report(old(Rows()), Disable(client), fault)
      ensures keys == old(keys) && clients.Keys == old(clients).Keys
      ensures forall k | k in clients :: clients[k] == old(clients)[k].(disabled := clients[k].disabled)
      ensures forall k | k in clients :: clients[k].disabled <==> old(clients)[k].disabled || (k == client && fault != CommitFails)
    {
      if client !in clients {
        return Err(NotFound);
      }
      if fault == CommitFails {
        return Err(DatabaseError);
      }
      EditKeepsSound(Rows(), Disable(client));
      clients := clients[client := clients[client].(disabled := true)];
      done := FinishWith(fault);
    }

    /** Nothing but this client's disabled flag changes. */
    method EnableClient(client: int, fault: Fault)
      returns (done: Result<(), Refusal>)
      requires Sound(Rows())
      modifies this
      ensures Contents() == Perform(old(Contents()), Enable(client), fault)
      ensures done == Report(old(Rows()), Enable(client), fault)
      ensures keys == old(keys) && clients.Keys == old(clients).Keys
      ensures forall k | k in clients :: clients[k] == old(clients)[k].(disabled := clients[k].disabled)
      ensures forall k | k in clients :: clients[k].disabled <==> old(clients)[k].disabled && !(k == client && fault != CommitFails)
    {
      if client !in clients {
        return Err(NotFound);
      }
      if fault == CommitFails {
        return Err(DatabaseError);
      }
      EditKeepsSound(Rows(), Enable(client));
      clients := clients[client := clients[client].(disabled := false)];
      done := FinishWith(fault);
    }

    /** The client goes, and of the keys exactly its own. */
    method DeleteClient(client: int, fault: Fault)
      returns (done: Result<(), Refusal>)
      requires Sound(Rows())
      modifies this
      ensures Contents() == Perform(old(Contents()), Delete(client), fault)
      ensures done == Report(old(Rows()), Delete(client), fault)
      ensures fault == CommitFails || client !in old(clients) ==> clients == old(clients) && keys == old(keys)
      ensures fault != CommitFails ==> clients == old(clients) - {client}
      ensures forall k :: k in keys <==> k in old(keys) && (fault == CommitFails || old(keys)[k].owner != client)
      ensures forall k | k in keys :: keys[k] == old(keys)[k]
    {
      if client !in clients {
        return Err(NotFound);
      }
      if fault == CommitFails {
        return Err(DatabaseError);
      }
      EditKeepsSound(Rows(), Delete(client));
      clients := clients - {client};
      keys := map k | k in keys && keys[k].owner != client :: keys[k];
      done := FinishWith(fault);
    }

    /** One unrevoked key is added, unless its hash is known already. */
    method MintKey(client: int, id: int, caption: string, hash: string, fault: Fault)
      returns (done: Result<(), Refusal>)
      requires Sound(Rows())
      modifies this
      ensures Contents() == Perform(old(Contents()), Mint(client, id, caption, hash), fault)
      ensures done == Report(old(Rows()), Mint(client, id, caption, hash), fault)
      ensures clients == old(clients)
      ensures keys ==
              if client in old(clients) && id !in old(keys) && fault != CommitFails
                 && forall k | k in old(keys) :: old(keys)[k].hash != hash
              then old(keys)[id := ApiKey(client, caption, hash, false)]
              else old(keys)
    {
      if client !in clients {
        return Err(NotFound);
      }
      if (exists k | k in keys :: keys[k].hash == hash) || id in keys || fault == CommitFails {
        return Err(DatabaseError);
      }
      EditKeepsSound(Rows(), Mint(client, id, caption, hash));
      keys := keys[id := ApiKey(client, caption, hash, false)];
      done := FinishWith(fault);
    }

    /** Nothing but this key's revoked flag changes, and only if the key is this client's. */
    method RevokeKey(client: int, key: int, fault: Fault)
      returns (done: Result<(), Refusal>)
      requires Sound(Rows())
      modifies this
      ensures Contents() == Perform(old(Contents()), Revoke(client, key), fault)
      ensures done == Report(old(Rows()), Revoke(client, key), fault)
      ensures clients == old(clients) && keys.Keys == old(keys).Keys
      ensures forall k | k in keys :: keys[k] == old(keys)[k].(revoked := keys[k].revoked)
      ensures forall k | k in keys ::
                keys[k].revoked <==> old(keys)[k].revoked || (k == key && old(keys)[k].owner == client && fault != CommitFails)
    {
      if key !in keys || keys[key].owner != client {
        return Err(NotFound);
      }
      if fault == CommitFails {
        return Err(DatabaseError);
      }
      EditKeepsSound(Rows(), Revoke(client, key));
      keys := keys[key := keys[key].(revoked := true)];
      done := FinishWith(fault);
    }
  }

  // ----- What a request presents -----

  function SplitOnce(s: string): Option<(string, string)> {
    if s == "" then None
    else if s[0] == ' ' then Some(("", s[1..]))
    else
      var rest := SplitOnce(s[1..]);
      if rest.None? then None else Some(([s[0]] + rest.value.0, rest.value.1))
  }

  function RawKey(authorization: Option<string>, apiKeyHeader: Option<string>): Option<string> {
    if apiKeyHeader.GetOr("") != "" then apiKeyHeader
    else if authorization.GetOr("") == "" then None
    else
      var parts := SplitOnce(authorization.value);
      if parts.None? || Lower(parts.value.0) != "bearer" then None else Some(parts.value.1)
  }

  lemma {:induction false} SplitOnceAt(scheme: string, token: string)
    requires ' ' !in scheme
    ensures SplitOnce(scheme + " " + token) == Some((scheme, token))
  {
    var s := scheme + " " + token;
    if scheme == "" {
      assert s[1..] == token;
    } else {
      assert s[0] == scheme[0] && s[1..] == scheme[1..] + " " + token;
      assert [scheme[0]] + scheme[1..] == scheme;
      SplitOnceAt(scheme[1..], token);
    }
  }

  /** The scheme is read in any case and only up to the first space; a header without one presents nothing. */
  lemma BearerIsRead(scheme: string, token: string)
    requires ' ' !in scheme
    ensures RawKey(Some(scheme + " " + token), None) == if Lower(scheme) == "bearer" then Some(token) else None
    ensures RawKey(Some(scheme), None) == None
    ensures RawKey(None, None) == None
  {
    SplitOnceAt(scheme, token);
    NoSpaceNoSplit(scheme);
  }

  lemma {:induction false} NoSpaceNoSplit(s: string)
    requires ' ' !in s
    ensures SplitOnce(s) == None
  {
    if s != "" {
      NoSpaceNoSplit(s[1..]);
    }
  }

  /** A key in a header of its own is what is presented, whatever the other header says; an empty one is not there. */
  lemma OwnHeaderComesFirst(authorization: Option<string>, key: string)
    ensures key != "" ==> RawKey(authorization, Some(key)) == Some(key)
    ensures RawKey(authorization, Some("")) == RawKey(authorization, None)
  {
  }

  predicate ValidateApiKey(cache: Cache, hash: string -> string, authorization: Option<string>, apiKeyHeader: Option<string>) {
    var raw := RawKey(authorization, apiKeyHeader).GetOr("");
    raw != "" && hash(raw) in cache.hashes
  }

  function ResolvePrincipal(cache: Cache, hash: string -> string, authorization: Option<string>, apiKeyHeader: Option<string>):
    Option<(int, int)>
  {
    var raw := RawKey(authorization, apiKeyHeader).GetOr("");
    if raw == "" then None
    else
      var entry := Lookup(cache.lookup, hash(raw));
      if entry.None? then None else Some((entry.value.client, entry.value.key))
  }

  function ResolveRequesterRole(cache: Cache, hash: string -> string, authorization: Option<string>, apiKeyHeader: Option<string>):
    Option<string>
  {
    var raw := RawKey(authorization, apiKeyHeader).GetOr("");
    if raw == "" then None
    else
      var entry := Lookup(cache.lookup, hash(raw));
      if entry.None? then None else Some(if entry.value.privileged then "admin" else "client")
  }

  // ----- Runs -----

  datatype Event = Event(action: Action, fault: Fault)

  /** The state after a run of actions, each completed before the next. */
  ghost function Run(s: State, events: seq<Event>): (s': State)
    requires Sound(s.tables)
    ensures Sound(s'.tables)
  {
    if events == [] then s
    else
      var last := events[|events| - 1];
      Perform(Run(s, events[..|events| - 1]), last.action, last.fault)
  }

  ghost predicate Coherent(s: State) {
    Sound(s.tables) && s.cache == CacheOf(s.tables)
  }

  /** An action that edits the tables and gets to rebuild the index. */
  predicate Refreshes(t: Tables, event: Event) {
    Committed(t, event.action, event.fault).Ok? && !event.action.Create? && event.fault != RefreshFails
  }

  /** One that edits the tables without doing so, in a way the index would show. */
  predicate LeavesStale(t: Tables, event: Event) {
    Committed(t, event.action, event.fault).Ok? && !event.action.Create? && event.fault == RefreshFails
  }

  /** A client that has only just been created owns no key, so the index does not change. */
  lemma CreateKeepsCache(t: Tables, a: Action)
    requires Sound(t) && a.Create? && Edit(t, a).Ok?
    ensures Sound(Edit(t, a).value) && CacheOf(Edit(t, a).value) == CacheOf(t)
  {
    EditKeepsSound(t, a);
    var t' := Edit(t, a).value;
    assert t'.keys == t.keys;
    assert forall id :: IsLive(t', id) <==> IsLive(t, id);
    assert forall id | IsLive(t, id) :: EntryOf(t', id) == EntryOf(t, id);
    forall hash | hash in CacheOf(t').lookup ensures IsEntry(CacheOf(t').lookup[hash], hash, t, t.keys.Keys) {
      assert IsEntry(CacheOf(t').lookup[hash], hash, t', t.keys.Keys);
    }
    OneIndex(CacheOf(t').lookup, CacheOf(t).lookup, t, t.keys.Keys);
  }

  /** Some refresh failed after its edit and none has succeeded since: what it takes to lose coherence. */
  ghost predicate Stale(s: State, events: seq<Event>)
    requires Sound(s.tables)
  {
    events != [] &&
    var n := |events| - 1;
    var t := Run(s, events[..n]).tables;
    LeavesStale(t, events[n]) || (!Refreshes(t, events[n]) && Stale(s, events[..n]))
  }

  lemma {:induction false} CoherentUnlessStale(s: State, events: seq<Event>)
    requires Coherent(s)
    ensures !Stale(s, events) ==> Coherent(Run(s, events))
  {
    if events != [] {
      var n := |events| - 1;
      CoherentUnlessStale(s, events[..n]);
      var before := Run(s, events[..n]);
      if events[n].action.Create? && Committed(before.tables, events[n].action, events[n].fault).Ok? {
        CreateKeepsCache(before.tables, events[n].action);
      }
    }
  }

  /** The tables as the last refresh found them, or as they were at the start. */
  ghost function LastRefreshed(s: State, events: seq<Event>): (t: Tables)
    requires Sound(s.tables)
    ensures Sound(t)
  {
    if events == [] then s.tables
    else
      var n := |events| - 1;
      if Refreshes(Run(s, events[..n]).tables, events[n]) then Run(s, events).tables else LastRefreshed(s, events[..n])
  }

  /** The same keys are live, under the same hashes, for the same clients and with the same privilege. */
  ghost predicate SameLive(a: Tables, b: Tables) {
    forall id ::
      && (IsLive(a, id) <==> IsLive(b, id))
      && (IsLive(a, id) ==> a.keys[id].hash == b.keys[id].hash && EntryOf(a, id) == EntryOf(b, id))
  }

  lemma {:induction false} CacheIsOfLastRefresh(s: State, events: seq<Event>)
    requires Coherent(s)
    ensures Run(s, events).cache == CacheOf(LastRefreshed(s, events))
  {
    if events != [] {
      CacheIsOfLastRefresh(s, events[..|events| - 1]);
    }
  }

  lemma SameCacheIffSameLive(a: Tables, b: Tables)
    requires Sound(a) && Sound(b)
    ensures CacheOf(a) == CacheOf(b) <==> SameLive(a, b)
  {
    if CacheOf(a) == CacheOf(b) {
      forall id
        ensures IsLive(a, id) <==> IsLive(b, id)
        ensures IsLive(a, id) ==> a.keys[id].hash == b.keys[id].hash && EntryOf(a, id) == EntryOf(b, id)
      {
        if IsLive(a, id) {
          LookupFinds(a, id, a.keys[id].hash);
          LookupFinds(b, id, a.keys[id].hash);
        }
        if IsLive(b, id) {
          LookupFinds(a, id, b.keys[id].hash);
          LookupFinds(b, id, b.keys[id].hash);
        }
      }
    }
    if SameLive(a, b) {
      forall hash | hash in CacheOf(a).lookup ensures IsEntry(CacheOf(a).lookup[hash], hash, b, b.keys.Keys) {
        assert IsEntry(CacheOf(a).lookup[hash], hash, a, a.keys.Keys);
      }
      OneIndex(CacheOf(a).lookup, CacheOf(b).lookup, b, b.keys.Keys);
    }
  }

  /**
   * After any run of actions the index is coherent with the tables exactly
   * when the live keys are those the last refresh found.
   */
  lemma CoherentIffSameLive(s: State, events: seq<Event>)
    requires Coherent(s)
    ensures Coherent(Run(s, events)) <==> SameLive(LastRefreshed(s, events), Run(s, events).tables)
  {
    CacheIsOfLastRefresh(s, events);
    SameCacheIffSameLive(LastRefreshed(s, events), Run(s, events).tables);
  }

  lemma {:induction false} HashesAreLookupKeys(s: State, events: seq<Event>)
    requires Sound(s.tables) && s.cache.hashes == s.cache.lookup.Keys
    ensures Run(s, events).cache.hashes == Run(s, events).cache.lookup.Keys
  {
    if events != [] {
      HashesAreLookupKeys(s, events[..|events| - 1]);
    }
  }

  predicate Admits(t: Tables, id: int, digest: string) {
    IsLive(t, id) && t.keys[id].hash == digest
  }

  lemma LookupFinds(t: Tables, id: int, digest: string)
    requires Sound(t)
    ensures Admits(t, id, digest) <==>
            Lookup(CacheOf(t).lookup, digest).Some? && CacheOf(t).lookup[digest].key == id
    ensures Admits(t, id, digest) ==> CacheOf(t).lookup[digest] == EntryOf(t, id)
  {
    var lookup := CacheOf(t).lookup;
    if digest in lookup {
      assert IsEntry(lookup[digest], digest, t, t.keys.Keys);
    }
  }

  /**
   * After any run that leaves the live keys as the last refresh found them, a
   * key is accepted exactly when it hashes to an unrevoked key of an enabled
   * client, and then it names that key and that client, as an admin exactly if
   * the client is privileged.
   */
  lemma KeyCacheCoherence(s: State, events: seq<Event>, hash: string -> string, authorization: Option<string>,
                          header: Option<string>, id: int)
    requires Coherent(s) && SameLive(LastRefreshed(s, events), Run(s, events).tables)
    ensures var t, cache := Run(s, events).tables, Run(s, events).cache;
            var raw := RawKey(authorization, header).GetOr("");
            && (ValidateApiKey(cache, hash, authorization, header) <==>
                raw != "" && exists k | k in t.keys :: Admits(t, k, hash(raw)))
            && (raw != "" && Admits(t, id, hash(raw)) <==>
                id in t.keys && ResolvePrincipal(cache, hash, authorization, header) == Some((t.keys[id].owner, id)))
            && (raw != "" && Admits(t, id, hash(raw)) ==>
                ResolveRequesterRole(cache, hash, authorization, header) ==
                Some(if t.clients[t.keys[id].owner].privileged then "admin" else "client"))
            && (ValidateApiKey(cache, hash, authorization, header) <==>
                ResolveRequesterRole(cache, hash, authorization, header).Some?)
  {
    CoherentIffSameLive(s, events);
    var t, lookup := Run(s, events).tables, Run(s, events).cache.lookup;
    var digest := hash(RawKey(authorization, header).GetOr(""));
    LookupFinds(t, id, digest);
    if digest in lookup {
      LookupFinds(t, lookup[digest].key, digest);
    }
    if k :| k in t.keys && Admits(t, k, digest) {
      LookupFinds(t, k, digest);
    }
  }

  // ----- What one action changes -----

  /** The verdict on a digest. */
  predicate Accepts(s: State, digest: string) {
    digest in s.cache.hashes
  }

  /** Minting a key for an enabled client admits that key and changes no other verdict. */
  lemma MintAdmitsItsKeyOnly(s: State, client: int, id: int, caption: string, minted: string, digest: string)
    requires Coherent(s) && Edit(s.tables, Mint(client, id, caption, minted)).Ok?
    ensures var s' := Perform(s, Mint(client, id, caption, minted), NoFault);
            Accepts(s', digest) <==>
            if digest == minted then !s.tables.clients[client].disabled else Accepts(s, digest)
  {
    var a := Mint(client, id, caption, minted);
    EditKeepsSound(s.tables, a);
    VerdictIs(s.tables, digest);
    VerdictIs(Edit(s.tables, a).value, digest);
    MintedRows(s.tables, client, id, caption, minted, digest);
  }

  lemma MintedRows(t: Tables, client: int, id: int, caption: string, minted: string, digest: string)
    requires Sound(t) && Edit(t, Mint(client, id, caption, minted)).Ok?
    ensures var t' := Edit(t, Mint(client, id, caption, minted)).value;
            && id in t'.keys
            && (forall k | k in t'.keys ::
                  Admits(t', k, digest) <==>
                  if k == id then digest == minted && !t.clients[client].disabled else k in t.keys && Admits(t, k, digest))
            && (forall k | k in t.keys :: k in t'.keys && k != id)
            && (digest == minted ==> forall k | k in t.keys :: !Admits(t, k, digest))
  {
  }

  /** Revoking a key refuses that key and changes no other verdict. */
  lemma RevokeRefusesItsKeyOnly(s: State, client: int, key: int, digest: string)
    requires Coherent(s) && Edit(s.tables, Revoke(client, key)).Ok?
    ensures var s' := Perform(s, Revoke(client, key), NoFault);
            Accepts(s', digest) <==> digest != s.tables.keys[key].hash && Accepts(s, digest)
  {
    var a := Revoke(client, key);
    EditKeepsSound(s.tables, a);
    VerdictIs(s.tables, digest);
    VerdictIs(Edit(s.tables, a).value, digest);
    RevokedRows(s.tables, client, key, digest);
  }

  lemma RevokedRows(t: Tables, client: int, key: int, digest: string)
    requires Sound(t) && Edit(t, Revoke(client, key)).Ok?
    ensures var t' := Edit(t, Revoke(client, key)).value;
            && t'.keys.Keys == t.keys.Keys
            && (forall k | k in t.keys :: Admits(t', k, digest) <==> k != key && Admits(t, k, digest))
            && (forall k | k in t.keys && Admits(t, k, digest) :: k == key <==> digest == t.keys[key].hash)
  {
  }

  lemma VerdictIs(t: Tables, digest: string)
    requires Sound(t)
    ensures digest in CacheOf(t).hashes <==> exists k | k in t.keys :: Admits(t, k, digest)
  {
    if digest in CacheOf(t).lookup {
      LookupFinds(t, CacheOf(t).lookup[digest].key, digest);
    }
    if k :| k in t.keys && Admits(t, k, digest) {
      LookupFinds(t, k, digest);
    }
  }

  /** No key row that is not revoked carries this digest: it was revoked, or its row deleted, or never minted. */
  ghost predicate Gone(t: Tables, digest: string) {
    forall k | k in t.keys && t.keys[k].hash == digest :: t.keys[k].revoked
  }

  /** An event that mints the digest anew. */
  predicate Mints(t: Tables, event: Event, digest: string) {
    event.action.Mint? && event.action.hash == digest && Committed(t, event.action, event.fault).Ok?
  }

  lemma EditKeepsGone(t: Tables, a: Action, digest: string)
    requires Gone(t, digest) && Edit(t, a).Ok? && !(a.Mint? && a.hash == digest)
    ensures Gone(Edit(t, a).value, digest)
  {
  }

  lemma {:induction false} GoneStaysGone(s: State, events: seq<Event>, digest: string)
    requires Sound(s.tables) && Gone(s.tables, digest)
    requires forall i | 0 <= i < |events| :: !Mints(Run(s, events[..i]).tables, events[i], digest)
    ensures Gone(Run(s, events).tables, digest)
  {
    if events != [] {
      var n := |events| - 1;
      var front := events[..n];
      forall i | 0 <= i < n ensures !Mints(Run(s, front[..i]).tables, front[i], digest) {
        assert front[..i] == events[..i];
      }
      GoneStaysGone(s, front, digest);
      var t := Run(s, front).tables;
      assert !Mints(t, events[n], digest);
      if Committed(t, events[n].action, events[n].fault).Ok? {
        EditKeepsGone(t, events[n].action, digest);
      }
    }
  }

  /**
   * A digest whose key was revoked or deleted is not accepted by any later
   * coherent index, whatever actions follow and whatever ids they reuse, unless
   * one of them mints that very digest.
   */
  lemma RevokedStaysRevoked(s: State, events: seq<Event>, digest: string)
    requires Sound(s.tables) && Gone(s.tables, digest)
    requires forall i | 0 <= i < |events| :: !Mints(Run(s, events[..i]).tables, events[i], digest)
    ensures Coherent(Run(s, events)) ==> !Accepts(Run(s, events), digest)
  {
    GoneStaysGone(s, events, digest);
    VerdictIs(Run(s, events).tables, digest);
  }

  /** And while its revoked row is there it cannot be minted again. */
  lemma RevokedIsNotMinted(t: Tables, event: Event, key: int)
    requires key in t.keys && t.keys[key].revoked
    ensures !Mints(t, event, t.keys[key].hash)
  {
  }

  /** Revoking a key, or deleting its client, leaves no such row. */
  lemma RevokingMakesGone(t: Tables, a: Action, key: int)
    requires Sound(t) && key in t.keys && Edit(t, a).Ok?
    requires (a.Revoke? && a.key == key) || (a.Delete? && a.client == t.keys[key].owner)
    ensures Gone(Edit(t, a).value, t.keys[key].hash)
  {
  }

  lemma RunOfOne(s: State, event: Event)
    requires Sound(s.tables)
    ensures Run(s, [event]) == Perform(s, event.action, event.fault)
    ensures Stale(s, [event]) <==> LeavesStale(s.tables, event)
  {
    var none: seq<Event> := [event][..|[event]| - 1];
    assert none == [] && Run(s, none) == s;
  }

  /** When the refresh after a disabling fails, the client's key goes on being accepted. */
  lemma FailedRefreshKeepsKeyAlive() returns (s: State)
    ensures Coherent(s) && s.tables.clients.Keys == {1} && Accepts(s, "k")
    ensures var s' := Run(s, [Event(Disable(1), RefreshFails)]);
            && Stale(s, [Event(Disable(1), RefreshFails)])
            && s'.tables.clients[1].disabled && Accepts(s', "k") && !Coherent(s')
  {
    var t := Tables(map[1 := Client("app", "app", None, false, false)], map[1 := ApiKey(1, "default", "k", false)]);
    s := State(t, CacheOf(t));
    assert Admits(t, 1, "k");
    VerdictIs(t, "k");
    var event := Event(Disable(1), RefreshFails);
    RunOfOne(s, event);
    VerdictIs(Run(s, [event]).tables, "k");
  }
}
