/**
 Concurrent requests refreshing the one OAuth credential they all use:
 a transition system whose steps are what runs between two suspensions. The
 requests share the credential row, the token file and one lock.
*/
module OAuthRefresh {
  import opened Wrappers

  const SKEW := 300

  datatype Kind = Anthropic | Codex

  datatype Row = Row(access: Option<string>, expires: Option<int>)

  datatype File =
    | Unusable
    | ApiKey(key: string)
    | Tokens(access: string, refresh: string, expires: Option<int>)

  datatype Phase =
    | Idle
    | Waiting
    | Rechecking
    | Calling(presented: string)
    | Committing(access: string, expires: Option<int>)
    | Served(token: string)
    | Refused

  /**
   * `received` holds every refresh token known for the file, oldest first;
   * `lost` says the newest of them never reached the file.
   */
  datatype State = State(
    kind: Kind,
    row: Row,
    file: File,
    now: int,
    holder: Option<nat>,
    phases: map<nat, Phase>,
    received: seq<string>,
    lost: bool
  )

  /** What the token endpoint answered: a token, maybe a rotated refresh token, and the expiry in the token. */
  datatype Answer = Answer(access: string, refresh: string, claim: Option<int>, ttl: nat)

  datatype Event =
    | Tick(to: int)
    | Outside(file: File)
    | Arrive(id: nat, snapshot: Row)
    | Acquire(id: nat)
    | Recheck(id: nat)
    | Respond(id: nat, answer: Answer)
    | RespondUnwritten(id: nat, answer: Answer)
    | Commit(id: nat)
    | GiveUp(id: nat)

  predicate RowFresh(row: Row, now: int) {
    row.access.GetOr("") != "" && row.expires.Some? && row.expires.value - SKEW > now
  }

  predicate FileFresh(file: File, now: int) {
    file.Tokens? && file.expires.Some? && file.expires.value - SKEW > now
  }

  function PhaseOf(s: State, id: nat): Phase {
    if id in s.phases then s.phases[id] else Idle
  }

  predicate InSection(p: Phase) {
    p.Rechecking? || p.Calling? || p.Committing?
  }

  function Newest(s: State): string
    requires s.received != []
  {
    s.received[|s.received| - 1]
  }

  /** The endpoint repeats the token it was shown, sends none, or sends one never seen before. */
  predicate Rotates(answer: Answer, presented: string) {
    answer.refresh != "" && answer.refresh != presented
  }

  predicate Enabled(s: State, e: Event) {
    match e
    case Tick(to) => s.now <= to
    case Outside(_) => true
    case Arrive(id, _) => PhaseOf(s, id).Idle?
    case Acquire(id) => PhaseOf(s, id).Waiting? && s.holder.None?
    case Recheck(id) => PhaseOf(s, id).Rechecking?
    case Respond(id, answer) =>
      && PhaseOf(s, id).Calling?
      && (Rotates(answer, PhaseOf(s, id).presented) ==> answer.refresh !in s.received)
      && (s.kind.Codex? ==> !s.file.Unusable?)
    case RespondUnwritten(id, answer) =>
      && PhaseOf(s, id).Calling? && s.kind.Codex?
      && (Rotates(answer, PhaseOf(s, id).presented) ==> answer.refresh !in s.received)
    case Commit(id) => PhaseOf(s, id).Committing?
    case GiveUp(id) => PhaseOf(s, id).Waiting? || InSection(PhaseOf(s, id))
  }

  function Move(s: State, id: nat, p: Phase): State {
    s.(phases := s.phases[id := p])
  }

  /** Leaving the lock's scope, whether by returning or by raising. */
  function Leave(s: State, id: nat, p: Phase): State {
    s.(phases := s.phases[id := p], holder := None)
  }

  function Received(s: State, answer: Answer, presented: string): seq<string> {
    if Rotates(answer, presented) then s.received + [answer.refresh] else s.received
  }

  /** Codex writes the tokens back to the file; the Anthropic flow reads no rotated token at all. */
  function WrittenFile(s: State, answer: Answer): File {
    if s.kind.Anthropic? || !s.file.Tokens? then s.file
    else Tokens(answer.access, if answer.refresh != "" then answer.refresh else s.file.refresh, answer.claim)
  }

  /** Codex reads the expiry in the token, if there is one; otherwise it is as long from now as the answer says. */
  function ExpiryOf(s: State, answer: Answer): int {
    if s.kind.Codex? && answer.claim.Some? then answer.claim.value else s.now + answer.ttl
  }

  function Apply(s: State, e: Event): State
    requires Enabled(s, e)
  {
    match e
    case Tick(to) => s.(now := to)
    case Outside(file) => s.(file := file)
    case Arrive(id, snapshot) =>
      if RowFresh(snapshot, s.now) then Move(s, id, Served(snapshot.access.value))
      else if s.kind.Codex? && s.file.Unusable? then Move(s, id, Refused)
      else if s.kind.Codex? && s.file.ApiKey? then Move(s, id, Served(s.file.key))
      else Move(s, id, Waiting)
    case Acquire(id) =>
      Move(s, id, Rechecking).(holder := Some(id))
    case Recheck(id) =>
      if RowFresh(s.row, s.now) then Leave(s, id, Served(s.row.access.value))
      else if !s.file.Tokens? then Leave(s, id, Refused)
      else if FileFresh(s.file, s.now) then Move(s, id, Committing(s.file.access, s.file.expires))
      else Move(s, id, Calling(s.file.refresh))
    case Respond(id, answer) =>
      var presented := PhaseOf(s, id).presented;
      Move(s, id, Committing(answer.access, Some(ExpiryOf(s, answer)))).(
        file := WrittenFile(s, answer),
        received := Received(s, answer, presented),
        lost := if Rotates(answer, presented) then s.kind.Anthropic? || !s.file.Tokens? else s.lost)
    case RespondUnwritten(id, answer) =>
      var presented := PhaseOf(s, id).presented;
      Leave(s, id, Refused).(
        received := Received(s, answer, presented),
        lost := s.lost || Rotates(answer, presented))
    case Commit(id) =>
      var p := PhaseOf(s, id);
      Leave(s, id, Served(p.access)).(row := Row(Some(p.access), p.expires))
    case GiveUp(id) =>
      if PhaseOf(s, id).Waiting? then Move(s, id, Refused) else Leave(s, id, Refused)
  }

  /** The states a list of events leads through, from the first. */
  ghost predicate IsRun(events: seq<Event>, states: seq<State>) {
    && |states| == |events| + 1
    && forall i | 0 <= i < |events| :: Enabled(states[i], events[i]) && states[i + 1] == Apply(states[i], events[i])
  }

  /** Nobody is being served yet, and the refresh token in the file is the only one known. */
  ghost predicate Initial(s: State) {
    s.holder.None? && s.phases == map[] && !s.lost && s.file.Tokens? && s.received == [s.file.refresh]
  }

  // ----- At most one request inside the lock -----

  ghost predicate Exclusive(s: State) {
    forall id: nat :: InSection(PhaseOf(s, id)) <==> s.holder == Some(id)
  }

  lemma StepKeepsExclusive(s: State, e: Event)
    requires Exclusive(s) && Enabled(s, e)
    ensures Exclusive(Apply(s, e))
  {
    var s' := Apply(s, e);
    forall id: nat ensures InSection(PhaseOf(s', id)) <==> s'.holder == Some(id) {
      assert InSection(PhaseOf(s, id)) <==> s.holder == Some(id);
    }
  }

  lemma {:induction false} RunIsExclusive(events: seq<Event>, states: seq<State>, i: nat)
    requires IsRun(events, states) && Exclusive(states[0]) && i < |states|
    ensures Exclusive(states[i])
  {
    if i > 0 {
      RunIsExclusive(events, states, i - 1);
      StepKeepsExclusive(states[i - 1], events[i - 1]);
    }
  }

  /** In every interleaving, two requests are never both inside the refresh section. */
  lemma AtMostOneRefreshes(events: seq<Event>, states: seq<State>, i: nat, a: nat, b: nat)
    requires IsRun(events, states) && Initial(states[0]) && i < |states|
    requires InSection(PhaseOf(states[i], a)) && InSection(PhaseOf(states[i], b))
    ensures a == b
  {
    RunIsExclusive(events, states, i);
    assert states[i].holder == Some(a) && states[i].holder == Some(b);
  }

  // ----- When a refresh call is made -----

  /** The `i`-th step sends a refresh call. */
  ghost predicate CallsAt(events: seq<Event>, states: seq<State>, i: nat)
    requires IsRun(events, states)
  {
    i < |events| && exists id: nat :: !PhaseOf(states[i], id).Calling? && PhaseOf(states[i + 1], id).Calling?
  }

  lemma CallIsRecheck(s: State, e: Event, id: nat)
    requires Enabled(s, e) && !PhaseOf(s, id).Calling? && PhaseOf(Apply(s, e), id).Calling?
    ensures e == Recheck(id) && s.file.Tokens? && PhaseOf(Apply(s, e), id) == Calling(s.file.refresh)
    ensures !RowFresh(s.row, s.now) && !FileFresh(s.file, s.now)
  {
  }

  /** A refresh call is sent only when both the re-read row and the file token are stale. */
  lemma CallOnlyWhenStale(events: seq<Event>, states: seq<State>, i: nat)
    requires IsRun(events, states) && CallsAt(events, states, i)
    ensures !RowFresh(states[i].row, states[i].now) && !FileFresh(states[i].file, states[i].now)
  {
    var id: nat :| !PhaseOf(states[i], id).Calling? && PhaseOf(states[i + 1], id).Calling?;
    CallIsRecheck(states[i], events[i], id);
  }

  lemma {:induction false} ClockNeverGoesBack(events: seq<Event>, states: seq<State>, i: nat, j: nat)
    requires IsRun(events, states) && i <= j < |states|
    ensures states[i].now <= states[j].now
    decreases j - i
  {
    if i < j {
      ClockNeverGoesBack(events, states, i, j - 1);
    }
  }

  /** The row holds `row`, and nobody is about to change it. */
  ghost predicate Settled(s: State, row: Row) {
    s.row == row && forall id: nat :: !PhaseOf(s, id).Calling? && !PhaseOf(s, id).Committing?
  }

  lemma StepKeepsSettled(s: State, e: Event, row: Row)
    requires Enabled(s, e) && Settled(s, row) && RowFresh(row, s.now)
    ensures Settled(Apply(s, e), row)
  {
    var s' := Apply(s, e);
    forall id: nat ensures !PhaseOf(s', id).Calling? && !PhaseOf(s', id).Committing? {
      assert !PhaseOf(s, id).Calling? && !PhaseOf(s, id).Committing?;
    }
  }

  lemma {:induction false} FreshRowStays(events: seq<Event>, states: seq<State>, i: nat, j: nat, row: Row)
    requires IsRun(events, states) && i <= j < |states|
    requires Settled(states[i], row) && RowFresh(row, states[j].now)
    ensures Settled(states[j], row)
    decreases j - i
  {
    if i < j {
      ClockNeverGoesBack(events, states, j - 1, j);
      FreshRowStays(events, states, i, j - 1, row);
      StepKeepsSettled(states[j - 1], events[j - 1], row);
    }
  }

  lemma CommitSettles(s: State, id: nat)
    requires Exclusive(s) && Enabled(s, Commit(id))
    ensures Settled(Apply(s, Commit(id)), Apply(s, Commit(id)).row)
  {
    var s' := Apply(s, Commit(id));
    forall other: nat ensures !PhaseOf(s', other).Calling? && !PhaseOf(s', other).Committing? {
      assert InSection(PhaseOf(s, other)) <==> s.holder == Some(other);
      assert InSection(PhaseOf(s, id)) <==> s.holder == Some(id);
    }
  }

  /** After a committed refresh, no request sends another while the committed token stays fresh. */
  lemma NoCallWhileCommittedTokenIsFresh(events: seq<Event>, states: seq<State>, i: nat, j: nat)
    requires IsRun(events, states) && Initial(states[0])
    requires i < j < |events| && events[i].Commit? && CallsAt(events, states, j)
    ensures !RowFresh(states[i + 1].row, states[j].now)
  {
    if RowFresh(states[i + 1].row, states[j].now) {
      RunIsExclusive(events, states, i);
      CommitSettles(states[i], events[i].id);
      FreshRowStays(events, states, i + 1, j, states[i + 1].row);
      CallOnlyWhenStale(events, states, j);
    }
  }

  // ----- A received token outlives a failed commit -----

  /** The file holds `file`, and nobody is waiting for the endpoint. */
  ghost predicate OnDisk(s: State, file: File) {
    s.file == file && forall id: nat :: !PhaseOf(s, id).Calling?
  }

  lemma StepKeepsOnDisk(s: State, e: Event, file: File)
    requires Enabled(s, e) && !e.Outside? && OnDisk(s, file) && FileFresh(file, s.now)
    ensures OnDisk(Apply(s, e), file)
  {
    var s' := Apply(s, e);
    forall id: nat ensures !PhaseOf(s', id).Calling? {
      assert !PhaseOf(s, id).Calling?;
    }
  }

  lemma {:induction false} FreshFileStays(events: seq<Event>, states: seq<State>, i: nat, j: nat, file: File)
    requires IsRun(events, states) && i <= j < |states|
    requires forall k | i <= k < j :: !events[k].Outside?
    requires OnDisk(states[i], file) && FileFresh(file, states[j].now)
    ensures OnDisk(states[j], file)
    decreases j - i
  {
    if i < j {
      ClockNeverGoesBack(events, states, j - 1, j);
      FreshFileStays(events, states, i, j - 1, file);
      StepKeepsOnDisk(states[j - 1], events[j - 1], file);
    }
  }

  lemma RespondLeavesNoCaller(s: State, id: nat, answer: Answer)
    requires Exclusive(s) && Enabled(s, Respond(id, answer))
    ensures OnDisk(Apply(s, Respond(id, answer)), Apply(s, Respond(id, answer)).file)
  {
    var s' := Apply(s, Respond(id, answer));
    forall other: nat ensures !PhaseOf(s', other).Calling? {
      assert InSection(PhaseOf(s, other)) <==> s.holder == Some(other);
      assert InSection(PhaseOf(s, id)) <==> s.holder == Some(id);
    }
  }

  /**
   * Once a Codex answer is on disk no request sends another call while that
   * token stays fresh, even if its own commit failed or was cancelled: the
   * next waiter adopts the file's token instead.
   */
  lemma NoCallWhileReceivedTokenIsFresh(events: seq<Event>, states: seq<State>, i: nat, j: nat)
    requires IsRun(events, states) && Initial(states[0])
    requires i < j < |events| && events[i].Respond? && CallsAt(events, states, j)
    requires states[i].kind.Codex? && states[i].file.Tokens?
    requires forall k | i < k < j :: !events[k].Outside?
    ensures !FileFresh(Tokens(events[i].answer.access, "", events[i].answer.claim), states[j].now)
  {
    var file := states[i + 1].file;
    assert file.Tokens? && file.expires == events[i].answer.claim;
    if FileFresh(file, states[j].now) {
      RunIsExclusive(events, states, i);
      RespondLeavesNoCaller(states[i], events[i].id, events[i].answer);
      FreshFileStays(events, states, i + 1, j, file);
      CallOnlyWhenStale(events, states, j);
    }
  }

  // ----- The chain of refresh tokens -----

  ghost predicate AllDifferent(tokens: seq<string>) {
    forall m, n | 0 <= m < n < |tokens| :: tokens[m] != tokens[n]
  }

  /** The file's refresh token is one of those known: the newest, unless that one was lost. */
  ghost predicate Chained(s: State) {
    && s.file.Tokens? && s.received != []
    && AllDifferent(s.received)
    && s.file.refresh in s.received
    && (s.file.refresh == Newest(s) <==> !s.lost)
    && forall id: nat :: PhaseOf(s, id).Calling? ==> PhaseOf(s, id).presented == s.file.refresh
  }

  lemma DifferentSnoc(tokens: seq<string>, token: string)
    requires AllDifferent(tokens) && token !in tokens
    ensures AllDifferent(tokens + [token])
  {
  }

  /** The one caller leaves the call when it is answered. */
  lemma AnswerEndsCalls(s: State, e: Event)
    requires Enabled(s, e) && Exclusive(s) && (e.Respond? || e.RespondUnwritten?)
    ensures forall id: nat :: !PhaseOf(Apply(s, e), id).Calling?
  {
    assert InSection(PhaseOf(s, e.id));
    forall id: nat ensures !PhaseOf(Apply(s, e), id).Calling? {
      if id != e.id {
        assert PhaseOf(Apply(s, e), id) == PhaseOf(s, id);
        assert InSection(PhaseOf(s, id)) ==> s.holder == Some(id);
      }
    }
  }

  lemma StepKeepsChained(s: State, e: Event)
    requires Enabled(s, e) && !e.Outside? && Chained(s) && Exclusive(s)
    ensures Chained(Apply(s, e))
  {
    var s' := Apply(s, e);
    if e.Respond? || e.RespondUnwritten? {
      AnswerEndsCalls(s, e);
      assert PhaseOf(s, e.id).presented == s.file.refresh;
      if Rotates(e.answer, s.file.refresh) {
        DifferentSnoc(s.received, e.answer.refresh);
      }
    } else {
      forall id: nat | PhaseOf(s', id).Calling? ensures PhaseOf(s', id).presented == s'.file.refresh {
        assert PhaseOf(s, id).Calling? || e == Recheck(id);
      }
    }
  }

  lemma {:induction false} RunIsChained(events: seq<Event>, states: seq<State>, i: nat)
    requires IsRun(events, states) && Initial(states[0]) && i < |states|
    requires forall k | 0 <= k < i :: !events[k].Outside?
    ensures Chained(states[i])
  {
    if i > 0 {
      RunIsChained(events, states, i - 1);
      RunIsExclusive(events, states, i - 1);
      StepKeepsChained(states[i - 1], events[i - 1]);
    }
  }

  // ----- When the newest token is on file -----

  /** Step `k` of a run brings an answer that replaces the refresh token. */
  ghost predicate RotatesAt(events: seq<Event>, states: seq<State>, k: nat)
    requires IsRun(events, states) && k < |events|
  {
    && (events[k].Respond? || events[k].RespondUnwritten?)
    && Rotates(events[k].answer, PhaseOf(states[k], events[k].id).presented)
  }

  /** A Codex answer that reached the file. */
  ghost predicate WrittenAt(events: seq<Event>, states: seq<State>, k: nat)
    requires IsRun(events, states) && k < |events|
  {
    events[k].Respond? && states[k].kind.Codex?
  }

  /** The last replacement before step `i`, if any, never reached the file. */
  ghost predicate LastUnwritten(events: seq<Event>, states: seq<State>, i: nat)
    requires IsRun(events, states) && i <= |events|
  {
    exists k | 0 <= k < i ::
      && RotatesAt(events, states, k) && !WrittenAt(events, states, k)
      && forall later | k < later < i :: !RotatesAt(events, states, later)
  }

  lemma LastUnwrittenStep(events: seq<Event>, states: seq<State>, i: nat)
    requires IsRun(events, states) && i < |events|
    ensures LastUnwritten(events, states, i + 1) <==>
            if RotatesAt(events, states, i) then !WrittenAt(events, states, i) else LastUnwritten(events, states, i)
  {
    if LastUnwritten(events, states, i + 1) {
      var k :| 0 <= k < i + 1 && RotatesAt(events, states, k) && !WrittenAt(events, states, k)
               && forall later | k < later < i + 1 :: !RotatesAt(events, states, later);
      assert k < i ==> !RotatesAt(events, states, i);
    }
    if !RotatesAt(events, states, i) && LastUnwritten(events, states, i) {
      var k :| 0 <= k < i && RotatesAt(events, states, k) && !WrittenAt(events, states, k)
               && forall later | k < later < i :: !RotatesAt(events, states, later);
      assert forall later | k < later < i + 1 :: !RotatesAt(events, states, later);
    }
  }

  lemma {:induction false} LostIffLastUnwritten(events: seq<Event>, states: seq<State>, i: nat)
    requires IsRun(events, states) && Initial(states[0]) && i < |states|
    requires forall k | 0 <= k < i :: !events[k].Outside?
    ensures states[i].lost <==> LastUnwritten(events, states, i)
  {
    if i > 0 {
      LostIffLastUnwritten(events, states, i - 1);
      LastUnwrittenStep(events, states, i - 1);
      RunIsChained(events, states, i - 1);
      LostStep(states[i - 1], events[i - 1]);
    }
  }

  lemma LostStep(s: State, e: Event)
    requires Enabled(s, e) && s.file.Tokens?
    ensures Apply(s, e).lost ==
            if (e.Respond? || e.RespondUnwritten?) && Rotates(e.answer, PhaseOf(s, e.id).presented)
            then !(e.Respond? && s.kind.Codex?) else s.lost
  {
  }

  /**
   * With no outside writer, a refresh call presents the newest refresh token
   * received exactly when the last answer that replaced the token was written
   * to the file; otherwise it presents one already replaced.
   */
  lemma RefreshTokenChain(events: seq<Event>, states: seq<State>, i: nat, id: nat)
    requires IsRun(events, states) && Initial(states[0]) && i < |events|
    requires forall k | 0 <= k < i :: !events[k].Outside?
    requires !PhaseOf(states[i], id).Calling? && PhaseOf(states[i + 1], id).Calling?
    ensures var s, presented := states[i], PhaseOf(states[i + 1], id).presented;
            && s.received != []
            && (presented == Newest(s) <==> !LastUnwritten(events, states, i))
            && (presented in s.received[..|s.received| - 1] <==> LastUnwritten(events, states, i))
  {
    LostIffLastUnwritten(events, states, i);
    RunIsChained(events, states, i);
    CallIsRecheck(states[i], events[i], id);
    var s, token := states[i], states[i].file.refresh;
    var n :| 0 <= n < |s.received| && s.received[n] == token;
    assert n < |s.received| - 1 ==> s.received[..|s.received| - 1][n] == token;
  }

  /** A token is lost only where a rotated one was not written: a failed write, or the Anthropic flow. */
  lemma {:induction false} NothingLostWithoutCause(events: seq<Event>, states: seq<State>, i: nat)
    requires IsRun(events, states) && Initial(states[0]) && i < |states|
    requires states[0].kind.Codex?
    requires forall k | 0 <= k < i :: !events[k].Outside? && !events[k].RespondUnwritten?
    ensures !states[i].lost && states[i].file.Tokens? && states[i].kind.Codex?
  {
    if i > 0 {
      NothingLostWithoutCause(events, states, i - 1);
    }
  }

  /** A request that finds nothing fresh and the lock free gets as far as a refresh call. */
  lemma StaleRequestCalls(s: State, id: nat) returns (a: State, b: State, c: State)
    requires PhaseOf(s, id).Idle? && s.holder.None? && s.kind.Codex? && s.file.Tokens?
    requires !RowFresh(s.row, s.now) && !FileFresh(s.file, s.now)
    ensures Enabled(s, Arrive(id, s.row)) && a == Apply(s, Arrive(id, s.row))
    ensures Enabled(a, Acquire(id)) && b == Apply(a, Acquire(id))
    ensures Enabled(b, Recheck(id)) && c == Apply(b, Recheck(id))
    ensures c == s.(phases := s.phases[id := Calling(s.file.refresh)], holder := Some(id))
  {
    a := Apply(s, Arrive(id, s.row));
    b := Apply(a, Acquire(id));
    c := Apply(b, Recheck(id));
  }

  /**
   * A write that fails after the endpoint rotated the token breaks the chain:
   * the next request presents the replaced one.
   */
  lemma FailedWriteBreaksChain(s: State, first: nat, second: nat, rotated: string)
    returns (events: seq<Event>, states: seq<State>)
    requires Initial(s) && s.kind.Codex? && first != second
    requires !RowFresh(s.row, s.now) && !FileFresh(s.file, s.now)
    requires rotated != "" && rotated != s.file.refresh
    ensures IsRun(events, states) && states[0] == s && |events| == 7
    ensures PhaseOf(states[7], second) == Calling(s.file.refresh)
    ensures states[7].received == [s.file.refresh, rotated]
  {
    var failed := RespondUnwritten(first, Answer("", rotated, None, 0));
    events := [
      Arrive(first, s.row), Acquire(first), Recheck(first), failed,
      Arrive(second, s.row), Acquire(second), Recheck(second)];
    var s1, s2, s3 := StaleRequestCalls(s, first);
    var s4 := Apply(s3, failed);
    var s5, s6, s7 := StaleRequestCalls(s4, second);
    states := [s, s1, s2, s3, s4, s5, s6, s7];
  }
}
