/**
 Which token a request is served: over every run, the row pairs one token with
 its own expiry, and nobody is served anything but a token that was obtained.
*/
module OAuthTokens {
  import opened Wrappers
  import opened OAuthRefresh

  // ----- Tokens obtained -----

  /** Still good for more than five minutes. */
  predicate IsGood(expires: Option<int>, now: int) {
    expires.Some? && expires.value > now + 300
  }

  /**
   * Step `j` gives request `id` a token: the endpoint's answer, with the expiry
   * a Codex token states or else the one counted from now, or the file's own
   * token where that is still good.
   */
  ghost predicate Obtains(events: seq<Event>, states: seq<State>, j: nat, id: nat, access: string, expires: Option<int>)
    requires IsRun(events, states) && j < |events|
  {
    match events[j]
    case Respond(asker, answer) =>
      && asker == id && access == answer.access
      && expires == Some(if states[j].kind.Codex? && answer.claim.Some? then answer.claim.value else states[j].now + answer.ttl)
    case Recheck(asker) =>
      && asker == id && states[j].file.Tokens? && IsGood(states[j].file.expires, states[j].now)
      && access == states[j].file.access && expires == states[j].file.expires
    case _ => false
  }

  predicate IsFor(e: Event, id: nat) {
    match e
    case Tick(_) => false
    case Outside(_) => false
    case Arrive(i, _) => i == id
    case Acquire(i) => i == id
    case Recheck(i) => i == id
    case Respond(i, _) => i == id
    case RespondUnwritten(i, _) => i == id
    case Commit(i) => i == id
    case GiveUp(i) => i == id
  }

  /** The last thing request `id` did before step `i` was to obtain this token. */
  ghost predicate JustObtained(events: seq<Event>, states: seq<State>, i: nat, id: nat, access: string, expires: Option<int>)
    requires IsRun(events, states) && i <= |events|
  {
    exists j | 0 <= j < i ::
      && Obtains(events, states, j, id, access, expires)
      && forall k | j < k < i :: !IsFor(events[k], id)
  }

  lemma ObtainedOneLater(events: seq<Event>, states: seq<State>, i: nat, id: nat, access: string, expires: Option<int>)
    requires IsRun(events, states) && i < |events|
    requires Obtains(events, states, i, id, access, expires)
             || (!IsFor(events[i], id) && JustObtained(events, states, i, id, access, expires))
    ensures JustObtained(events, states, i + 1, id, access, expires)
  {
    if !Obtains(events, states, i, id, access, expires) {
      var j :| 0 <= j < i && Obtains(events, states, j, id, access, expires)
               && forall k | j < k < i :: !IsFor(events[k], id);
      assert forall k | j < k < i + 1 :: !IsFor(events[k], id);
    }
  }

  /** How a request comes to hold a token it has yet to commit. */
  lemma CommittingStep(events: seq<Event>, states: seq<State>, i: nat, id: nat)
    requires IsRun(events, states) && i < |events| && PhaseOf(states[i + 1], id).Committing?
    ensures var p := PhaseOf(states[i + 1], id);
            || Obtains(events, states, i, id, p.access, p.expires)
            || (!IsFor(events[i], id) && PhaseOf(states[i], id) == p)
  {
    assert Enabled(states[i], events[i]) && states[i + 1] == Apply(states[i], events[i]);
  }

  lemma {:induction false} CommittingWasObtained(events: seq<Event>, states: seq<State>, i: nat, id: nat)
    requires IsRun(events, states) && Initial(states[0]) && i < |states|
    requires PhaseOf(states[i], id).Committing?
    ensures JustObtained(events, states, i, id, PhaseOf(states[i], id).access, PhaseOf(states[i], id).expires)
  {
    if i > 0 {
      var p := PhaseOf(states[i], id);
      CommittingStep(events, states, i - 1, id);
      if !Obtains(events, states, i - 1, id, p.access, p.expires) {
        CommittingWasObtained(events, states, i - 1, id);
      }
      ObtainedOneLater(events, states, i - 1, id, p.access, p.expires);
    }
  }

  // ----- The row -----

  /** Step `k` commits this row: a token the committing request had just obtained, with that token's expiry. */
  ghost predicate CommitsRow(events: seq<Event>, states: seq<State>, k: nat, row: Row)
    requires IsRun(events, states) && k < |events|
  {
    && events[k].Commit? && row.access.Some?
    && JustObtained(events, states, k, events[k].id, row.access.value, row.expires)
  }

  /** The row of the last commit before step `i`, or the one the run began with. */
  ghost predicate IsLastRow(events: seq<Event>, states: seq<State>, i: nat, row: Row)
    requires IsRun(events, states) && i <= |events|
  {
    || (row == states[0].row && forall k | 0 <= k < i :: !events[k].Commit?)
    || exists k | 0 <= k < i :: CommitsRow(events, states, k, row) && forall later | k < later < i :: !events[later].Commit?
  }

  lemma CommitStep(s: State, id: nat)
    requires Enabled(s, Commit(id))
    ensures Apply(s, Commit(id)).row == Row(Some(PhaseOf(s, id).access), PhaseOf(s, id).expires)
    ensures PhaseOf(Apply(s, Commit(id)), id) == Served(PhaseOf(s, id).access)
  {
  }

  lemma OtherStepsKeepRow(s: State, e: Event)
    requires Enabled(s, e) && !e.Commit?
    ensures Apply(s, e).row == s.row
  {
  }

  /** In every run the row is that of the last commit: one token, with its own expiry. */
  lemma {:induction false} RowIsOfLastCommit(events: seq<Event>, states: seq<State>, i: nat)
    requires IsRun(events, states) && Initial(states[0]) && i < |states|
    ensures IsLastRow(events, states, i, states[i].row)
  {
    if i > 0 {
      var e := events[i - 1];
      assert Enabled(states[i - 1], e) && states[i] == Apply(states[i - 1], e);
      if e.Commit? {
        CommittingWasObtained(events, states, i - 1, e.id);
        CommitStep(states[i - 1], e.id);
        assert CommitsRow(events, states, i - 1, states[i].row);
      } else {
        RowIsOfLastCommit(events, states, i - 1);
        OtherStepsKeepRow(states[i - 1], e);
        LastRowOneLater(events, states, i - 1, states[i].row);
      }
    }
  }

  lemma LastRowOneLater(events: seq<Event>, states: seq<State>, i: nat, row: Row)
    requires IsRun(events, states) && i < |events| && !events[i].Commit? && IsLastRow(events, states, i, row)
    ensures IsLastRow(events, states, i + 1, row)
  {
    if k :| 0 <= k < i && CommitsRow(events, states, k, row) && forall later | k < later < i :: !events[later].Commit? {
      assert forall later | k < later < i + 1 :: !events[later].Commit?;
    }
  }

  // ----- What is served -----

  /** Why a request that is served this token at step `i` is. */
  ghost predicate IsRightToken(events: seq<Event>, states: seq<State>, i: nat, id: nat, token: string)
    requires IsRun(events, states) && i < |events|
  {
    match events[i]
    case Arrive(asker, snapshot) =>
      && asker == id
      && if IsGood(snapshot.expires, states[i].now) && snapshot.access.GetOr("") != ""
         then snapshot.access == Some(token)
         else states[i].kind.Codex? && states[i].file == ApiKey(token)
    case Recheck(asker) =>
      asker == id && states[i].row.access == Some(token) && IsGood(states[i].row.expires, states[i].now)
      && IsLastRow(events, states, i, states[i].row)
    case Commit(asker) => asker == id && exists expires :: JustObtained(events, states, i, id, token, expires)
    case _ => false
  }

  /**
   * Every token served is one of four: the one in the row as the request found
   * it, still good; the API key in the file; the one in the row it read again
   * under the lock, which is that of the last commit and still good; or the one
   * it has just obtained and committed itself.
   */
  lemma ServedIsRight(events: seq<Event>, states: seq<State>, i: nat, id: nat)
    requires IsRun(events, states) && Initial(states[0]) && i < |events|
    requires !PhaseOf(states[i], id).Served? && PhaseOf(states[i + 1], id).Served?
    ensures IsRightToken(events, states, i, id, PhaseOf(states[i + 1], id).token)
  {
    var e := events[i];
    assert Enabled(states[i], e) && states[i + 1] == Apply(states[i], e);
    if e.Commit? {
      CommitIsFor(states[i], e.id, id);
      CommittingWasObtained(events, states, i, id);
      CommitStep(states[i], id);
    } else {
      ServingStep(states[i], e, id);
      if e.Recheck? {
        RowIsOfLastCommit(events, states, i);
      }
    }
  }

  lemma CommitIsFor(s: State, committer: nat, id: nat)
    requires Enabled(s, Commit(committer)) && !PhaseOf(s, id).Served? && PhaseOf(Apply(s, Commit(committer)), id).Served?
    ensures committer == id
  {
  }

  lemma ServingStep(s: State, e: Event, id: nat)
    requires Enabled(s, e) && !e.Commit? && !PhaseOf(s, id).Served? && PhaseOf(Apply(s, e), id).Served?
    ensures var token := PhaseOf(Apply(s, e), id).token;
            match e
            case Arrive(asker, snapshot) =>
              && asker == id
              && if IsGood(snapshot.expires, s.now) && snapshot.access.GetOr("") != ""
                 then snapshot.access == Some(token)
                 else s.kind.Codex? && s.file == ApiKey(token)
            case Recheck(asker) => asker == id && s.row.access == Some(token) && IsGood(s.row.expires, s.now)
            case _ => false
  {
  }

  /** A request that arrives with the row as it once was, still good, is served the token of the last commit before that. */
  lemma ArrivalIsServedTheRow(events: seq<Event>, states: seq<State>, i: nat, j: nat, id: nat)
    requires IsRun(events, states) && Initial(states[0]) && j <= i < |events|
    requires events[i] == Arrive(id, states[j].row)
    requires IsGood(states[j].row.expires, states[i].now) && states[j].row.access.GetOr("") != ""
    ensures PhaseOf(states[i + 1], id) == Served(states[j].row.access.value)
    ensures IsLastRow(events, states, j, states[j].row)
  {
    assert Enabled(states[i], events[i]) && states[i + 1] == Apply(states[i], events[i]);
    RowIsOfLastCommit(events, states, j);
  }

  // ----- How requests go on -----

  /**
   * A request that arrives with a good token is served it. With a Codex
   * credential it is then served the file's API key if there is one, and refused
   * if the file cannot be used. Any other waits for the lock.
   */
  lemma ArrivalGoesOn(s: State, id: nat, snapshot: Row)
    requires Enabled(s, Arrive(id, snapshot))
    ensures var good := IsGood(snapshot.expires, s.now) && snapshot.access.GetOr("") != "";
            var p := PhaseOf(Apply(s, Arrive(id, snapshot)), id);
            && (good ==> p == Served(snapshot.access.value))
            && (!good && s.kind.Codex? && s.file.ApiKey? ==> p == Served(s.file.key))
            && (!good && s.kind.Codex? && s.file.Unusable? ==> p == Refused)
            && (!good && (s.kind.Anthropic? || s.file.Tokens?) ==> p == Waiting)
  {
  }

  /**
   * A request under the lock is served the row's token if that is good by now;
   * else it adopts the file's if that is good, or asks for another with the
   * file's refresh token, and is refused if the file has none.
   */
  lemma RecheckGoesOn(s: State, id: nat)
    requires Enabled(s, Recheck(id))
    ensures var good := IsGood(s.row.expires, s.now) && s.row.access.GetOr("") != "";
            var p := PhaseOf(Apply(s, Recheck(id)), id);
            && (good ==> p == Served(s.row.access.value))
            && (!good && !s.file.Tokens? ==> p == Refused)
            && (!good && s.file.Tokens? && IsGood(s.file.expires, s.now) ==> p == Committing(s.file.access, s.file.expires))
            && (!good && s.file.Tokens? && !IsGood(s.file.expires, s.now) ==> p == Calling(s.file.refresh))
  {
  }

  /** An answer is written to a Codex file whole: its token, its refresh token if it has one, and the expiry the token states. */
  lemma AnswerIsWritten(s: State, id: nat, answer: Answer)
    requires Enabled(s, Respond(id, answer)) && s.file.Tokens?
    ensures s.kind.Codex? && answer.refresh != "" ==>
              Apply(s, Respond(id, answer)).file == Tokens(answer.access, answer.refresh, answer.claim)
    ensures s.kind.Codex? && answer.refresh == "" ==>
              Apply(s, Respond(id, answer)).file == Tokens(answer.access, s.file.refresh, answer.claim)
    ensures s.kind.Anthropic? ==> Apply(s, Respond(id, answer)).file == s.file
  {
  }
}
