/**
 The retry loop around an upstream POST, and the store of the last allowance
 reading from each host.
*/
module UpstreamRetry {
  import opened Wrappers

  const MAX_ATTEMPTS := 5

  function Pow2(n: nat): (p: nat)
    ensures p >= 1
  {
    if n == 0 then 1 else 2 * Pow2(n - 1)
  }

  function Min(a: nat, b: nat): nat {
    if a < b then a else b
  }

  /** Exponential backoff in seconds, longer for a rate limit. */
  function RetryDelay(attempt: nat, limited: bool): nat
    requires attempt >= 1
  {
    if limited then Min(3 * Pow2(attempt - 1), 30) else Min(Pow2(attempt - 1), 10)
  }

  /** The backoff before attempt `n`, when every attempt before it was rate limited. */
  function WorstBackoff(n: nat): nat
    requires n >= 1
  {
    if n == 1 then 0 else WorstBackoff(n - 1) + RetryDelay(n - 1, true)
  }

  lemma WorstBackoffIsBounded(n: nat)
    requires 1 <= n <= MAX_ATTEMPTS
    ensures WorstBackoff(n) <= 45
    ensures n == MAX_ATTEMPTS ==> WorstBackoff(n) == 45
  {
    assert Pow2(1) == 2 && Pow2(2) == 4 && Pow2(3) == 8 && Pow2(4) == 16;
    assert RetryDelay(1, true) == 3 && RetryDelay(2, true) == 6 && RetryDelay(3, true) == 12 && RetryDelay(4, true) == 24;
    assert WorstBackoff(2) == 3 && WorstBackoff(3) == 9 && WorstBackoff(4) == 21;
  }

  lemma LimitedWaitsLonger(attempt: nat)
    requires 1 <= attempt <= 4
    ensures RetryDelay(attempt, false) <= RetryDelay(attempt, true)
  {
  }

  // ----- Allowance readings -----

  datatype Window = Window(name: string, usedPercent: real, resetsAt: Option<int>, minutes: Option<int>)

  datatype Reading = Reading(windows: seq<Window>, observedAt: int)

  /** The store after one response; one that reports no window is not news. */
  function Recorded(store: map<string, Reading>, host: string, windows: seq<Window>, now: int): map<string, Reading> {
    if windows == [] || host == "" then store else store[host := Reading(windows, now)]
  }

  /** What is stored is told apart host by host. */
  lemma RecordedHostByHost(before: map<string, Reading>, after: map<string, Reading>, host: string, windows: seq<Window>, now: int)
    requires forall other | other != host :: Lookup(after, other) == Lookup(before, other)
    requires Lookup(after, host) ==
             if windows == [] || host == "" then Lookup(before, host) else Some(Reading(windows, now))
    ensures after == Recorded(before, host, windows, now)
  {
    var recorded := Recorded(before, host, windows, now);
    forall other ensures Lookup(after, other) == Lookup(recorded, other) {
      if other != host {
        assert Lookup(after, other) == Lookup(before, other);
      }
    }
    forall other | other in after ensures other in recorded && recorded[other] == after[other] {
      assert Lookup(after, other) == Lookup(recorded, other);
    }
    forall other | other in recorded ensures other in after {
      assert Lookup(after, other) == Lookup(recorded, other);
    }
  }

  class LimitStore {
    var store: map<string, Reading>

    constructor ()
      ensures store == map[]
    {
      store := map[];
    }

    /** Only this host's reading can change, and it does when the response reported a window. */
    method Record(host: string, windows: seq<Window>, now: int)
      modifies this
      ensures forall other | other != host :: Lookup(store, other) == Lookup(old(store), other)
      ensures windows == [] || host == "" ==> Lookup(store, host) == Lookup(old(store), host)
      ensures windows != [] && host != "" ==> Lookup(store, host) == Some(Reading(windows, now))
    {
      if windows == [] || host == "" {
        return;
      }
      store := store[host := Reading(windows, now)];
    }
  }

  // ----- The retry loop -----

  datatype Outcome =
    | ConnectFailed
    | OtherFailure
    | Answered(status: int, windows: seq<Window>)

  datatype Ending = Returned(status: int) | RaisedConnect | RaisedOther

  predicate IsRetryable(status: int) {
    status in {429, 500, 502, 503, 504, 529}
  }

  /** An outcome that is tried again while attempts are left. */
  predicate Transient(o: Outcome) {
    o.ConnectFailed? || (o.Answered? && IsRetryable(o.status))
  }

  function EndingOf(o: Outcome): Ending {
    match o
    case ConnectFailed => RaisedConnect
    case OtherFailure => RaisedOther
    case Answered(status, _) => Returned(status)
  }

  function DelayAfter(o: Outcome, attempt: nat): nat
    requires attempt >= 1
  {
    RetryDelay(attempt, o.Answered? && o.status in {429, 529})
  }

  function SleptBefore(upstream: nat -> Outcome, attempt: nat): nat
    requires attempt >= 1
  {
    if attempt == 1 then 0 else SleptBefore(upstream, attempt - 1) + DelayAfter(upstream(attempt - 1), attempt - 1)
  }

  /** The store after the answers to the first `attempts` posts, each read at its own time. */
  function StoreAfter(store: map<string, Reading>, host: string, upstream: nat -> Outcome, clock: nat -> int,
                      attempts: nat): map<string, Reading>
  {
    if attempts == 0 then store
    else
      var before := StoreAfter(store, host, upstream, clock, attempts - 1);
      match upstream(attempts)
      case Answered(_, windows) => Recorded(before, host, windows, clock(attempts))
      case _ => before
  }

  /**
   * At most five posts: every one before the last met a transient outcome,
   * and the last met another or was the fifth. What is returned or raised is
   * the last outcome; every answer, retried ones included, was recorded.
   */
  method PostWithRetries(host: string, upstream: nat -> Outcome, clock: nat -> int, limits: LimitStore)
    returns (ending: Ending, posts: nat, slept: nat)
    modifies limits
    ensures 1 <= posts <= MAX_ATTEMPTS
    ensures forall k | 1 <= k < posts :: Transient(upstream(k))
    ensures !Transient(upstream(posts)) || posts == MAX_ATTEMPTS
    ensures ending == EndingOf(upstream(posts))
    ensures slept == SleptBefore(upstream, posts)
    ensures limits.store == StoreAfter(old(limits.store), host, upstream, clock, posts)
  {
    slept := 0;
    for attempt := 1 to MAX_ATTEMPTS + 1
      invariant forall k | 1 <= k < attempt :: Transient(upstream(k))
      invariant slept == SleptBefore(upstream, attempt)
      invariant limits.store == StoreAfter(old(limits.store), host, upstream, clock, attempt - 1)
      invariant attempt <= MAX_ATTEMPTS
    {
      var outcome := upstream(attempt);
      if outcome.ConnectFailed? {
        if attempt >= MAX_ATTEMPTS {
          return RaisedConnect, attempt, slept;
        }
        slept := slept + RetryDelay(attempt, false);
        continue;
      }
      if outcome.OtherFailure? {
        return RaisedOther, attempt, slept;
      }
      ghost var before := limits.store;
      limits.Record(host, outcome.windows, clock(attempt));
      RecordedHostByHost(before, limits.store, host, outcome.windows, clock(attempt));
      if IsRetryable(outcome.status) && attempt < MAX_ATTEMPTS {
        slept := slept + RetryDelay(attempt, outcome.status in {429, 529});
        continue;
      }
      return Returned(outcome.status), attempt, slept;
    }
    assert false;
  }

  /** The backoff of any run is at most that of a run that is rate limited throughout, 45 seconds. */
  lemma {:induction false} BackoffIsBounded(upstream: nat -> Outcome, posts: nat)
    requires 1 <= posts <= MAX_ATTEMPTS
    ensures SleptBefore(upstream, posts) <= WorstBackoff(posts) <= 45
  {
    WorstBackoffIsBounded(posts);
    if posts > 1 {
      BackoffIsBounded(upstream, posts - 1);
      LimitedWaitsLonger(posts - 1);
    }
  }

  predicate Reports(o: Outcome) {
    o.Answered? && o.windows != []
  }

  /** The attempt is the last of the first `attempts` whose answer reported a window. */
  predicate LastReport(upstream: nat -> Outcome, attempts: nat, k: nat) {
    && 1 <= k <= attempts && Reports(upstream(k))
    && forall later | k < later <= attempts :: !Reports(upstream(later))
  }

  /** The stored reading is that of the last answer that reported any window, a retried one included. */
  lemma {:induction false} LastReportIsStored(store: map<string, Reading>, host: string, upstream: nat -> Outcome,
                                              clock: nat -> int, attempts: nat, k: nat)
    requires host != "" && LastReport(upstream, attempts, k)
    ensures Lookup(StoreAfter(store, host, upstream, clock, attempts), host) ==
            Some(Reading(upstream(k).windows, clock(k)))
  {
    if k < attempts {
      LastReportIsStored(store, host, upstream, clock, attempts - 1, k);
    }
  }

  /** Other hosts are untouched, and a host whose answers reported nothing keeps what it last said. */
  lemma {:induction false} SilenceIsNotNews(store: map<string, Reading>, host: string, upstream: nat -> Outcome,
                                            clock: nat -> int, attempts: nat, other: string)
    requires other != host || forall k | 1 <= k <= attempts :: !Reports(upstream(k))
    ensures Lookup(StoreAfter(store, host, upstream, clock, attempts), other) == Lookup(store, other)
  {
    if attempts > 0 {
      SilenceIsNotNews(store, host, upstream, clock, attempts - 1, other);
    }
  }

  // ----- What is retried, and after how long -----

  /** The pauses after the first four attempts, in seconds; after a rate limit they are three times as long. */
  lemma DelaysAre(attempt: nat)
    requires 1 <= attempt <= 4
    ensures RetryDelay(attempt, false) == [1, 2, 4, 8][attempt - 1]
    ensures RetryDelay(attempt, true) == [3, 6, 12, 24][attempt - 1]
  {
    assert Pow2(0) == 1 && Pow2(1) == 2 && Pow2(2) == 4 && Pow2(3) == 8;
  }

  /** A later attempt, were there one, would wait ten seconds, or thirty after a rate limit. */
  lemma DelaysAreCapped(attempt: nat)
    requires attempt >= 5
    ensures RetryDelay(attempt, false) == 10 && RetryDelay(attempt, true) == 30
  {
    PowerGrows(attempt - 1);
  }

  lemma {:induction false} PowerGrows(n: nat)
    requires n >= 4
    ensures Pow2(n) >= 16
  {
    if n == 4 {
      assert Pow2(1) == 2 && Pow2(2) == 4 && Pow2(3) == 8;
    } else {
      PowerGrows(n - 1);
    }
  }

  /**
   * Only a failure to connect and the six statuses are tried again; any other
   * answer, and any other failure, is the call's last.
   */
  lemma AnswerEndsTheCall(upstream: nat -> Outcome, posts: nat)
    requires 1 <= posts <= MAX_ATTEMPTS
    requires forall k | 1 <= k < posts :: Transient(upstream(k))
    requires !Transient(upstream(posts)) || posts == MAX_ATTEMPTS
    ensures posts <= 5
    ensures forall k | 1 <= k < posts ::
              upstream(k) == ConnectFailed
              || (upstream(k).Answered? && (upstream(k).status == 429 || upstream(k).status == 500 || upstream(k).status == 502
                                            || upstream(k).status == 503 || upstream(k).status == 504 || upstream(k).status == 529))
    ensures forall k | 1 <= k <= MAX_ATTEMPTS && upstream(k).Answered?
                       && !(upstream(k).status in {429, 500, 502, 503, 504, 529}) ::
              posts <= k
    ensures forall k | 1 <= k <= MAX_ATTEMPTS && upstream(k) == OtherFailure :: posts <= k
  {
  }

  /** The waiting of a call, pause by pause: after a 429 or a 529 as for a rate limit, after anything else as for none. */
  lemma WaitingIsByOutcome(upstream: nat -> Outcome, attempt: nat)
    requires 1 <= attempt <= 4
    ensures SleptBefore(upstream, attempt + 1) ==
            SleptBefore(upstream, attempt) +
            if upstream(attempt).Answered? && (upstream(attempt).status == 429 || upstream(attempt).status == 529)
            then [3, 6, 12, 24][attempt - 1] else [1, 2, 4, 8][attempt - 1]
  {
    DelaysAre(attempt);
  }
}
