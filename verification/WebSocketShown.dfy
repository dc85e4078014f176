/**
 The WebSocket relay reply by reply: what each kind of upstream answer makes it
 send, how long it waits after it, and with what code it closes.
*/
module WebSocketShown {
  import opened Wrappers
  import opened UpstreamRetry
  import opened WebSocketRelay

  /** The pause before another attempt. */
  function Pause(attempt: nat, limited: bool): nat
    requires 1 <= attempt <= 4
  {
    if limited then [3, 6, 12, 24][attempt - 1] else [1, 2, 4, 8][attempt - 1]
  }

  /** The first payloads, as the client gets them. */
  function Sent(payloads: seq<Payload>, k: nat): seq<Action>
    requires k <= |payloads|
  {
    seq(k, i requires 0 <= i < k => Send(payloads[i].text))
  }

  predicate IsNamed(overflow: Option<string>) {
    overflow.Some? && overflow.value != ""
  }

  /** The first payloads before the `k`-th neither fail nor overflow. */
  predicate GoesWell(payloads: seq<Payload>, k: nat)
    requires k <= |payloads|
  {
    forall i | 0 <= i < k :: !payloads[i].isError && !IsNamed(payloads[i].overflow)
  }

  /** Some payload before the `k`-th opens output or completes the response. */
  predicate SaysSomething(payloads: seq<Payload>, k: nat)
    requires k <= |payloads|
  {
    exists i | 0 <= i < k :: payloads[i].opens || payloads[i].completes
  }

  lemma {:induction false} StopsAt(payloads: seq<Payload>, k: nat)
    requires k <= |payloads| && GoesWell(payloads, k)
    requires k < |payloads| ==> payloads[k].isError || IsNamed(payloads[k].overflow)
    ensures StopAt(payloads) == k
  {
    if k > 0 {
      forall i | 0 <= i < k - 1 ensures !payloads[1..][i].isError && !IsNamed(payloads[1..][i].overflow) {
        assert payloads[1..][i] == payloads[i + 1];
      }
      StopsAt(payloads[1..], k - 1);
    }
  }

  lemma ReadIs(payloads: seq<Payload>, k: nat)
    requires k <= |payloads|
    ensures Texts(payloads[..k]) == Sent(payloads, k)
    ensures Released(payloads[..k]) <==> SaysSomething(payloads, k)
  {
    forall i | 0 <= i < k ensures payloads[..k][i] == payloads[i] {
    }
  }

  lemma EndsHere(upstream: nat -> Reply, n: nat, reasoning: nat, stripped: bool, sends: seq<Action>, code: nat)
    requires 1 <= n <= MAX_RETRIES && AttemptOf(upstream(n), n, reasoning, stripped) == Attempt(sends, Over(code))
    ensures Session(upstream, n, reasoning, stripped) == [Post(n, stripped)] + sends + [Close(code)]
  {
  }

  lemma GoesOn(upstream: nat -> Reply, n: nat, reasoning: nat, stripped: bool, pause: nat)
    requires 1 <= n <= MAX_RETRIES
    requires AttemptOf(upstream(n), n, reasoning, stripped) == Attempt([], Retry(Some(pause), reasoning, stripped))
    ensures Session(upstream, n, reasoning, stripped) ==
            [Post(n, stripped), Sleep(pause)] + Session(upstream, n + 1, reasoning, stripped)
  {
  }

  // ----- No stream -----

  /** An upstream that cannot be reached ends the session. */
  lemma UnreachableEnds(upstream: nat -> Reply, n: nat, reasoning: nat, stripped: bool)
    requires 1 <= n <= MAX_RETRIES && upstream(n).Unreachable?
    ensures Session(upstream, n, reasoning, stripped) == [Post(n, stripped), Close(1011)]
  {
    EndsHere(upstream, n, reasoning, stripped, [], 1011);
  }

  /** A refusal that reports an overflow is passed on as one, and nothing is tried again. */
  lemma RefusedOverflowEnds(upstream: nat -> Reply, n: nat, reasoning: nat, stripped: bool)
    requires 1 <= n <= MAX_RETRIES && upstream(n).HttpError? && IsNamed(upstream(n).overflow)
    ensures Session(upstream, n, reasoning, stripped) ==
            [Post(n, stripped), SendOverflow(upstream(n).overflow.value), Close(1000)]
  {
    EndsHere(upstream, n, reasoning, stripped, [SendOverflow(upstream(n).overflow.value)], 1000);
  }

  /** Reasoning the upstream cannot decrypt is taken out once, and the next attempt follows without a pause. */
  predicate StripsNow(reply: Reply, reasoning: nat, stripped: bool) {
    reply.HttpError? && !IsNamed(reply.overflow) && reply.status == 400 && reply.undecodable && reasoning > 0 && !stripped
  }

  lemma UndecodableIsStripped(upstream: nat -> Reply, n: nat, reasoning: nat, stripped: bool)
    requires 1 <= n <= MAX_RETRIES && StripsNow(upstream(n), reasoning, stripped)
    ensures Session(upstream, n, reasoning, stripped) == [Post(n, false)] + Session(upstream, n + 1, 0, true)
  {
    assert AttemptOf(upstream(n), n, reasoning, stripped) == Attempt([], Retry(None, 0, true));
  }

  /** Any other refusal is tried again after a pause, and the fifth is reported by its status. */
  lemma RefusalIsRetried(upstream: nat -> Reply, n: nat, reasoning: nat, stripped: bool)
    requires 1 <= n <= MAX_RETRIES && upstream(n).HttpError? && !IsNamed(upstream(n).overflow)
    requires !StripsNow(upstream(n), reasoning, stripped)
    ensures n < 5 ==>
              Session(upstream, n, reasoning, stripped) ==
              [Post(n, stripped), Sleep(Pause(n, upstream(n).status == 429))] + Session(upstream, n + 1, reasoning, stripped)
    ensures n == 5 ==>
              Session(upstream, n, reasoning, stripped) == [Post(n, stripped), SendStatus(upstream(n).status), Close(1011)]
  {
    if n < 5 {
      DelaysAre(n);
      GoesOn(upstream, n, reasoning, stripped, Pause(n, upstream(n).status == 429));
    } else {
      EndsHere(upstream, n, reasoning, stripped, [SendStatus(upstream(n).status)], 1011);
    }
  }

  // ----- A stream -----

  /** A stream without an error is passed on whole if it says something, and otherwise not at all. */
  lemma GoodStreamIsPassedOn(upstream: nat -> Reply, n: nat, reasoning: nat, stripped: bool)
    requires 1 <= n <= MAX_RETRIES && upstream(n).Stream? && GoesWell(upstream(n).payloads, |upstream(n).payloads|)
    ensures var payloads := upstream(n).payloads;
            Session(upstream, n, reasoning, stripped) ==
            [Post(n, stripped)] + (if SaysSomething(payloads, |payloads|) then Sent(payloads, |payloads|) else []) +
            [Close(if upstream(n).breaksOff then 1011 else 1000)]
  {
    var payloads := upstream(n).payloads;
    StopsAt(payloads, |payloads|);
    ReadIs(payloads, |payloads|);
    EndsHere(upstream, n, reasoning, stripped, if SaysSomething(payloads, |payloads|) then Sent(payloads, |payloads|) else [],
             if upstream(n).breaksOff then 1011 else 1000);
  }

  /** A stream that overflows is passed on as far as it went, with the overflow after it. */
  lemma OverflowIsPassedOn(upstream: nat -> Reply, n: nat, k: nat, reasoning: nat, stripped: bool)
    requires 1 <= n <= MAX_RETRIES && upstream(n).Stream? && k < |upstream(n).payloads|
    requires GoesWell(upstream(n).payloads, k) && IsNamed(upstream(n).payloads[k].overflow)
    ensures var payloads := upstream(n).payloads;
            Session(upstream, n, reasoning, stripped) ==
            [Post(n, stripped)] + (Sent(payloads, k) + [SendOverflow(payloads[k].overflow.value)]) + [Close(1000)]
  {
    var payloads := upstream(n).payloads;
    StopsAt(payloads, k);
    ReadIs(payloads, k);
    EndsHere(upstream, n, reasoning, stripped, Sent(payloads, k) + [SendOverflow(payloads[k].overflow.value)], 1000);
  }

  /** An error after something was said ends the session with what came before it; one before is tried again, but for the fifth. */
  lemma ErrorEndsOrIsRetried(upstream: nat -> Reply, n: nat, k: nat, reasoning: nat, stripped: bool)
    requires 1 <= n <= MAX_RETRIES && upstream(n).Stream? && k < |upstream(n).payloads|
    requires GoesWell(upstream(n).payloads, k)
    requires upstream(n).payloads[k].isError && !IsNamed(upstream(n).payloads[k].overflow)
    ensures var payloads := upstream(n).payloads;
            if SaysSomething(payloads, k) || n == 5 then
              Session(upstream, n, reasoning, stripped) == [Post(n, stripped)] + Sent(payloads, k) + [Close(1000)]
            else
              Session(upstream, n, reasoning, stripped) ==
              [Post(n, stripped), Sleep(Pause(n, payloads[k].limited))] + Session(upstream, n + 1, reasoning, stripped)
  {
    var payloads := upstream(n).payloads;
    StopsAt(payloads, k);
    ReadIs(payloads, k);
    if SaysSomething(payloads, k) || n == 5 {
      EndsHere(upstream, n, reasoning, stripped, Sent(payloads, k), 1000);
    } else {
      DelaysAre(n);
      GoesOn(upstream, n, reasoning, stripped, Pause(n, payloads[k].limited));
    }
  }
}
