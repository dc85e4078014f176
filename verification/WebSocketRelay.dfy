/**
 The WebSocket relay of a Responses stream: payloads are held back until the
 upstream has said something worth showing, and a failed attempt is retried
 only while nothing has been sent.
*/
module WebSocketRelay {
  import opened Wrappers
  import opened UpstreamRetry

  /** One payload line, with what the relay finds by looking into its text. */
  datatype Payload = Payload(text: string, overflow: Option<string>, isError: bool, limited: bool, opens: bool, completes: bool)

  /** How one attempt went; a stream may break off after its payloads. */
  datatype Reply =
    | Unreachable
    | HttpError(status: int, overflow: Option<string>, undecodable: bool)
    | Stream(payloads: seq<Payload>, breaksOff: bool)

  datatype Action =
    | Post(attempt: nat, stripped: bool)
    | Send(text: string)
    | SendOverflow(message: string)
    | SendStatus(status: int)
    | Sleep(seconds: nat)
    | Close(code: nat)

  predicate IsOverflow(overflow: Option<string>) {
    overflow.GetOr("") != ""
  }

  predicate Stops(p: Payload) {
    IsOverflow(p.overflow) || p.isError
  }

  /** A payload that releases what was held back. */
  predicate Releases(p: Payload) {
    p.opens || p.completes
  }

  /** How many payloads are read before one stops the stream. */
  function StopAt(payloads: seq<Payload>): (k: nat)
    ensures k <= |payloads| && (k < |payloads| ==> Stops(payloads[k]))
    ensures forall i | 0 <= i < k :: !Stops(payloads[i])
  {
    if payloads == [] || Stops(payloads[0]) then 0 else 1 + StopAt(payloads[1..])
  }

  function Texts(payloads: seq<Payload>): seq<Action> {
    seq(|payloads|, i requires 0 <= i < |payloads| => Send(payloads[i].text))
  }

  predicate Released(payloads: seq<Payload>) {
    exists i | 0 <= i < |payloads| :: Releases(payloads[i])
  }

  predicate Overflows(payloads: seq<Payload>) {
    var k := StopAt(payloads);
    k < |payloads| && IsOverflow(payloads[k].overflow)
  }

  /** What an attempt sends: all it read, or nothing; an overflow is named after what it read. */
  function Delivered(payloads: seq<Payload>): seq<Action> {
    var k := StopAt(payloads);
    var read := payloads[..k];
    if Overflows(payloads) then Texts(read) + [SendOverflow(payloads[k].overflow.value)]
    else if Released(read) then Texts(read)
    else []
  }

  /** An error came while everything was still held back. */
  predicate FailsUnseen(payloads: seq<Payload>) {
    var k := StopAt(payloads);
    k < |payloads| && !Overflows(payloads) && !Released(payloads[..k])
  }

  const MAX_RETRIES := 5

  /** What follows an attempt: another, after a pause if any and with this body, or the end. */
  datatype Next =
    | Retry(pause: Option<nat>, reasoning: nat, stripped: bool)
    | Over(code: nat)

  datatype Attempt = Attempt(sends: seq<Action>, next: Next)

  function AttemptOf(reply: Reply, attempt: nat, reasoning: nat, stripped: bool): Attempt
    requires 1 <= attempt <= MAX_RETRIES
  {
    match reply
    case Unreachable => Attempt([], Over(1011))
    case HttpError(status, overflow, undecodable) =>
      if IsOverflow(overflow) then Attempt([SendOverflow(overflow.value)], Over(1000))
      else if !stripped && status == 400 && undecodable && reasoning > 0 then Attempt([], Retry(None, 0, true))
      else if attempt < MAX_RETRIES then
        Attempt([], Retry(Some(RetryDelay(attempt, status == 429)), reasoning, stripped))
      else Attempt([SendStatus(status)], Over(1011))
    case Stream(payloads, breaksOff) =>
      var k := StopAt(payloads);
      if k == |payloads| && breaksOff then Attempt(Delivered(payloads), Over(1011))
      else if !FailsUnseen(payloads) then Attempt(Delivered(payloads), Over(1000))
      else if attempt < MAX_RETRIES then
        Attempt([], Retry(Some(RetryDelay(attempt, payloads[k].limited)), reasoning, stripped))
      else Attempt(Texts(payloads[..k]), Over(1000))
  }

  function TailOf(next: Next): seq<Action> {
    match next
    case Retry(pause, _, _) => if pause.Some? then [Sleep(pause.value)] else []
    case Over(code) => [Close(code)]
  }

  /** An attempt's actions: the post, what was sent, then the pause or the close. */
  function ActionsOf(a: Attempt, attempt: nat, stripped: bool): seq<Action> {
    [Post(attempt, stripped)] + a.sends + TailOf(a.next)
  }

  /** Everything the relay does from an attempt on, for a body with so many reasoning items left. */
  function Session(upstream: nat -> Reply, attempt: nat, reasoning: nat, stripped: bool): seq<Action>
    requires 1 <= attempt <= MAX_RETRIES + 1
    decreases MAX_RETRIES + 1 - attempt, 0
  {
    if attempt > MAX_RETRIES then [Close(1000)]
    else
      var a := AttemptOf(upstream(attempt), attempt, reasoning, stripped);
      ActionsOf(a, attempt, stripped) + Remainder(upstream, attempt, a.next)
  }

  /** What follows an attempt. */
  function Remainder(upstream: nat -> Reply, attempt: nat, next: Next): seq<Action>
    requires 1 <= attempt <= MAX_RETRIES
    decreases MAX_RETRIES - attempt, 1
  {
    if next.Over? then [] else Session(upstream, attempt + 1, next.reasoning, next.stripped)
  }

  const FIRST: nat := 1

  /** What one stream sends, what it still holds back, and the error it met, if any, with whether that was a rate limit. */
  datatype Relayed = Relayed(sent: seq<Action>, held: seq<Action>, flushed: bool, error: Option<bool>)

  /** All that was read is sent if anything releases it or an overflow follows it, and held back otherwise. */
  predicate Relays(r: Relayed, payloads: seq<Payload>) {
    var k := StopAt(payloads);
    && r.sent == Delivered(payloads)
    && (r.flushed <==> Overflows(payloads) || Released(payloads[..k]))
    && r.held == (if r.flushed then [] else Texts(payloads[..k]))
    && r.error == if k == |payloads| then None else Some(!Overflows(payloads) && payloads[k].limited)
  }

  /** The loop over one stream's payloads. */
  method RelayStream(payloads: seq<Payload>) returns (r: Relayed)
    ensures Relays(r, payloads)
  {
    var sent: seq<Action>, held: seq<Action>, flushed := [], [], false;
    for i := 0 to |payloads|
      invariant i <= StopAt(payloads)
      invariant flushed <==> Released(payloads[..i])
      invariant flushed ==> sent == Texts(payloads[..i]) && held == []
      invariant !flushed ==> sent == [] && held == Texts(payloads[..i])
    {
      var payload := payloads[i];
      if Stops(payload) {
        assert i == StopAt(payloads);
        if IsOverflow(payload.overflow) {
          sent := sent + held + [SendOverflow(payload.overflow.value)];
          return Relayed(sent, [], true, Some(false));
        }
        return Relayed(sent, held, flushed, Some(payload.limited));
      }
      assert Texts(payloads[..i + 1]) == Texts(payloads[..i]) + [Send(payload.text)];
      ReleasedSnoc(payloads, i);
      if flushed {
        sent := sent + [Send(payload.text)];
      } else {
        held := held + [Send(payload.text)];
        if Releases(payload) {
          sent := sent + held;
          held, flushed := [], true;
        }
      }
    }
    assert payloads[..|payloads|] == payloads;
    return Relayed(sent, held, flushed, None);
  }

  lemma ReleasedSnoc(payloads: seq<Payload>, i: nat)
    requires i < |payloads|
    ensures Released(payloads[..i + 1]) <==> Released(payloads[..i]) || Releases(payloads[i])
  {
    var before, after := payloads[..i], payloads[..i + 1];
    assert after[i] == payloads[i];
    forall j | 0 <= j < i ensures after[j] == before[j] {
    }
  }

  /** One pass of the attempt loop. */
  method RunAttempt(reply: Reply, attempt: nat, reasoning: nat, stripped: bool) returns (a: Attempt)
    requires 1 <= attempt <= MAX_RETRIES
    ensures a == AttemptOf(reply, attempt, reasoning, stripped)
  {
    if reply.Unreachable? {
      return Attempt([], Over(1011));
    }
    if reply.HttpError? {
      if IsOverflow(reply.overflow) {
        return Attempt([SendOverflow(reply.overflow.value)], Over(1000));
      }
      if !stripped && reply.status == 400 && reply.undecodable && reasoning > 0 {
        return Attempt([], Retry(None, 0, true));
      }
      if attempt < MAX_RETRIES {
        return Attempt([], Retry(Some(RetryDelay(attempt, reply.status == 429)), reasoning, stripped));
      }
      return Attempt([SendStatus(reply.status)], Over(1011));
    }
    var r := RelayStream(reply.payloads);
    if r.error.None? && reply.breaksOff {
      return Attempt(r.sent, Over(1011));
    }
    if r.error.Some? && !r.flushed {
      if attempt < MAX_RETRIES {
        return Attempt([], Retry(Some(RetryDelay(attempt, r.error.value)), reasoning, stripped));
      }
      return Attempt(r.held, Over(1000));
    }
    return Attempt(r.sent, Over(1000));
  }

  lemma Reassociate(a: seq<Action>, b: seq<Action>, c: seq<Action>)
    ensures a + (b + c) == (a + b) + c
    ensures a + [] == a
  {
  }

  /** The attempt loop. */
  method RelayResponses(upstream: nat -> Reply, reasoningItems: nat) returns (log: seq<Action>)
    ensures log == Session(upstream, FIRST, reasoningItems, false)
  {
    log := [];
    var reasoning, stripped := reasoningItems, false;
    for attempt := 1 to MAX_RETRIES + 1
      invariant log + Session(upstream, attempt, reasoning, stripped) == Session(upstream, FIRST, reasoningItems, false)
    {
      var a := RunAttempt(upstream(attempt), attempt, reasoning, stripped);
      Reassociate(log, ActionsOf(a, attempt, stripped), Remainder(upstream, attempt, a.next));
      log := log + ActionsOf(a, attempt, stripped);
      if a.next.Over? {
        Reassociate(log, [], []);
        return;
      }
      reasoning, stripped := a.next.reasoning, a.next.stripped;
    }
    log := log + [Close(1000)];
  }

  // ----- What every run keeps -----

  predicate IsSend(a: Action) {
    a.Send? || a.SendOverflow? || a.SendStatus?
  }

  function SendsIn(log: seq<Action>): seq<Action> {
    if log == [] then []
    else if IsSend(log[0]) then [log[0]] + SendsIn(log[1..])
    else SendsIn(log[1..])
  }

  function PostsIn(log: seq<Action>): seq<nat> {
    if log == [] then []
    else if log[0].Post? then [log[0].attempt] + PostsIn(log[1..])
    else PostsIn(log[1..])
  }

  function SleptIn(log: seq<Action>): nat {
    if log == [] then 0
    else if log[0].Sleep? then log[0].seconds + SleptIn(log[1..])
    else SleptIn(log[1..])
  }

  lemma LogAppend(a: seq<Action>, b: seq<Action>)
    ensures SendsIn(a + b) == SendsIn(a) + SendsIn(b)
    ensures PostsIn(a + b) == PostsIn(a) + PostsIn(b)
    ensures SleptIn(a + b) == SleptIn(a) + SleptIn(b)
  {
    SendsAppend(a, b);
    PostsAppend(a, b);
    SleptAppend(a, b);
  }

  lemma {:induction false} SendsAppend(a: seq<Action>, b: seq<Action>)
    ensures SendsIn(a + b) == SendsIn(a) + SendsIn(b)
    decreases |a|
  {
    if a == [] {
      assert a + b == b;
    } else {
      assert (a + b)[0] == a[0] && (a + b)[1..] == a[1..] + b;
      SendsAppend(a[1..], b);
    }
  }

  lemma {:induction false} PostsAppend(a: seq<Action>, b: seq<Action>)
    ensures PostsIn(a + b) == PostsIn(a) + PostsIn(b)
    decreases |a|
  {
    if a == [] {
      assert a + b == b;
    } else {
      assert (a + b)[0] == a[0] && (a + b)[1..] == a[1..] + b;
      PostsAppend(a[1..], b);
    }
  }

  lemma {:induction false} SleptAppend(a: seq<Action>, b: seq<Action>)
    ensures SleptIn(a + b) == SleptIn(a) + SleptIn(b)
    decreases |a|
  {
    if a == [] {
      assert a + b == b;
    } else {
      assert (a + b)[0] == a[0] && (a + b)[1..] == a[1..] + b;
      SleptAppend(a[1..], b);
    }
  }

  /** The fifth attempt is followed by another only without a pause. */
  function LongestPause(attempt: nat): nat
    requires 1 <= attempt <= MAX_RETRIES
  {
    if attempt == MAX_RETRIES then 0 else RetryDelay(attempt, true)
  }

  /** An attempt that is retried has sent nothing. */
  lemma RetriesAreUnseen(reply: Reply, attempt: nat, reasoning: nat, stripped: bool)
    requires 1 <= attempt <= MAX_RETRIES
    ensures var a := AttemptOf(reply, attempt, reasoning, stripped);
            && (forall i | 0 <= i < |a.sends| :: IsSend(a.sends[i]))
            && (a.next.Retry? ==> a.sends == [] && a.next.pause.GetOr(0) <= LongestPause(attempt))
  {
    LimitedIsLonger(attempt);
  }

  lemma LimitedIsLonger(attempt: nat)
    requires 1 <= attempt <= MAX_RETRIES
    ensures RetryDelay(attempt, false) <= RetryDelay(attempt, true)
  {
    if attempt < MAX_RETRIES {
      LimitedWaitsLonger(attempt);
    }
  }

  /** Nothing is posted after anything sent. */
  ghost predicate PostsPrecedeSends(log: seq<Action>) {
    forall i, j | 0 <= i < j < |log| && log[j].Post? :: !IsSend(log[i])
  }

  /** At the start of every attempt nothing has been sent. */
  lemma {:induction false} NoPostAfterSend(upstream: nat -> Reply, attempt: nat, reasoning: nat, stripped: bool)
    requires 1 <= attempt <= MAX_RETRIES + 1
    ensures PostsPrecedeSends(Session(upstream, attempt, reasoning, stripped))
    decreases MAX_RETRIES + 1 - attempt
  {
    if attempt <= MAX_RETRIES {
      var a := AttemptOf(upstream(attempt), attempt, reasoning, stripped);
      RetriesAreUnseen(upstream(attempt), attempt, reasoning, stripped);
      PostComesFirst(a, attempt, stripped);
      if a.next.Retry? {
        NoPostAfterSend(upstream, attempt + 1, a.next.reasoning, a.next.stripped);
      }
      PrecedeAppend(ActionsOf(a, attempt, stripped), Remainder(upstream, attempt, a.next));
    }
  }

  lemma PrecedeAppend(did: seq<Action>, rest: seq<Action>)
    requires forall i | 0 < i < |did| :: !did[i].Post?
    requires PostsPrecedeSends(rest) && (rest == [] || forall i | 0 <= i < |did| :: !IsSend(did[i]))
    ensures PostsPrecedeSends(did + rest)
  {
    var log := did + rest;
    forall i, j | 0 <= i < j < |log| ensures log[j].Post? ==> !IsSend(log[i]) {
      if j < |did| {
        assert log[j] == did[j];
      } else {
        assert log[j] == rest[j - |did|];
        assert log[i] == if i < |did| then did[i] else rest[i - |did|];
      }
    }
  }

  lemma PostComesFirst(a: Attempt, attempt: nat, stripped: bool)
    requires forall i | 0 <= i < |a.sends| :: IsSend(a.sends[i])
    ensures var did := ActionsOf(a, attempt, stripped);
            && (forall i | 0 < i < |did| :: !did[i].Post?)
            && (a.sends == [] ==> forall i | 0 <= i < |did| :: !IsSend(did[i]))
  {
  }

  lemma {:induction false} AllSends(sends: seq<Action>)
    requires forall i | 0 <= i < |sends| :: IsSend(sends[i])
    ensures SendsIn(sends) == sends && PostsIn(sends) == [] && SleptIn(sends) == 0
  {
    if sends != [] {
      AllSends(sends[1..]);
    }
  }

  lemma ReadingsOfOne(a: Action)
    ensures SendsIn([a]) == if IsSend(a) then [a] else []
    ensures PostsIn([a]) == if a.Post? then [a.attempt] else []
    ensures SleptIn([a]) == if a.Sleep? then a.seconds else 0
  {
    assert [a][1..] == [];
  }

  lemma AttemptReads(a: Attempt, attempt: nat, stripped: bool)
    requires forall i | 0 <= i < |a.sends| :: IsSend(a.sends[i])
    ensures var did := ActionsOf(a, attempt, stripped);
            && SendsIn(did) == a.sends
            && PostsIn(did) == [attempt]
            && SleptIn(did) == if a.next.Retry? then a.next.pause.GetOr(0) else 0
  {
    var post := Post(attempt, stripped);
    var last := match a.next
      case Retry(pause, _, _) => if pause.Some? then [Sleep(pause.value)] else []
      case Over(code) => [Close(code)];
    AllSends(a.sends);
    ReadingsOfOne(post);
    if last != [] {
      ReadingsOfOne(last[0]);
    }
    LogAppend([post], a.sends);
    LogAppend([post] + a.sends, last);
  }

  /** A session's log reads as its first attempt's, then what follows. */
  lemma SessionReads(upstream: nat -> Reply, attempt: nat, reasoning: nat, stripped: bool) returns (a: Attempt)
    requires 1 <= attempt <= MAX_RETRIES
    ensures a == AttemptOf(upstream(attempt), attempt, reasoning, stripped)
    ensures a.next.Retry? ==> a.sends == [] && a.next.pause.GetOr(0) <= LongestPause(attempt)
    ensures a.next.Over? ==>
              var log := Session(upstream, attempt, reasoning, stripped);
              SendsIn(log) == a.sends && PostsIn(log) == [attempt] && SleptIn(log) == 0
    ensures a.next.Retry? ==>
              var log, rest := Session(upstream, attempt, reasoning, stripped),
                               Session(upstream, attempt + 1, a.next.reasoning, a.next.stripped);
              && SendsIn(log) == SendsIn(rest)
              && PostsIn(log) == [attempt] + PostsIn(rest)
              && SleptIn(log) == a.next.pause.GetOr(0) + SleptIn(rest)
  {
    a := AttemptOf(upstream(attempt), attempt, reasoning, stripped);
    RetriesAreUnseen(upstream(attempt), attempt, reasoning, stripped);
    AttemptReads(a, attempt, stripped);
    LogAppend(ActionsOf(a, attempt, stripped), Remainder(upstream, attempt, a.next));
    assert a.sends + [] == a.sends;
    assert [] + SendsIn(Remainder(upstream, attempt, a.next)) == SendsIn(Remainder(upstream, attempt, a.next));
  }

  /** The upstream could not decrypt the reasoning it was handed back. */
  predicate Undecodable(reply: Reply) {
    reply.HttpError? && !IsOverflow(reply.overflow) && reply.status == 400 && reply.undecodable
  }

  /** What is tried again while attempts remain. */
  predicate IsRetried(reply: Reply) {
    match reply
    case Unreachable => false
    case HttpError(_, overflow, _) => !IsOverflow(overflow)
    case Stream(payloads, _) => FailsUnseen(payloads)
  }

  /**
   * What a client is shown of the last attempt's reply. A stream that released
   * anything is shown as far as it was read, and so is one that failed unseen
   * on the fifth attempt; `strips` says that the attempt was spent on taking
   * the reasoning out of the body.
   */
  function ShownOf(reply: Reply, attempt: nat, strips: bool): seq<Action> {
    match reply
    case Unreachable => []
    case HttpError(status, overflow, _) =>
      if IsOverflow(overflow) then [SendOverflow(overflow.value)]
      else if strips || attempt < MAX_RETRIES then []
      else [SendStatus(status)]
    case Stream(payloads, _) =>
      var k := StopAt(payloads);
      if Overflows(payloads) then Texts(payloads[..k]) + [SendOverflow(payloads[k].overflow.value)]
      else if Released(payloads[..k]) || (k < |payloads| && attempt == MAX_RETRIES) then Texts(payloads[..k])
      else []
  }

  lemma LastIsShown(reply: Reply, attempt: nat, reasoning: nat, stripped: bool)
    requires 1 <= attempt <= MAX_RETRIES
    ensures var a := AttemptOf(reply, attempt, reasoning, stripped);
            attempt < MAX_RETRIES ==> (a.next.Retry? <==> IsRetried(reply))
    ensures var a := AttemptOf(reply, attempt, reasoning, stripped);
            a.next.Over? || attempt == MAX_RETRIES ==>
              a.sends == ShownOf(reply, attempt, Undecodable(reply) && reasoning > 0 && !stripped)
  {
  }

  /** The first of the attempts from `first` to `last` that could not decrypt it is `last`, so its retry strips the body. */
  predicate StripsAt(upstream: nat -> Reply, first: nat, last: nat, reasoning: nat, stripped: bool) {
    && Undecodable(upstream(last)) && reasoning > 0 && !stripped
    && forall m | first <= m < last :: !Undecodable(upstream(m))
  }

  lemma StripsLater(upstream: nat -> Reply, first: nat, last: nat, reasoning: nat, stripped: bool)
    requires 1 <= first < last <= MAX_RETRIES
    requires AttemptOf(upstream(first), first, reasoning, stripped).next.Retry?
    ensures var next := AttemptOf(upstream(first), first, reasoning, stripped).next;
            StripsAt(upstream, first + 1, last, next.reasoning, next.stripped) <==>
            StripsAt(upstream, first, last, reasoning, stripped)
  {
  }

  /** The attempts made, first to last. */
  function Counting(first: nat, last: nat): seq<nat>
    requires first <= last + 1
  {
    seq(last + 1 - first, i requires 0 <= i < last + 1 - first => first + i)
  }

  lemma CountingStep(first: nat, last: nat)
    requires first <= last
    ensures Counting(first, last) == [first] + Counting(first + 1, last)
    ensures first == last ==> Counting(first, last) == [first] + []
  {
  }

  lemma AfterTheFifth(upstream: nat -> Reply, reasoning: nat, stripped: bool)
    ensures var log := Session(upstream, MAX_RETRIES + 1, reasoning, stripped);
            SendsIn(log) == [] && PostsIn(log) == [] && SleptIn(log) == 0
  {
    ReadingsOfOne(Close(1000));
  }

  /**
   * The attempts made are those from `attempt` to `last`; all before the last
   * met a reply that is retried, and what the client is shown is exactly what
   * the last one's reply is to show.
   */
  ghost predicate ShowsLast(upstream: nat -> Reply, attempt: nat, last: nat, reasoning: nat, stripped: bool)
    requires 1 <= attempt <= MAX_RETRIES
  {
    var log := Session(upstream, attempt, reasoning, stripped);
    && attempt <= last <= MAX_RETRIES && (last == MAX_RETRIES || !IsRetried(upstream(last)))
    && (forall m | attempt <= m < last :: IsRetried(upstream(m)))
    && PostsIn(log) == Counting(attempt, last)
    && SendsIn(log) == ShownOf(upstream(last), last, StripsAt(upstream, attempt, last, reasoning, stripped))
  }

  lemma ShowsThis(upstream: nat -> Reply, attempt: nat, reasoning: nat, stripped: bool)
    requires 1 <= attempt <= MAX_RETRIES
    requires AttemptOf(upstream(attempt), attempt, reasoning, stripped).next.Over? || attempt == MAX_RETRIES
    ensures ShowsLast(upstream, attempt, attempt, reasoning, stripped)
  {
    var a := SessionReads(upstream, attempt, reasoning, stripped);
    LastIsShown(upstream(attempt), attempt, reasoning, stripped);
    CountingStep(attempt, attempt);
    if a.next.Retry? {
      AfterTheFifth(upstream, a.next.reasoning, a.next.stripped);
    }
  }

  lemma ShowsLater(upstream: nat -> Reply, attempt: nat, last: nat, reasoning: nat, stripped: bool)
    requires 1 <= attempt < MAX_RETRIES
    requires var next := AttemptOf(upstream(attempt), attempt, reasoning, stripped).next;
             next.Retry? && ShowsLast(upstream, attempt + 1, last, next.reasoning, next.stripped)
    ensures ShowsLast(upstream, attempt, last, reasoning, stripped)
  {
    var _ := SessionReads(upstream, attempt, reasoning, stripped);
    LastIsShown(upstream(attempt), attempt, reasoning, stripped);
    CountingStep(attempt, last);
    StripsLater(upstream, attempt, last, reasoning, stripped);
    forall m | attempt <= m < last ensures IsRetried(upstream(m)) {
      assert m != attempt ==> attempt + 1 <= m;
    }
  }

  /**
   * Everything sent in a run comes from its last attempt, and is exactly what
   * that attempt's reply is to show: all the payloads read before it stopped,
   * in order, or none of them, with at most one overflow event after them.
   */
  lemma {:induction false} OneAttemptIsShown(upstream: nat -> Reply, attempt: nat, reasoning: nat, stripped: bool) returns (last: nat)
    requires 1 <= attempt <= MAX_RETRIES
    ensures ShowsLast(upstream, attempt, last, reasoning, stripped)
    decreases MAX_RETRIES + 1 - attempt
  {
    var next := AttemptOf(upstream(attempt), attempt, reasoning, stripped).next;
    if next.Retry? && attempt < MAX_RETRIES {
      last := OneAttemptIsShown(upstream, attempt + 1, next.reasoning, next.stripped);
      ShowsLater(upstream, attempt, last, reasoning, stripped);
    } else {
      last := attempt;
      ShowsThis(upstream, attempt, reasoning, stripped);
    }
  }

  /** All five attempts failed before anything was released. */
  predicate AllFailUnseen(upstream: nat -> Reply) {
    forall m | 1 <= m <= MAX_RETRIES :: upstream(m).Stream? && FailsUnseen(upstream(m).payloads)
  }

  /**
   * When every attempt fails unseen the client gets what the fifth one held
   * back, and the error itself is not among it.
   */
  lemma LastErrorIsNotForwarded(upstream: nat -> Reply, reasoning: nat)
    requires AllFailUnseen(upstream)
    ensures var payloads := upstream(MAX_RETRIES).payloads;
            var k, log := StopAt(payloads), Session(upstream, FIRST, reasoning, false);
            && k < |payloads| && payloads[k].isError
            && PostsIn(log) == Counting(FIRST, MAX_RETRIES)
            && SendsIn(log) == Texts(payloads[..k])
            && (Send(payloads[k].text) in SendsIn(log) <==> exists i | 0 <= i < k :: payloads[i].text == payloads[k].text)
  {
    var last := OneAttemptIsShown(upstream, FIRST, reasoning, false);
    UnseenToTheLast(upstream, last, reasoning);
    var payloads := upstream(last).payloads;
    TextsHold(payloads[..StopAt(payloads)], payloads[StopAt(payloads)].text);
  }

  lemma UnseenToTheLast(upstream: nat -> Reply, last: nat, reasoning: nat)
    requires AllFailUnseen(upstream) && ShowsLast(upstream, FIRST, last, reasoning, false)
    ensures last == MAX_RETRIES
    ensures var payloads := upstream(last).payloads;
            SendsIn(Session(upstream, FIRST, reasoning, false)) == Texts(payloads[..StopAt(payloads)])
  {
    assert IsRetried(upstream(last));
  }

  lemma TextsHold(payloads: seq<Payload>, text: string)
    ensures Send(text) in Texts(payloads) <==> exists i | 0 <= i < |payloads| :: payloads[i].text == text
  {
    if i :| 0 <= i < |payloads| && payloads[i].text == text {
      assert Texts(payloads)[i] == Send(text);
    }
  }

  lemma SessionSleeps(upstream: nat -> Reply, attempt: nat, reasoning: nat, stripped: bool) returns (next: Next)
    requires 1 <= attempt <= MAX_RETRIES
    ensures next.Over? ==> SleptIn(Session(upstream, attempt, reasoning, stripped)) == 0
    ensures next.Retry? ==>
              SleptIn(Session(upstream, attempt, reasoning, stripped)) <=
              LongestPause(attempt) + SleptIn(Session(upstream, attempt + 1, next.reasoning, next.stripped))
  {
    var a := SessionReads(upstream, attempt, reasoning, stripped);
    next := a.next;
  }

  /** The pauses still to come when every attempt from this one on is rate limited. */
  function PausesFrom(attempt: nat): nat
    requires 1 <= attempt <= MAX_RETRIES + 1
    decreases MAX_RETRIES + 1 - attempt
  {
    if attempt > MAX_RETRIES then 0 else LongestPause(attempt) + PausesFrom(attempt + 1)
  }

  lemma OneMorePause(attempt: nat)
    requires 1 <= attempt <= MAX_RETRIES
    ensures PausesFrom(attempt) == LongestPause(attempt) + PausesFrom(attempt + 1)
  {
  }

  lemma {:induction false} SessionSleepsAtMost(upstream: nat -> Reply, attempt: nat, reasoning: nat, stripped: bool)
    requires 1 <= attempt <= MAX_RETRIES + 1
    ensures SleptIn(Session(upstream, attempt, reasoning, stripped)) <= PausesFrom(attempt)
    decreases MAX_RETRIES + 1 - attempt
  {
    if attempt > MAX_RETRIES {
      AfterTheFifth(upstream, reasoning, stripped);
    } else {
      var next := SessionSleeps(upstream, attempt, reasoning, stripped);
      OneMorePause(attempt);
      if next.Retry? {
        SessionSleepsAtMost(upstream, attempt + 1, next.reasoning, next.stripped);
      }
    }
  }

  /** A whole run waits no longer than 45 seconds in all, however its attempts go. */
  lemma SessionSleepsBriefly(upstream: nat -> Reply, reasoning: nat)
    ensures SleptIn(Session(upstream, FIRST, reasoning, false)) <= 45
  {
    SessionSleepsAtMost(upstream, FIRST, reasoning, false);
    assert Pow2(1) == 2 && Pow2(2) == 4 && Pow2(3) == 8;
    assert PausesFrom(4) == 24 && PausesFrom(2) == 42;
  }
}
