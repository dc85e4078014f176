/**
 What holds of every run of the Anthropic stream translation: token counts
 are high-water marks, the success terminator is earned, and tool calls are
 numbered among themselves.
*/
module AnthropicStreamLaws {
  import opened Wrappers
  import opened Text
  import opened JsonValues
  import opened Chat
  import opened AnthropicReply
  import opened AnthropicStream

  // ----- Failure -----

  predicate Fails(e: Event) {
    e.ErrorEvent? || (e.MessageDelta? && e.stop == Some(OVERFLOW_STOP))
  }

  predicate EndsTurn(e: Event) {
    e.MessageStop? || (e.MessageDelta? && e.stop.GetOr("") != "" && !Fails(e))
  }

  ghost predicate Healthy(events: seq<Event>) {
    forall e | e in events :: !Fails(e)
  }

  /** The events up to and including the first failing one: those acted on. */
  function Heard(events: seq<Event>): (heard: seq<Event>)
    ensures heard <= events
  {
    if events == [] then []
    else if Fails(events[0]) then [events[0]]
    else [events[0]] + Heard(events[1..])
  }

  lemma {:induction false} HeardSnoc(events: seq<Event>, e: Event)
    ensures Healthy(events) ==> Heard(events) == events && Heard(events + [e]) == events + [e]
    ensures !Healthy(events) ==> Heard(events + [e]) == Heard(events)
  {
    var all := events + [e];
    if events == [] {
      assert all[1..] == [];
    } else {
      assert all[1..] == events[1..] + [e];
      HeardSnoc(events[1..], e);
    }
  }

  lemma HealthySnoc(events: seq<Event>, e: Event)
    ensures Healthy(events + [e]) <==> Healthy(events) && !Fails(e)
  {
    var all := events + [e];
    assert all[|events|] == e;
    forall x | x in events ensures x in all {
    }
  }

  lemma StepFails(s: State, e: Event, env: Env)
    ensures Step(s, e, env).failed.Some? <==> s.failed.Some? || Fails(e)
    ensures s.failed.Some? ==> Step(s, e, env) == s
    ensures s.failed.None? && !Fails(e) ==> (Step(s, e, env).ended <==> s.ended || EndsTurn(e))
  {
  }

  lemma {:induction false} FailureIsSeen(events: seq<Event>, env: Env)
    ensures Fold(events, env).failed.None? <==> Healthy(events)
    ensures Fold(events, env) == Fold(Heard(events), env)
  {
    if events != [] {
      var front, e := events[..|events| - 1], events[|events| - 1];
      assert events == front + [e];
      FailureIsSeen(front, env);
      HeardSnoc(front, e);
      HealthySnoc(front, e);
      StepFails(Fold(front, env), e, env);
    }
  }

  // ----- Usage is a high-water mark -----

  function ReportIn(e: Event): Json {
    if e.MessageStart? || e.MessageDelta? || e.MessageStop? then e.usage else Null
  }

  /** Every valid count the events report under a key, in order. */
  function Reports(events: seq<Event>, key: string): seq<int> {
    if events == [] then []
    else
      var before := Reports(events[..|events| - 1], key);
      var count := CountAt(ReportIn(events[|events| - 1]), key);
      if count.Some? then before + [count.value] else before
  }

  ghost predicate IsMaximum(best: Option<int>, counts: seq<int>) {
    match best
    case None => counts == []
    case Some(m) => m in counts && forall x | x in counts :: x <= m
  }

  lemma StepAbsorbs(s: State, e: Event, env: Env, key: string)
    requires s.failed.None?
    ensures Lookup(Step(s, e, env).captured, key) == MaxOf(Lookup(s.captured, key), CountAt(ReportIn(e), key))
  {
    AbsorbAt(s.captured, ReportIn(e), key);
  }

  lemma MaximumSnoc(best: Option<int>, counts: seq<int>, count: Option<int>)
    requires IsMaximum(best, counts)
    ensures IsMaximum(MaxOf(best, count), if count.Some? then counts + [count.value] else counts)
  {
    if count.Some? {
      assert count.value == (counts + [count.value])[|counts|];
    }
  }

  lemma {:induction false} CapturedIsMaximum(events: seq<Event>, env: Env, key: string)
    requires Healthy(events[..if |events| == 0 then 0 else |events| - 1])
    ensures IsMaximum(Lookup(Fold(events, env).captured, key), Reports(events, key))
  {
    if events != [] {
      var front, e := events[..|events| - 1], events[|events| - 1];
      assert forall x | x in front[..if |front| == 0 then 0 else |front| - 1] :: x in front;
      CapturedIsMaximum(front, env, key);
      FailureIsSeen(front, env);
      StepAbsorbs(Fold(front, env), e, env, key);
      MaximumSnoc(Lookup(Fold(front, env).captured, key), Reports(front, key), CountAt(ReportIn(e), key));
    }
  }

  lemma {:induction false} HeardIsHealthyBefore(events: seq<Event>)
    ensures var heard := Heard(events); Healthy(heard[..if |heard| == 0 then 0 else |heard| - 1])
  {
    if events != [] && !Fails(events[0]) {
      HeardIsHealthyBefore(events[1..]);
      var heard, rest := Heard(events), Heard(events[1..]);
      if rest != [] {
        assert heard[..|heard| - 1] == [events[0]] + rest[..|rest| - 1];
      }
    }
  }

  /**
   * After any events, each captured field is the greatest valid count reported
   * for it in what was heard, and the metering row shows that figure even when
   * the run was cut off.
   */
  lemma HighWaterMark(events: seq<Event>, ending: Ending, env: Env, key: string,
                      holder: map<string, int>, outcome: Option<string>)
    ensures IsMaximum(Lookup(Fold(events, env).captured, key), Reports(Heard(events), key))
    ensures var metered := Translate(events, ending, env, holder, outcome).metered;
            Reports(Heard(events), key) != [] ==>
              && key in metered
              && IsMaximum(Some(metered[key]), Reports(Heard(events), key))
    ensures var metered := Translate(events, ending, env, holder, outcome).metered;
            Reports(Heard(events), key) == [] ==> Lookup(metered, key) == Lookup(holder, key)
  {
    HeardIsHealthyBefore(events);
    CapturedIsMaximum(Heard(events), env, key);
    FailureIsSeen(events, env);
  }

  /** A known count never shrinks and is never forgotten as events arrive. */
  lemma {:induction false} CountsNeverDecrease(events: seq<Event>, i: nat, env: Env, key: string)
    requires i <= |events|
    requires key in Fold(events[..i], env).captured
    ensures key in Fold(events, env).captured
    ensures Fold(events[..i], env).captured[key] <= Fold(events, env).captured[key]
    decreases |events|
  {
    if i == |events| {
      assert events[..i] == events;
    } else {
      var front, e := events[..|events| - 1], events[|events| - 1];
      assert front[..i] == events[..i];
      CountsNeverDecrease(front, i, env, key);
      var s := Fold(front, env);
      if s.failed.Some? {
        StepFails(s, e, env);
      } else {
        StepAbsorbs(s, e, env, key);
        assert Lookup(Step(s, e, env).captured, key).Some?;
      }
    }
  }

  lemma {:induction false} ReportsMembership(events: seq<Event>, key: string, x: int)
    ensures x in Reports(events, key) <==>
            exists e :: e in events && CountAt(ReportIn(e), key) == Some(x)
  {
    if events != [] {
      var front, last := events[..|events| - 1], events[|events| - 1];
      ReportsMembership(front, key, x);
      assert events == front + [last];
    }
  }

  /** The counts do not depend on the order the events came in. */
  lemma OrderDoesNotMatter(a: seq<Event>, b: seq<Event>, env: Env)
    requires Healthy(a) && multiset(a) == multiset(b)
    ensures Fold(a, env).captured == Fold(b, env).captured
  {
    forall e: Event ensures e in a <==> e in b {
      assert e in multiset(a) <==> e in multiset(b);
    }
    forall key ensures Lookup(Fold(a, env).captured, key) == Lookup(Fold(b, env).captured, key) {
      CapturedIsMaximum(a, env, key);
      CapturedIsMaximum(b, env, key);
      forall x: int ensures x in Reports(a, key) <==> x in Reports(b, key) {
        ReportsMembership(a, key, x);
        ReportsMembership(b, key, x);
      }
      assert Reports(a, key) == [] || Reports(a, key)[0] in Reports(b, key);
      assert Reports(b, key) == [] || Reports(b, key)[0] in Reports(a, key);
    }
    MapsAgree(Fold(a, env).captured, Fold(b, env).captured);
  }

  // ----- The terminator is earned -----

  predicate IsBody(c: Chunk) {
    c.Opening? || c.Content? || c.Reasoning? || IsTool(c)
  }

  ghost predicate AllBody(chunks: seq<Chunk>) {
    forall c | c in chunks :: IsBody(c)
  }

  /** The chunk an event yields while nothing has failed. */
  function Emission(s: State, e: Event): seq<Chunk> {
    match e
    case ToolStart(_, id, name) => [ToolOpen(s.next, id, name)]
    case TextDelta(text) => if text == "" then [] else [Content(text)]
    case ThinkingDelta(thinking) => if thinking == "" then [] else [Reasoning(thinking)]
    case InputDelta(key, partial) => if key in s.indexOf then [ToolArguments(s.indexOf[key], partial)] else []
    case _ => []
  }

  lemma StepYields(s: State, e: Event, env: Env)
    ensures Step(s, e, env).out == if s.failed.Some? then s.out else s.out + Emission(s, e)
  {
  }

  lemma {:induction false} LoopYieldsBody(events: seq<Event>, env: Env)
    ensures AllBody(Fold(events, env).out)
  {
    if events != [] {
      var front, e := events[..|events| - 1], events[|events| - 1];
      LoopYieldsBody(front, env);
      StepYields(Fold(front, env), e, env);
    }
  }

  lemma {:induction false} EndedIsEarned(events: seq<Event>, env: Env)
    requires Healthy(events)
    ensures Fold(events, env).ended <==> exists e :: e in events && EndsTurn(e)
  {
    if events != [] {
      var front, last := events[..|events| - 1], events[|events| - 1];
      assert events == front + [last];
      HealthySnoc(front, last);
      EndedIsEarned(front, env);
      FailureIsSeen(front, env);
      StepFails(Fold(front, env), last, env);
      assert last in events;
      assert forall e :: e in front ==> e in events;
    }
  }

  /** Body chunks, then the finish chunk, then the terminator. */
  ghost predicate EndsWell(out: seq<Chunk>) {
    && |out| >= 2
    && AllBody(out[..|out| - 2])
    && out[|out| - 2].Finish?
    && out[|out| - 1].Done?
  }

  /** Body chunks, then at most the counts reached, then one error and nothing more. */
  ghost predicate EndsInError(out: seq<Chunk>) {
    && |out| >= 1
    && out[|out| - 1].Failure?
    && (|| AllBody(out[..|out| - 1])
        || (|out| >= 2 && out[|out| - 2].UsageOnly? && AllBody(out[..|out| - 2])))
  }

  /**
   * A run to the end of its lines ends well or in an error, and well exactly
   * when the turn was ended and nothing failed. The outcome names an error
   * exactly when the run did not end well.
   */
  lemma EarnedTerminator(events: seq<Event>, env: Env, holder: map<string, int>)
    ensures var run := Translate(events, Exhausted, env, holder, None);
            && (EndsWell(run.out) <==> Healthy(events) && exists e :: e in events && EndsTurn(e))
            && (!EndsWell(run.out) ==> EndsInError(run.out))
            && (run.outcome.None? <==> EndsWell(run.out))
  {
    var s := Fold(events, env);
    LoopYieldsBody(events, env);
    FailureIsSeen(events, env);
    if s.failed.None? {
      EndedIsEarned(events, env);
    }
    TailEnds(s);
  }

  lemma TailEnds(s: State)
    requires AllBody(s.out)
    ensures EndsWell(s.out + Tail(s)) <==> s.failed.None? && s.ended
    ensures !EndsWell(s.out + Tail(s)) ==> EndsInError(s.out + Tail(s))
  {
    var out := s.out + Tail(s);
    if (s.failed.None? && s.ended) || StateUsage(s.captured).Some? {
      assert out[..|out| - 2] == s.out;
    } else {
      assert out[..|out| - 1] == s.out;
    }
  }

  predicate IsOverflow(e: Event, env: Env) {
    e.MessageDelta? || (e.ErrorEvent? && e.error.Some? && env.overflowIn(e.error.value).GetOr("") != "")
  }

  predicate NamesOverflow(error: ErrorObject) {
    error.code == Some(OVERFLOW_CODE) && Contains(error.message, OVERFLOW_CODE)
  }

  predicate Reported(error: ErrorObject, e: Event, env: Env) {
    && (IsOverflow(e, env) ==> NamesOverflow(error))
    && (e.ErrorEvent? && e.error.Some? && !IsOverflow(e, env) ==> error == e.error.value)
  }

  lemma FailureSays(s: State, e: Event, env: Env)
    requires s.failed.None? && Fails(e)
    ensures Step(s, e, env).failed.Some? && Reported(Step(s, e, env).failed.value, e, env)
  {
    if e.MessageDelta? {
      OverflowIsInItsMessage(OverflowSentence(env.model));
    } else if e.error.Some? {
      OverflowIsInItsMessage(env.overflowIn(e.error.value).GetOr(""));
    }
  }

  lemma OutcomeOfOverflow(error: ErrorObject)
    requires NamesOverflow(error)
    ensures ErrorType(error) == OVERFLOW_CODE
  {
  }

  /**
   * The first event that fails is the last thing reported: an overflow by its
   * code, in the error, in its message and in the metering row; any other
   * upstream error in its own words. Nothing after it is acted on.
   */
  lemma FirstFailureIsReported(front: seq<Event>, e: Event, rest: seq<Event>, ending: Ending, env: Env,
                               holder: map<string, int>, outcome: Option<string>)
    requires Healthy(front) && Fails(e)
    ensures var run := Translate(front + [e] + rest, ending, env, holder, outcome);
            && run == Translate(front + [e], ending, env, holder, outcome)
            && run.out != [] && run.out[|run.out| - 1].Failure?
            && Reported(run.out[|run.out| - 1].error, e, env)
            && (IsOverflow(e, env) ==> run.outcome == Some(OVERFLOW_CODE))
  {
    var heard := front + [e];
    assert (heard + rest)[..|heard|] == heard && heard[..|front|] == front;
    HealthySnoc(front, e);
    FailureIsSeen(front, env);
    FailureSays(Fold(front, env), e, env);
    var s := Fold(heard, env);
    assert s == Step(Fold(front, env), e, env);
    FailedStays(heard + rest, |heard|, env);
    if IsOverflow(e, env) {
      OutcomeOfOverflow(s.failed.value);
    }
  }

  /** A finish reason and the terminator only ever come together, at the end of a run that ended well. */
  lemma FinishOnlyWithDone(events: seq<Event>, ending: Ending, env: Env,
                           holder: map<string, int>, outcome: Option<string>, c: Chunk)
    requires c in Translate(events, ending, env, holder, outcome).out && (c.Finish? || c.Done?)
    ensures EndsWell(Translate(events, ending, env, holder, outcome).out)
  {
    var s := Fold(events, env);
    var run := Translate(events, ending, env, holder, outcome);
    LoopYieldsBody(events, env);
    assert c !in s.out;
    assert run.out == s.out + Tail(s);
    assert c in Tail(s);
    assert Tail(s) == [Finish(LastFinish(s), StateUsage(s.captured)), Done];
    assert run.out[..|run.out| - 2] == s.out;
  }

  /** A run cut off by the transport or the caller names an error and never claims success. */
  lemma AbortIsNamed(events: seq<Event>, env: Env, holder: map<string, int>, outcome: Option<string>)
    ensures var run := Translate(events, Aborted, env, holder, outcome);
            && run.outcome.GetOr("") != ""
            && FreeOfTerminators(run.out)
  {
    LoopYieldsBody(events, env);
    var s := Fold(events, env);
    if s.failed.Some? {
      var run := Translate(events, Aborted, env, holder, outcome);
      assert run.out == s.out + (PartialCounts(s.captured) + [Failure(s.failed.value)]);
    }
  }

  ghost predicate FreeOfTerminators(out: seq<Chunk>) {
    forall c | c in out :: !c.Finish? && !c.Done?
  }
}
