/** The retryers: when an attempt is repeated, when to give up, and what a caller gets. */
module Retryers {
  import opened Helpers
  import opened Wrappers

  datatype Outcome<V, E> = Returned(value: V) | Raised(error: E)

  /** A result check may itself raise. */
  datatype Check<E> = Checked(ok: bool) | CheckRaised(error: E)

  /** `retryOn` says of which exceptions an attempt is repeated.  `attempts` of 0 is "not
      set".  `wait(n)` is the sleep after attempt number n. */
  datatype Settings<!V, !E> = Settings(
    retryOn: E -> bool,
    check: Option<V -> Check<E>>,
    attempts: nat,
    timeout: Option<nat>,
    wait: nat -> nat)

  /** How a retried call ends. */
  datatype End<V, E> = Value(value: V) | Failure(error: E) | RetryError(last: Outcome<V, E>)

  datatype Decision<V, E> = Done(end: End<V, E>) | Sleep(time: nat)

  // ---------- Building a retryer ----------

  /** Exceptions to retry on: every `Exception` unless the caller says otherwise. */
  function RetryOnOrDefault<E>(retryOn: Option<E -> bool>, isException: E -> bool): E -> bool {
    match retryOn case None => isException case Some(classes) => classes
  }

  /** `constant_retryer`; None is the ValueError it raises when it could never stop. */
  function ConstantRetryer<V, E>(wait: nat, attempts: nat, timeout: Option<nat>, retryOn: Option<E -> bool>,
                                 check: Option<V -> Check<E>>, isException: E -> bool): Option<Settings<V, E>> {
    if attempts < 1 && timeout.None? then None
    else Some(Settings(RetryOnOrDefault(retryOn, isException), check, attempts, timeout, (n: nat) => wait))
  }

  function Pow2(n: nat): nat { if n == 0 then 1 else 2 * Pow2(n - 1) }

  /** The exponential wait, clamped to [low, high]; times are in the unit of the wait. */
  function ExponentialWait(low: nat, high: nat, n: nat): nat {
    Max(low, Min(Pow2(if n == 0 then 0 else n - 1), high))
  }

  function ExponentialRetryerWithTimeout<V, E>(low: nat, high: nat, timeout: nat, retryOn: Option<E -> bool>,
                                               check: Option<V -> Check<E>>, isException: E -> bool): Settings<V, E> {
    Settings(RetryOnOrDefault(retryOn, isException), check, 0, Some(timeout), (n: nat) => ExponentialWait(low, high, n))
  }

  /** `exponential_retryer_with_attempts`: retries on the given exceptions, on those a
      predicate picks, or, if neither is given, on every `Exception`; one attempt is made
      even when fewer are asked for. */
  function ExponentialRetryerWithAttempts<V, E>(low: nat, high: nat, attempts: nat, retryOn: Option<E -> bool>,
                                                predicate_: Option<E -> bool>, isException: E -> bool): Settings<V, E> {
    var onError := match (retryOn, predicate_)
                   case (None, None) => isException
                   case (Some(p), None) => p
                   case (None, Some(q)) => q
                   case (Some(p), Some(q)) => (e: E) => p(e) || q(e);
    Settings(onError, None, Max(attempts, 1), None, (n: nat) => ExponentialWait(low, high, n))
  }

  /** What the three retryers retry on: the exceptions asked for, of either way of asking, or
      every `Exception` if none was asked for; and how often at most. */
  lemma RetriesOnWhatWasAskedFor<V, E>(wait: nat, high: nat, attempts: nat, timeout: Option<nat>, classes: Option<E -> bool>,
                                       picked: Option<E -> bool>, check: Option<V -> Check<E>>, isException: E -> bool, e: E)
    ensures var s := ExponentialRetryerWithAttempts<V, E>(wait, high, attempts, classes, picked, isException);
            && (s.retryOn(e) <==> || (classes.Some? && classes.value(e)) || (picked.Some? && picked.value(e))
                                  || (classes.None? && picked.None? && isException(e)))
            && s.attempts == (if attempts == 0 then 1 else attempts) && s.timeout.None? && s.check.None?
    ensures forall t: nat :: var s := ExponentialRetryerWithTimeout<V, E>(wait, high, t, classes, check, isException);
              && (s.retryOn(e) <==> if classes.Some? then classes.value(e) else isException(e))
              && s.attempts == 0 && s.timeout == Some(t) && s.check == check
    ensures var made := ConstantRetryer<V, E>(wait, attempts, timeout, classes, check, isException);
            && (made.None? <==> attempts == 0 && timeout.None?)
            && (made.Some? ==>
                  && (made.value.retryOn(e) <==> if classes.Some? then classes.value(e) else isException(e))
                  && made.value.attempts == attempts && made.value.timeout == timeout && made.value.check == check
                  && forall n :: made.value.wait(n) == wait)
  {
  }

  // ---------- One decision ----------

  /** A check that raises one of the exceptions to retry on counts as "not passed". */
  function SafeCheck<V, E>(s: Settings<V, E>, value: V): Check<E> {
    if s.check.None? then Checked(true)
    else match s.check.value(value)
         case Checked(ok) => Checked(ok)
         case CheckRaised(e) => if s.retryOn(e) then Checked(false) else CheckRaised(e)
  }

  predicate ShouldRetry<V, E>(s: Settings<V, E>, o: Outcome<V, E>) {
    match o
    case Raised(e) => s.retryOn(e)
    case Returned(v) => SafeCheck(s, v) == Checked(false)
  }

  /** `n` attempts were made, `elapsed` is the time from the first start to the last end. */
  predicate ShouldStop<V, E>(s: Settings<V, E>, n: nat, elapsed: nat) {
    (s.attempts > 0 && n >= s.attempts) || (s.timeout.Some? && elapsed >= s.timeout.value)
  }

  function Decide<V, E>(s: Settings<V, E>, n: nat, elapsed: nat, o: Outcome<V, E>): Decision<V, E> {
    if ShouldRetry(s, o) then
      if ShouldStop(s, n, elapsed) then Done(RetryError(o)) else Sleep(s.wait(n))
    else match o
         case Raised(e) => Done(Failure(e))
         case Returned(v) =>
           match SafeCheck(s, v)
           case Checked(_) => Done(Value(v))
           case CheckRaised(e) => Done(Failure(e))
  }

  // ---------- Runs ----------

  datatype Attempt<V, E> = Attempt(start: nat, end: nat, outcome: Outcome<V, E>)

  ghost predicate Continues<V, E>(s: Settings<V, E>, calls: seq<Attempt<V, E>>, i: nat)
    requires i + 1 < |calls|
  {
    var d := Decide(s, i + 1, calls[i].end, calls[i].outcome);
    d.Sleep? && calls[i + 1].start == calls[i].end + d.time
  }

  ghost predicate InProgress<V, E>(s: Settings<V, E>, calls: seq<Attempt<V, E>>) {
    && calls != [] && calls[0].start == 0
    && (forall i :: 0 <= i < |calls| ==> calls[i].start <= calls[i].end)
    && (forall i :: 0 <= i < |calls| - 1 ==> Continues(s, calls, i))
  }

  /** A finished run: the attempts made, and how the whole call ended. */
  ghost predicate Run<V, E>(s: Settings<V, E>, calls: seq<Attempt<V, E>>, end: End<V, E>) {
    && InProgress(s, calls)
    && Decide(s, |calls|, calls[|calls| - 1].end, calls[|calls| - 1].outcome) == Done(end)
  }

  /** What the environment does on each attempt: how long it takes and how it comes out. */
  datatype Response<V, E> = Response(duration: nat, outcome: Outcome<V, E>)

  /** The attempts are those the environment answers. */
  ghost predicate Follows<V, E>(env: nat -> Response<V, E>, calls: seq<Attempt<V, E>>) {
    forall i :: 0 <= i < |calls| ==>
      calls[i].outcome == env(i).outcome && calls[i].end == calls[i].start + env(i).duration
  }

  /** In this environment a retried call ends so. */
  ghost predicate EndsAs<V(!new), E(!new)>(s: Settings<V, E>, env: nat -> Response<V, E>, end: End<V, E>) {
    exists calls :: Run(s, calls, end) && Follows(env, calls)
  }

  /** When attempt number n (from 0) starts and ends, if it comes to that. */
  function StartTime<V, E>(s: Settings<V, E>, env: nat -> Response<V, E>, n: nat): nat
    decreases n, 0
  {
    if n == 0 then 0 else EndTime(s, env, n - 1) + s.wait(n)
  }

  function EndTime<V, E>(s: Settings<V, E>, env: nat -> Response<V, E>, n: nat): nat
    decreases n, 1
  {
    StartTime(s, env, n) + env(n).duration
  }

  predicate EndsAt<V, E>(s: Settings<V, E>, env: nat -> Response<V, E>, n: nat) {
    Decide(s, n + 1, EndTime(s, env, n), env(n).outcome).Done?
  }

  /** Some attempt is the last. */
  ghost predicate Terminates<V, E>(s: Settings<V, E>, env: nat -> Response<V, E>) {
    exists n :: EndsAt(s, env, n)
  }

  lemma OneMore<V, E>(s: Settings<V, E>, env: nat -> Response<V, E>, calls: seq<Attempt<V, E>>, call: Attempt<V, E>)
    requires Follows(env, calls) && call.outcome == env(|calls|).outcome && call.end == call.start + env(|calls|).duration
    requires calls == [] ==> call.start == 0
    requires calls != [] ==>
               var d := Decide(s, |calls|, calls[|calls| - 1].end, calls[|calls| - 1].outcome);
               InProgress(s, calls) && d.Sleep? && call.start == calls[|calls| - 1].end + d.time
    ensures InProgress(s, calls + [call]) && Follows(env, calls + [call])
  {
    var more := calls + [call];
    forall i | 0 <= i < |more| - 1 ensures Continues(s, more, i) {
      if i < |calls| - 1 { assert Continues(s, calls, i); }
    }
  }

  /** The retry loop, for any settings and any environment in which it does not go on forever. */
  method Retry<V(!new), E(!new)>(s: Settings<V, E>, env: nat -> Response<V, E>)
    returns (end: End<V, E>, ghost calls: seq<Attempt<V, E>>)
    requires Terminates(s, env)
    ensures EndsAs(s, env, end)
    ensures Run(s, calls, end) && Follows(env, calls)
  {
    ghost var last: nat :| EndsAt(s, env, last);
    var now, n := 0, 0;
    calls := [];
    while true
      invariant n == |calls| && n <= last && now == StartTime(s, env, n)
      invariant n > 0 ==> InProgress(s, calls) && Decide(s, n, calls[n - 1].end, calls[n - 1].outcome) == Sleep(s.wait(n))
      invariant n > 0 ==> now == calls[n - 1].end + s.wait(n)
      invariant Follows(env, calls)
      decreases last - n
    {
      var response := env(n);
      ghost var call := Attempt(now, now + response.duration, response.outcome);
      OneMore(s, env, calls, call);
      calls := calls + [call];
      now, n := now + response.duration, n + 1;
      match Decide(s, n, now, response.outcome) {
        case Done(e) =>
          assert Run(s, calls, e) && Follows(env, calls);
          return e, calls;
        case Sleep(time) => now := now + time;
      }
    }
  }

  lemma EndTimeGrows<V, E>(s: Settings<V, E>, env: nat -> Response<V, E>, n: nat)
    requires forall k :: k > 0 ==> s.wait(k) + env(k).duration > 0
    ensures EndTime(s, env, n) >= n
  {
    if n > 0 { EndTimeGrows(s, env, n - 1); }
  }

  /** It does end when attempts are limited, or when there is a timeout and time passes: each
      further attempt has a wait before it or takes some time itself. */
  lemma TerminatesWhen<V, E>(s: Settings<V, E>, env: nat -> Response<V, E>)
    requires s.attempts > 0 || (s.timeout.Some? && forall k :: k > 0 ==> s.wait(k) + env(k).duration > 0)
    ensures Terminates(s, env)
  {
    if s.attempts > 0 {
      assert EndsAt(s, env, s.attempts - 1);
    } else {
      EndTimeGrows(s, env, s.timeout.value);
      assert EndsAt(s, env, s.timeout.value);
    }
  }

  lemma {:induction false} RunTimes<V, E>(s: Settings<V, E>, env: nat -> Response<V, E>,
                                          calls: seq<Attempt<V, E>>, i: nat)
    requires InProgress(s, calls) && Follows(env, calls) && i < |calls|
    ensures calls[i].start == StartTime(s, env, i) && calls[i].end == EndTime(s, env, i)
  {
    if i > 0 {
      RunTimes(s, env, calls, i - 1);
      assert Continues(s, calls, i - 1);
    }
  }

  /** A call that ends has a last attempt: the loop is not asked more than the caller is. */
  lemma EndsOnlyIfTerminates<V(!new), E(!new)>(s: Settings<V, E>, env: nat -> Response<V, E>, end: End<V, E>)
    requires EndsAs(s, env, end)
    ensures Terminates(s, env)
  {
    var calls: seq<Attempt<V, E>> :| Run(s, calls, end) && Follows(env, calls);
    RunTimes(s, env, calls, |calls| - 1);
    assert EndsAt(s, env, |calls| - 1);
  }

  // ---------- What a run guarantees ----------

  lemma EachGoesOn<V, E>(s: Settings<V, E>, calls: seq<Attempt<V, E>>)
    requires InProgress(s, calls)
    ensures forall i {:trigger calls[i]} :: 0 <= i < |calls| - 1 ==>
              Decide(s, i + 1, calls[i].end, calls[i].outcome).Sleep?
  {
    forall i | 0 <= i < |calls| - 1 ensures Decide(s, i + 1, calls[i].end, calls[i].outcome).Sleep? {
      assert Continues(s, calls, i);
    }
  }

  /** Everything a caller can rely on, whatever the environment did. */
  lemma RunGuarantees<V, E>(s: Settings<V, E>, calls: seq<Attempt<V, E>>, end: End<V, E>)
    requires Run(s, calls, end)
    ensures s.attempts > 0 ==> |calls| <= s.attempts
    ensures s.timeout.Some? ==>
              forall i :: 0 < i < |calls| ==> calls[i].start < s.timeout.value + s.wait(i)
    ensures forall i :: 0 <= i < |calls| - 1 ==> ShouldRetry(s, calls[i].outcome)
    ensures end.Value? ==> calls[|calls| - 1].outcome == Returned(end.value)
                           && (s.check.Some? ==> s.check.value(end.value) == Checked(true))
    ensures end.RetryError? ==> end.last == calls[|calls| - 1].outcome && ShouldRetry(s, end.last)
                                && ShouldStop(s, |calls|, calls[|calls| - 1].end)
    ensures end.Failure? ==> !s.retryOn(end.error)
                             && (calls[|calls| - 1].outcome == Raised(end.error)
                                 || (calls[|calls| - 1].outcome.Returned? && s.check.Some?
                                     && s.check.value(calls[|calls| - 1].outcome.value) == CheckRaised(end.error)))
  {
    forall i | 0 <= i < |calls| - 1
      ensures ShouldRetry(s, calls[i].outcome) && !ShouldStop(s, i + 1, calls[i].end)
              && calls[i + 1].start == calls[i].end + s.wait(i + 1)
    {
      assert Continues(s, calls, i);
    }
    if |calls| > 1 { assert !ShouldStop(s, |calls| - 1, calls[|calls| - 2].end); }
    forall i | 0 < i < |calls| && s.timeout.Some? ensures calls[i].start < s.timeout.value + s.wait(i) {
      assert calls[i - 1 + 1].start == calls[i - 1].end + s.wait(i);
    }
  }

  /** How a run goes on and how it ends, in terms of its settings: an attempt is repeated,
      after the wait, if it raised what is retried on or did not pass the check, and neither
      limit was reached; out of the limits it ends in a RetryError; any other attempt ends it
      with its own value or error. */
  lemma EndsExactly<V, E>(s: Settings<V, E>, calls: seq<Attempt<V, E>>, end: End<V, E>, i: nat)
    requires Run(s, calls, end) && i < |calls|
    ensures var o := calls[i].outcome;
            var again := match o
                         case Raised(e) => s.retryOn(e)
                         case Returned(v) =>
                           && s.check.Some?
                           && var checked := s.check.value(v);
                              checked == Checked(false) || (checked.CheckRaised? && s.retryOn(checked.error));
            var out := (s.attempts > 0 && i + 1 >= s.attempts) || (s.timeout.Some? && calls[i].end >= s.timeout.value);
            if again then
              if out then i + 1 == |calls| && end == RetryError(o)
              else i + 1 < |calls| && calls[i + 1].start == calls[i].end + s.wait(i + 1)
            else
              && i + 1 == |calls|
              && match o
                 case Raised(e) => end == Failure(e)
                 case Returned(v) =>
                   end == if s.check.Some? && s.check.value(v).CheckRaised? then Failure(s.check.value(v).error) else Value(v)
  {
    if i + 1 < |calls| { assert Continues(s, calls, i); }
  }

  /** The exponential waits that are used: doubled from one on, within the bounds. */
  lemma WaitsDouble(n: nat)
    requires n > 0
    ensures ExponentialWait(1, 10, n) == if n <= 4 then [1, 2, 4, 8][n - 1] else 10
    ensures ExponentialWait(10, 30, n) == if n <= 4 then 10 else if n == 5 then 16 else 30
  {
    if n > 5 { Pow2Grows(n - 1); }
    assert Pow2(0) == 1 && Pow2(1) == 2 && Pow2(2) == 4 && Pow2(3) == 8 && Pow2(4) == 16;
  }

  lemma {:induction false} Pow2Grows(n: nat)
    requires n >= 5
    ensures Pow2(n) >= 32
  {
    if n > 5 { Pow2Grows(n - 1); } else { assert Pow2(5) == 2 * Pow2(4) == 4 * Pow2(3) == 8 * Pow2(2) == 32; }
  }

  /** A non-retryable exception ends the run at once, whichever attempt raised it. */
  lemma NonRetryableEndsRun<V, E>(s: Settings<V, E>, calls: seq<Attempt<V, E>>, end: End<V, E>, i: nat)
    requires Run(s, calls, end) && i < |calls|
    requires calls[i].outcome.Raised? && !s.retryOn(calls[i].outcome.error)
    ensures i == |calls| - 1 && end == Failure(calls[i].outcome.error)
  {
    EachGoesOn(s, calls);
  }

  /** A run is determined by what the environment does. */
  lemma RunsAgree<V, E>(s: Settings<V, E>, a: seq<Attempt<V, E>>, b: seq<Attempt<V, E>>,
                        enda: End<V, E>, endb: End<V, E>, env: nat -> Response<V, E>)
    requires Run(s, a, enda) && Run(s, b, endb)
    requires Follows(env, a) && Follows(env, b)
    ensures a == b && enda == endb
  {
    PrefixesAgree(s, a, b, env, Min(|a|, |b|));
    EachGoesOn(s, a);
    EachGoesOn(s, b);
    var n := Min(|a|, |b|) - 1;
    assert a[..n + 1][n] == b[..n + 1][n];
  }

  lemma {:induction false} PrefixesAgree<V, E>(s: Settings<V, E>, a: seq<Attempt<V, E>>, b: seq<Attempt<V, E>>,
                                            env: nat -> Response<V, E>, n: nat)
    requires InProgress(s, a) && InProgress(s, b) && n <= |a| && n <= |b|
    requires Follows(env, a) && Follows(env, b)
    ensures a[..n] == b[..n]
  {
    if n > 0 {
      PrefixesAgree(s, a, b, env, n - 1);
      assert n > 1 ==> a[..n - 1][n - 2] == b[..n - 1][n - 2];
      if n > 1 {
        assert Continues(s, a, n - 2) && Continues(s, b, n - 2);
      }
      assert a[n - 1] == b[n - 1];
      assert a[..n] == a[..n - 1] + [a[n - 1]] && b[..n] == b[..n - 1] + [b[n - 1]];
    }
  }

  /** The exponential retryer starts no attempt at or after the timeout plus its longest wait. */
  lemma ExponentialStartsInTime<V, E>(low: nat, high: nat, timeout: nat, retryOn: Option<E -> bool>,
                                      check: Option<V -> Check<E>>, isException: E -> bool,
                                      calls: seq<Attempt<V, E>>, end: End<V, E>, i: nat)
    requires Run(ExponentialRetryerWithTimeout(low, high, timeout, retryOn, check, isException), calls, end)
    requires 0 < i < |calls|
    ensures calls[i].start < timeout + Max(low, high)
  {
    RunGuarantees(ExponentialRetryerWithTimeout(low, high, timeout, retryOn, check, isException), calls, end);
  }

  // ---------- When is the number of attempts bounded? ----------

  lemma {:induction false} TimePasses<V, E>(s: Settings<V, E>, calls: seq<Attempt<V, E>>, w: nat, i: nat)
    requires InProgress(s, calls) && (forall n :: s.wait(n) >= w) && i < |calls|
    ensures calls[i].start >= i * w
  {
    if i > 0 {
      TimePasses(s, calls, w, i - 1);
      assert Continues(s, calls, i - 1);
    }
  }

  /** With a timeout and waits of at least `w` the attempts are bounded by the timeout. */
  lemma AttemptsBoundedByTime<V, E>(s: Settings<V, E>, calls: seq<Attempt<V, E>>, w: nat)
    requires InProgress(s, calls) && (forall n :: s.wait(n) >= w) && s.timeout.Some? && |calls| >= 2
    ensures (|calls| - 2) * w < s.timeout.value
  {
    TimePasses(s, calls, w, |calls| - 2);
    assert Continues(s, calls, |calls| - 2);
  }

  lemma AttemptsBoundedByCount<V, E>(s: Settings<V, E>, calls: seq<Attempt<V, E>>)
    requires InProgress(s, calls) && s.attempts > 0
    ensures |calls| <= s.attempts
  {
    if |calls| > 1 { assert Continues(s, calls, |calls| - 2); }
  }

  ghost predicate NeverBeyond<V(!new), E(!new)>(s: Settings<V, E>, bound: nat) {
    forall calls :: InProgress(s, calls) ==> |calls| <= bound
  }

  lemma EndlessWithoutWait<V(!new), E(!new)>(s: Settings<V, E>, e: E, bound: nat)
    requires s.retryOn(e) && s.attempts == 0 && (forall n :: s.wait(n) == 0)
    requires s.timeout.Some? && s.timeout.value > 0
    ensures !NeverBeyond(s, bound)
  {
    var calls: seq<Attempt<V, E>> := seq(bound + 1, i => Attempt(0, 0, Raised(e)));
    forall i | 0 <= i < |calls| - 1 ensures Continues(s, calls, i) {}
    assert InProgress(s, calls);
  }

  lemma BoundedByTime<V(!new), E(!new)>(s: Settings<V, E>)
    requires s.timeout.Some? && (s.timeout.value == 0 || forall n :: s.wait(n) >= 1)
    ensures NeverBeyond(s, s.timeout.value + 2)
  {
    forall calls | InProgress(s, calls) ensures |calls| <= s.timeout.value + 2 {
      if |calls| >= 2 {
        AttemptsBoundedByTime(s, calls, if s.timeout.value == 0 then 0 else 1);
      }
    }
  }

  /** There is a number no run of the constant retryer gets past, whatever the environment
      does, exactly when the attempts are limited, the wait is not zero, or the timeout is. */
  lemma ConstantRetryerBoundedIff<V(!new), E(!new)>(s: Settings<V, E>, wait: nat, attempts: nat, timeout: Option<nat>,
                                     retryOn: Option<E -> bool>, check: Option<V -> Check<E>>, isException: E -> bool, e: E)
    requires ConstantRetryer(wait, attempts, timeout, retryOn, check, isException) == Some(s)
    requires s.retryOn(e)
    ensures (exists bound: nat :: NeverBeyond(s, bound)) <==> attempts > 0 || wait > 0 || timeout == Some(0)
  {
    if attempts > 0 {
      forall calls | InProgress(s, calls) ensures |calls| <= attempts { AttemptsBoundedByCount(s, calls); }
      assert NeverBeyond(s, attempts);
    } else if wait > 0 || timeout == Some(0) {
      BoundedByTime(s);
    } else {
      forall bound: nat ensures !NeverBeyond(s, bound) { EndlessWithoutWait(s, e, bound); }
    }
  }
}
