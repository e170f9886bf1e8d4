/** How calls to the Kubernetes API react to errors. */
module K8sErrors {
  import opened Helpers
  import opened Wrappers
  import opened Retryers

  datatype Error =
    | MaxRetryError(reason: Option<Error>)
    | NewConnectionError
    | ProtocolError(message: string)
    | OtherHttpError(id: int)
    | ApiException(status: int, body: Option<string>)
    | FailToCreateError(exceptions: seq<Error>)
    | NotFound
    | Other(id: int)

  datatype RetryerKind = ServerRestart | TooManyRequests | QuickRecovery

  datatype Handling = UseRetryer(kind: RetryerKind) | NoRetryer | RaiseNotFound

  /** `_RETRY_ON_EXCEPTIONS`: urllib3 HTTP errors, API exceptions and creation failures. */
  predicate RetryOn(e: Error) {
    !e.NotFound? && !e.Other?
  }

  // ---------- Dispatch ----------

  function Lower(s: string): string {
    seq(|s|, i requires 0 <= i < |s| => LowerChar(s[i]))
  }

  function HandleApiException(status: int, body: Option<string>): Handling {
    var text := if body.Some? then Lower(body.value) else "";
    if status == 401 then UseRetryer(ServerRestart)
    else if status == 404 then RaiseNotFound
    else if status == 409 then UseRetryer(QuickRecovery)
    else if status == 429 then UseRetryer(TooManyRequests)
    else if status == 500 then
      if Contains(text, "connection refused") then UseRetryer(ServerRestart)
      else if Contains(text, "too many requests") || Contains(text, "currently unable to handle the request")
              || Contains(text, "enhance_your_calm") then UseRetryer(TooManyRequests)
      else UseRetryer(QuickRecovery)
    else if status == 504 then UseRetryer(ServerRestart)
    else NoRetryer
  }

  /** `_handle_exception`, with its recursion through wrapped errors. */
  function HandleException(e: Error): Handling {
    match e
    case MaxRetryError(reason) => if reason.Some? then HandleException(reason.value) else NoRetryer
    case NewConnectionError => UseRetryer(ServerRestart)
    case ProtocolError(message) =>
      if Contains(Lower(message), "connection aborted") then UseRetryer(ServerRestart) else UseRetryer(QuickRecovery)
    case ApiException(status, body) => HandleApiException(status, body)
    case FailToCreateError(es) => if |es| == 1 then HandleException(es[0]) else NoRetryer
    case _ => NoRetryer
  }

  /** `inner` is what `e` wraps, directly. */
  predicate Wraps(e: Error, inner: Error) {
    e == MaxRetryError(Some(inner)) || e == FailToCreateError([inner])
  }

  predicate WrapsNothing(e: Error) {
    !(e.MaxRetryError? && e.reason.Some?) && !(e.FailToCreateError? && |e.exceptions| == 1)
  }

  /** `chain` peels `e` down, wrapper by wrapper, to something that wraps nothing. */
  ghost predicate Peels(e: Error, chain: seq<Error>) {
    && chain != [] && chain[0] == e
    && (forall i :: 0 <= i < |chain| - 1 ==> Wraps(chain[i], chain[i + 1]))
    && WrapsNothing(chain[|chain| - 1])
  }

  /** Every tower of wrapped errors has a core, and the error is handled as its core is. */
  lemma {:induction false} HandledAsItsCore(e: Error) returns (chain: seq<Error>)
    ensures Peels(e, chain)
    ensures HandleException(e) == HandleException(chain[|chain| - 1])
  {
    chain := [e];
    if e.MaxRetryError? && e.reason.Some? {
      var rest := HandledAsItsCore(e.reason.value);
      chain := [e] + rest;
    } else if e.FailToCreateError? && |e.exceptions| == 1 {
      assert e.exceptions == [e.exceptions[0]];
      var rest := HandledAsItsCore(e.exceptions[0]);
      chain := [e] + rest;
    }
  }

  lemma PeelsFurther(e: Error, chain: seq<Error>)
    requires Peels(e, chain)
    ensures |chain| > 1 <==> !WrapsNothing(e)
    ensures |chain| > 1 ==> Wraps(e, chain[1]) && Peels(chain[1], chain[1..])
  {
    if |chain| > 1 {
      assert Wraps(chain[0], chain[0 + 1]);
      forall i | 0 <= i < |chain[1..]| - 1 ensures Wraps(chain[1..][i], chain[1..][i + 1]) {
        assert Wraps(chain[i + 1], chain[i + 1 + 1]);
      }
    }
  }

  /** The core is unique, so handling never depends on how an error came to be wrapped. */
  lemma {:induction false} CoreIsUnique(e: Error, a: seq<Error>, b: seq<Error>)
    requires Peels(e, a) && Peels(e, b)
    ensures a == b
    decreases |a|
  {
    PeelsFurther(e, a);
    PeelsFurther(e, b);
    if |a| > 1 {
      CoreIsUnique(a[1], a[1..], b[1..]);
      assert a == [a[0]] + a[1..] && b == [b[0]] + b[1..];
    }
  }

  /** An auth refresh happens while handling `e`. */
  predicate Refreshes(e: Error) {
    match e
    case MaxRetryError(reason) => reason.Some? && Refreshes(reason.value)
    case ApiException(status, body) => status == 401
    case FailToCreateError(es) => |es| == 1 && Refreshes(es[0])
    case _ => false
  }

  // ---------- Execution ----------

  type Reply<V> = Response<V, Error>

  /** Times in seconds. */
  function SettingsOf<V>(kind: RetryerKind): Settings<V, Error> {
    match kind
    case ServerRestart => ExponentialRetryerWithTimeout(1, 10, 180, Some(RetryOn), None, RetryOn)
    case TooManyRequests => ExponentialRetryerWithTimeout(10, 30, 180, Some(RetryOn), None, RetryOn)
    case QuickRecovery => ConstantRetryer(1, 3, None, Some(RetryOn), None, RetryOn).value
  }

  predicate Is404<V>(o: Outcome<V, Error>) {
    o.Raised? && o.error.ApiException? && o.error.status == 404
  }

  /** The retried method: a plain 404 becomes NotFound, which is not retried. */
  function With404Handler<V(!new)>(o: Outcome<V, Error>): Outcome<V, Error> {
    if Is404(o) then Raised(NotFound) else o
  }

  class KubernetesApiManager {
    /** How many times the client was reloaded to refresh its credentials. */
    var reloads: nat

    constructor ()
      ensures reloads == 0
    {
      reloads := 0;
    }

    method Handle(e: Error) returns (h: Handling)
      modifies this
      ensures h == HandleException(e)
      ensures reloads == old(reloads) + if Refreshes(e) then 1 else 0
      decreases e
    {
      match e {
        case MaxRetryError(reason) =>
          if reason.Some? { h := Handle(reason.value); } else { h := NoRetryer; }
        case ApiException(status, body) =>
          if status == 401 { reloads := reloads + 1; }
          h := HandleApiException(status, body);
        case FailToCreateError(es) =>
          if |es| == 1 { h := Handle(es[0]); } else { h := NoRetryer; }
        case _ => h := HandleException(e);
      }
    }

    /** `_execute`: the method is called for the first time outside any retryer, and its
        error, if any, picks the retryer for the rest.  `n` is the number of calls made. */
    method Execute<V(!new)>(env: nat -> Reply<V>) returns (end: End<V, Error>, ghost n: nat)
      modifies this
      ensures n > 0 && ExecuteRun(env, n, end)
      ensures reloads == old(reloads) + if env(0).outcome.Raised? && RetryOn(env(0).outcome.error)
                                           && Refreshes(env(0).outcome.error) then 1 else 0
    {
      n := 1;
      match env(0).outcome {
        case Returned(v) => end := Value(v);
        case Raised(e) =>
          if !RetryOn(e) { return Failure(e), 1; }
          var h := Handle(e);
          match h {
            case RaiseNotFound => end := Failure(NotFound);
            case NoRetryer => end := Failure(e);
            case UseRetryer(kind) =>
              ghost var calls;
              WaitsPositive<V>(kind);
              TerminatesWhen(SettingsOf<V>(kind), Rest(env));
              end, calls := Retry(SettingsOf<V>(kind), Rest(env));
              n := 1 + |calls|;
              RestIsAnswered(env, calls);
              assert RetriedRun(env, kind, calls, end);
          }
      }
    }
  }

  lemma WaitsPositive<V>(kind: RetryerKind)
    ensures forall k :: SettingsOf<V>(kind).wait(k) > 0
    ensures SettingsOf<V>(kind).attempts > 0 || SettingsOf<V>(kind).timeout.Some?
  {
  }

  /** What the environment shows the retryer: the calls after the first. */
  function Rest<V(!new)>(env: nat -> Reply<V>): nat -> Reply<V> {
    (i: nat) => Response(env(i + 1).duration, With404Handler(env(i + 1).outcome))
  }

  /** The attempts are the calls after the first. */
  ghost predicate Answered<V(!new)>(env: nat -> Reply<V>, calls: seq<Attempt<V, Error>>) {
    forall i :: 0 <= i < |calls| ==>
      calls[i].outcome == With404Handler(env(i + 1).outcome) && calls[i].end == calls[i].start + env(i + 1).duration
  }

  ghost predicate RetriedRun<V(!new)>(env: nat -> Reply<V>, kind: RetryerKind, calls: seq<Attempt<V, Error>>,
                                      end: End<V, Error>) {
    Run(SettingsOf<V>(kind), calls, end) && Answered(env, calls)
  }

  lemma RestIsAnswered<V(!new)>(env: nat -> Reply<V>, calls: seq<Attempt<V, Error>>)
    requires Follows(Rest(env), calls)
    ensures Answered(env, calls)
  {
  }

  /** `n` calls of the method, ending in `end`, is a possible run of `_execute`. */
  ghost predicate ExecuteRun<V(!new)>(env: nat -> Reply<V>, n: nat, end: End<V, Error>) {
    match env(0).outcome
    case Returned(v) => n == 1 && end == Value(v)
    case Raised(e) =>
      if !RetryOn(e) then n == 1 && end == Failure(e)
      else match HandleException(e)
           case RaiseNotFound => n == 1 && end == Failure(NotFound)
           case NoRetryer => n == 1 && end == Failure(e)
           case UseRetryer(kind) =>
             exists calls :: |calls| + 1 == n && RetriedRun(env, kind, calls, end)
  }

  /** Every run ends with something that really came out of the last call, or NotFound. */
  lemma ExecuteGuarantees<V(!new)>(env: nat -> Reply<V>, n: nat, end: End<V, Error>)
    requires ExecuteRun(env, n, end)
    ensures n > 0
    ensures end.Value? ==> env(n - 1).outcome == Returned(end.value)
    ensures end.Failure? ==> end.error == NotFound || env(n - 1).outcome == Raised(end.error)
    ensures end.RetryError? ==> n > 1 && end.last == env(n - 1).outcome && end.last.Raised? && RetryOn(end.last.error)
    ensures end.Failure? && n > 1 ==> end.error == NotFound || end.error.Other?
    ensures (&& env(0).outcome.Raised? && RetryOn(env(0).outcome.error)
             && HandleException(env(0).outcome.error) == UseRetryer(QuickRecovery)) ==> n <= 4
  {
    if env(0).outcome.Raised? && RetryOn(env(0).outcome.error) && HandleException(env(0).outcome.error).UseRetryer? {
      var kind := HandleException(env(0).outcome.error).kind;
      var calls: seq<Attempt<V, Error>> :| |calls| + 1 == n && RetriedRun(env, kind, calls, end);
      RunGuarantees(SettingsOf<V>(kind), calls, end);
    }
  }

  /** A plain 404 ends the run with NotFound, at whichever call it comes. */
  lemma Plain404EndsRun<V(!new)>(env: nat -> Reply<V>, n: nat, end: End<V, Error>, i: nat)
    requires ExecuteRun(env, n, end) && i < n && Is404(env(i).outcome)
    ensures i == n - 1 && end == Failure(NotFound)
  {
    if i > 0 {
      var kind := HandleException(env(0).outcome.error).kind;
      var calls: seq<Attempt<V, Error>> :| |calls| + 1 == n && RetriedRun(env, kind, calls, end);
      assert calls[i - 1].outcome == Raised(NotFound);
      NonRetryableEndsRun(SettingsOf<V>(kind), calls, end, i - 1);
    }
  }

  /** Exactly when NotFound comes out: on the first call the 404 may be wrapped; on a
      repeated call it must be plain; otherwise the method raised NotFound itself. */
  lemma NotFoundIff<V(!new)>(env: nat -> Reply<V>, n: nat, end: End<V, Error>)
    requires ExecuteRun(env, n, end)
    ensures n > 0
    ensures end == Failure(NotFound)
            <==> (|| Is404(env(n - 1).outcome)
                  || env(n - 1).outcome == Raised(NotFound)
                  || (n == 1 && env(0).outcome.Raised? && RetryOn(env(0).outcome.error)
                      && HandleException(env(0).outcome.error) == RaiseNotFound))
  {
  }
}
