/** What a call to the Kubernetes API comes to, by the core of its first error: how often the
    method is called again, when, and what the caller gets in the end. */
module K8sOutcomes {
  import opened Helpers
  import opened Wrappers
  import opened Retryers
  import opened K8sErrors

  ghost predicate HasCore(e: Error, core: Error) {
    exists chain :: Peels(e, chain) && chain[|chain| - 1] == core
  }

  // ---------- Kinds of first errors ----------

  /** The letters of `text` from place i on are those of `t`, capitals counting as small. */
  ghost predicate ReadsAt(text: string, t: string, i: nat) {
    && i + |t| <= |text|
    && forall j :: 0 <= j < |t| ==>
         if 'A' <= text[i + j] <= 'Z' then text[i + j] as int + 32 == t[j] as int else text[i + j] == t[j]
  }

  ghost predicate Says(text: string, t: string) {
    exists i :: ReadsAt(text, t, i)
  }

  ghost predicate BodySays(e: Error, t: string)
    requires e.ApiException?
  {
    e.body.Some? && Says(e.body.value, t)
  }

  /** The server is gone, and comes back. */
  ghost predicate Restarting(e: Error) {
    match e
    case NewConnectionError => true
    case ProtocolError(message) => Says(message, "connection aborted")
    case ApiException(status, _) => status == 401 || status == 504 || (status == 500 && BodySays(e, "connection refused"))
    case _ => false
  }

  /** The server asks for time. */
  ghost predicate Overloaded(e: Error) {
    && e.ApiException? && !Restarting(e)
    && (e.status == 429
        || (e.status == 500 && (|| BodySays(e, "too many requests")
                                || BodySays(e, "currently unable to handle the request")
                                || BodySays(e, "enhance_your_calm"))))
  }

  /** Worth a few more calls. */
  ghost predicate Hiccup(e: Error) {
    && !Restarting(e) && !Overloaded(e)
    && (e.ProtocolError? || (e.ApiException? && (e.status == 409 || e.status == 500)))
  }

  predicate Missing(e: Error) {
    e.ApiException? && e.status == 404
  }

  lemma SaysIffContains(text: string, t: string)
    ensures Says(text, t) <==> Contains(Lower(text), t)
  {
    ContainsIff(Lower(text), t);
    forall i: nat ensures ReadsAt(text, t, i) <==> StandsAt(Lower(text), t, i) {
      ReadsAtIff(text, t, i);
    }
  }

  lemma ReadsAtIff(text: string, t: string, i: nat)
    ensures ReadsAt(text, t, i) <==> StandsAt(Lower(text), t, i)
  {
    var low := Lower(text);
    if i + |t| <= |text| {
      if ReadsAt(text, t, i) {
        forall j | 0 <= j < |t| ensures low[i..i + |t|][j] == t[j] {}
        assert low[i..i + |t|] == t;
      }
      if StandsAt(low, t, i) {
        forall j | 0 <= j < |t| ensures low[i + j] == t[j] {
          assert low[i..i + |t|][j] == t[j];
        }
      }
    }
  }

  lemma NothingSaid()
    ensures forall t :: t != "" ==> !Contains(Lower(""), t)
  {
    assert Lower("") == "";
  }

  lemma HandledByKind(e: Error)
    requires WrapsNothing(e)
    ensures Restarting(e) ==> HandleException(e) == UseRetryer(ServerRestart)
    ensures Overloaded(e) ==> HandleException(e) == UseRetryer(TooManyRequests)
    ensures Hiccup(e) ==> HandleException(e) == UseRetryer(QuickRecovery)
    ensures Missing(e) ==> HandleException(e) == RaiseNotFound
    ensures !Restarting(e) && !Overloaded(e) && !Hiccup(e) && !Missing(e) ==> HandleException(e) == NoRetryer
  {
    match e {
      case ProtocolError(message) => SaysIffContains(message, "connection aborted");
      case ApiException(status, body) => if status == 500 { InternalErrorByKind(body); }
      case _ =>
    }
  }

  lemma InternalErrorByKind(body: Option<string>)
    ensures var e := ApiException(500, body);
            HandleException(e) == UseRetryer(if Restarting(e) then ServerRestart
                                             else if Overloaded(e) then TooManyRequests
                                             else QuickRecovery)
  {
    var text := if body.Some? then body.value else "";
    SaysIffContains(text, "connection refused");
    SaysIffContains(text, "too many requests");
    SaysIffContains(text, "currently unable to handle the request");
    SaysIffContains(text, "enhance_your_calm");
    if body.None? { NothingSaid(); }
  }

  /** An error and its core are handled alike. */
  lemma SameHandling(e: Error, core: Error)
    requires HasCore(e, core)
    ensures WrapsNothing(core) && HandleException(e) == HandleException(core)
  {
    var chain :| Peels(e, chain) && chain[|chain| - 1] == core;
    var own := HandledAsItsCore(e);
    CoreIsUnique(e, own, chain);
  }

  /** The credentials are refreshed exactly for a 401, however it is wrapped. */
  lemma {:induction false} RefreshesIff(e: Error, chain: seq<Error>)
    requires Peels(e, chain)
    ensures var core := chain[|chain| - 1]; Refreshes(e) <==> core.ApiException? && core.status == 401
    decreases |chain|
  {
    PeelsFurther(e, chain);
    if |chain| > 1 { RefreshesIff(chain[1], chain[1..]); }
  }

  // ---------- The calls after the first ----------

  /** The method is called again after such an outcome, if at all. */
  predicate MayGoOn<V(!new)>(o: Outcome<V, Error>) {
    match o
    case Returned(_) => false
    case Raised(NotFound) => false
    case Raised(Other(_)) => false
    case Raised(ApiException(status, _)) => status != 404
    case _ => true
  }

  /** How it ends with the last outcome. */
  ghost predicate EndsWith<V(!new)>(o: Outcome<V, Error>, end: End<V, Error>) {
    match o
    case Returned(v) => end == Value(v)
    case Raised(e) => end == if MayGoOn(o) then RetryError(o) else if Missing(e) then Failure(NotFound) else Failure(e)
  }

  /** Calls go on after call number i (from 1) exactly when it may and it is not too late. */
  ghost predicate RetriedUntil<V(!new)>(env: nat -> Reply<V>, n: nat, end: End<V, Error>, late: nat -> bool) {
    && n > 1
    && (forall i :: 1 <= i < n ==> (i + 1 < n <==> MayGoOn(env(i).outcome) && !late(i)))
    && EndsWith(env(n - 1).outcome, end)
  }

  /** Seconds from the start of the second call to the end of call number i, if between calls
      there are the given waits. */
  function EndOf<V>(env: nat -> Reply<V>, wait: nat -> nat, i: nat): nat
    requires i > 0
  {
    if i == 1 then env(1).duration else EndOf(env, wait, i - 1) + wait(i - 1) + env(i).duration
  }

  /** Call number i ended at or after the 180 seconds. */
  function TimeIsUp<V(!new)>(env: nat -> Reply<V>, wait: nat -> nat): nat -> bool {
    (i: nat) => i > 0 && EndOf(env, wait, i) >= 180
  }

  function ThreeMade(): nat -> bool {
    (i: nat) => i >= 3
  }

  function ShortWait(n: nat): nat { if 1 <= n <= 4 then [1, 2, 4, 8][n - 1] else 10 }

  function LongWait(n: nat): nat { if n <= 4 then 10 else if n == 5 then 16 else 30 }

  lemma {:induction false} EndsAre<V(!new)>(s: Settings<V, Error>, env: nat -> Reply<V>, calls: seq<Attempt<V, Error>>,
                                            wait: nat -> nat, i: nat)
    requires InProgress(s, calls) && Answered(env, calls) && 0 < i <= |calls|
    requires forall k :: k > 0 ==> s.wait(k) == wait(k)
    ensures calls[i - 1].end == EndOf(env, wait, i)
  {
    if i > 1 {
      EndsAre(s, env, calls, wait, i - 1);
      assert Continues(s, calls, i - 2);
    }
  }

  lemma TimedRun<V(!new)>(s: Settings<V, Error>, env: nat -> Reply<V>, calls: seq<Attempt<V, Error>>,
                          end: End<V, Error>, wait: nat -> nat)
    requires Run(s, calls, end) && Answered(env, calls)
    requires s.retryOn == RetryOn && s.check.None? && s.attempts == 0 && s.timeout == Some(180)
    requires forall k :: k > 0 ==> s.wait(k) == wait(k)
    ensures RetriedUntil(env, |calls| + 1, end, TimeIsUp(env, wait))
  {
    forall i | 1 <= i <= |calls|
      ensures i < |calls| <==> MayGoOn(env(i).outcome) && EndOf(env, wait, i) < 180
    {
      EndsExactly(s, calls, end, i - 1);
      EndsAre(s, env, calls, wait, i);
    }
    EndsExactly(s, calls, end, |calls| - 1);
  }

  lemma CountedRun<V(!new)>(s: Settings<V, Error>, env: nat -> Reply<V>, calls: seq<Attempt<V, Error>>, end: End<V, Error>)
    requires Run(s, calls, end) && Answered(env, calls)
    requires s.retryOn == RetryOn && s.check.None? && s.attempts == 3 && s.timeout.None?
    ensures RetriedUntil(env, |calls| + 1, end, ThreeMade())
  {
    forall i | 1 <= i <= |calls| ensures i < |calls| <==> MayGoOn(env(i).outcome) && i < 3 {
      EndsExactly(s, calls, end, i - 1);
    }
    EndsExactly(s, calls, end, |calls| - 1);
  }

  /** The waits between the calls after the first. */
  lemma CallsAreSpaced<V(!new)>(env: nat -> Reply<V>, kind: RetryerKind, calls: seq<Attempt<V, Error>>, end: End<V, Error>, i: nat)
    requires RetriedRun(env, kind, calls, end) && i + 1 < |calls|
    ensures calls[i + 1].start == calls[i].end + match kind
                                                 case ServerRestart => ShortWait(i + 1)
                                                 case TooManyRequests => LongWait(i + 1)
                                                 case QuickRecovery => 1
  {
    EndsExactly(SettingsOf<V>(kind), calls, end, i);
    WaitsDouble(i + 1);
  }

  // ---------- The whole call ----------

  /** The number of calls, and the end, by the core of the first error.  The first error has
      one core (`CoreIsUnique`), and what is said here leaves nothing open: a connection that
      is gone, a 401 or a 504 has the method called again for 180 seconds with waits of 1, 2,
      4, 8 and then 10 seconds; an overload, with waits of 10, 16 and 30; a conflict and the
      like, three times; anything else is raised, a 404 as NotFound. */
  lemma ExecuteByCore<V(!new)>(env: nat -> Reply<V>, n: nat, end: End<V, Error>, core: Error)
    requires ExecuteRun(env, n, end)
    requires env(0).outcome.Raised? ==> HasCore(env(0).outcome.error, core)
    ensures match env(0).outcome
            case Returned(v) => n == 1 && end == Value(v)
            case Raised(e) =>
              && (Restarting(core) ==> RetriedUntil(env, n, end, TimeIsUp(env, ShortWait)))
              && (Overloaded(core) ==> RetriedUntil(env, n, end, TimeIsUp(env, LongWait)))
              && (Hiccup(core) ==> RetriedUntil(env, n, end, ThreeMade()))
              && (Missing(core) ==> n == 1 && end == Failure(NotFound))
              && (!Restarting(core) && !Overloaded(core) && !Hiccup(core) && !Missing(core) ==> n == 1 && end == Failure(e))
  {
    if env(0).outcome.Raised? {
      var e := env(0).outcome.error;
      SameHandling(e, core);
      HandledByKind(core);
      if RetryOn(e) { ExecuteByHandling(env, n, end); } else { CoreOfItself(e, core); }
    }
  }

  function LateFor<V(!new)>(env: nat -> Reply<V>, kind: RetryerKind): nat -> bool {
    match kind
    case ServerRestart => TimeIsUp(env, ShortWait)
    case TooManyRequests => TimeIsUp(env, LongWait)
    case QuickRecovery => ThreeMade()
  }

  lemma ExecuteByHandling<V(!new)>(env: nat -> Reply<V>, n: nat, end: End<V, Error>)
    requires ExecuteRun(env, n, end) && env(0).outcome.Raised? && RetryOn(env(0).outcome.error)
    ensures var e := env(0).outcome.error;
            match HandleException(e)
            case RaiseNotFound => n == 1 && end == Failure(NotFound)
            case NoRetryer => n == 1 && end == Failure(e)
            case UseRetryer(kind) => RetriedUntil(env, n, end, LateFor(env, kind))
  {
    var h := HandleException(env(0).outcome.error);
    if h.UseRetryer? {
      var calls: seq<Attempt<V, Error>> :| |calls| + 1 == n && RetriedRun(env, h.kind, calls, end);
      RunByKind(env, calls, end, h.kind);
    }
  }

  lemma RunByKind<V(!new)>(env: nat -> Reply<V>, calls: seq<Attempt<V, Error>>, end: End<V, Error>, kind: RetryerKind)
    requires RetriedRun(env, kind, calls, end)
    ensures RetriedUntil(env, |calls| + 1, end, LateFor(env, kind))
  {
    var s := SettingsOf<V>(kind);
    forall k: nat | k > 0 ensures ExponentialWait(1, 10, k) == ShortWait(k) && ExponentialWait(10, 30, k) == LongWait(k) {
      WaitsDouble(k);
    }
    match kind {
      case ServerRestart => TimedRun(s, env, calls, end, ShortWait);
      case TooManyRequests => TimedRun(s, env, calls, end, LongWait);
      case QuickRecovery => CountedRun(s, env, calls, end);
    }
  }

  lemma CoreOfItself(e: Error, core: Error)
    requires HasCore(e, core) && WrapsNothing(e)
    ensures core == e
  {
    var chain :| Peels(e, chain) && chain[|chain| - 1] == core;
    assert Peels(e, [e]);
    CoreIsUnique(e, chain, [e]);
  }

  // ---------- When it succeeds ----------

  /** Call number k returns, and those before it, after the first, may all go on. */
  ghost predicate ReturnsFirst<V(!new)>(env: nat -> Reply<V>, k: nat) {
    env(k).outcome.Returned? && forall i :: 1 <= i < k ==> MayGoOn(env(i).outcome)
  }

  lemma RetriedSucceedsIff<V(!new)>(env: nat -> Reply<V>, n: nat, end: End<V, Error>, late: nat -> bool)
    requires RetriedUntil(env, n, end, late)
    requires forall i: nat, j: nat :: i <= j && late(i) ==> late(j)
    ensures end.Value? <==> exists k :: k > 0 && ReturnsFirst(env, k) && (k > 1 ==> !late(k - 1))
    ensures end.Value? ==> env(n - 1).outcome == Returned(end.value)
  {
    if end.Value? {
      assert ReturnsFirst(env, n - 1);
      assert n > 2 ==> n - 2 + 1 < n;
    }
    if k :| k > 0 && ReturnsFirst(env, k) && (k > 1 ==> !late(k - 1)) {
    }
  }

  lemma {:induction false} EndsGrow<V>(env: nat -> Reply<V>, wait: nat -> nat, i: nat, k: nat)
    requires 0 < i <= k
    ensures EndOf(env, wait, i) <= EndOf(env, wait, k)
  {
    if i < k { EndsGrow(env, wait, i, k - 1); }
  }

  /** After a hiccup the call succeeds exactly when one of the next three calls returns, and
      those before it failed in ways worth another call. */
  lemma HiccupSucceedsIff<V(!new)>(env: nat -> Reply<V>, n: nat, end: End<V, Error>, core: Error)
    requires ExecuteRun(env, n, end) && env(0).outcome.Raised? && HasCore(env(0).outcome.error, core) && Hiccup(core)
    ensures n <= 4
    ensures end.Value? <==> exists k :: 1 <= k <= 3 && ReturnsFirst(env, k)
    ensures end.Value? ==> env(n - 1).outcome == Returned(end.value)
  {
    ExecuteByCore(env, n, end, core);
    RetriedSucceedsIff(env, n, end, ThreeMade());
    assert ThreeMade()(3);
    if k :| k > 0 && ReturnsFirst(env, k) && (k > 1 ==> !ThreeMade()(k - 1)) { assert 1 <= k <= 3; }
  }

  /** After the server went away, or was overloaded, it succeeds exactly when some call returns
      and those before it failed in such ways, the last of them within 180 seconds. */
  lemma TimedSucceedsIff<V(!new)>(env: nat -> Reply<V>, n: nat, end: End<V, Error>, core: Error, wait: nat -> nat)
    requires ExecuteRun(env, n, end) && env(0).outcome.Raised? && HasCore(env(0).outcome.error, core)
    requires (Restarting(core) && wait == ShortWait) || (Overloaded(core) && wait == LongWait)
    ensures end.Value? <==> exists k :: k > 0 && ReturnsFirst(env, k) && (k > 1 ==> EndOf(env, wait, k - 1) < 180)
    ensures end.Value? ==> env(n - 1).outcome == Returned(end.value)
  {
    ExecuteByCore(env, n, end, core);
    forall i: nat, j: nat | i <= j && TimeIsUp(env, wait)(i) ensures TimeIsUp(env, wait)(j) {
      EndsGrow(env, wait, i, j);
    }
    RetriedSucceedsIff(env, n, end, TimeIsUp(env, wait));
  }
}
