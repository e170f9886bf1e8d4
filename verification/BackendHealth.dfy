/** Waiting for the backends of a backend service to become healthy.

    An attempt iterates over the set of pending backends and takes healthy ones out of it
    while it iterates.  Python notices a set that changed size at the next step of the
    iteration, also behind the last element, and raises; the retryer then tries again. */
module BackendHealth {
  import opened Helpers
  import opened Wrappers
  import opened Retryers

  datatype Backend = Backend(name: string, zone: string, url: string)

  /** What the API says of one backend: no instances yet, their states, or an error. */
  datatype Report = NoStatus | Instances(states: seq<string>) | ApiFailure

  datatype Error = SetChangedDuringIteration | ApiError

  /** Who is waited for, who was seen healthy. */
  datatype State = State(pending: set<Backend>, healthy: set<Backend>)

  /** One attempt's environment: the set's iteration order, the reports, and the time taken. */
  datatype AttemptEnv = AttemptEnv(order: set<Backend> -> seq<Backend>, report: Backend -> Report, duration: nat)

  predicate ReportsHealthy(r: Report) {
    r.Instances? && forall s :: s in r.states ==> s == "HEALTHY"
  }

  ghost predicate Fair(env: nat -> AttemptEnv) {
    forall n, s :: Lists(env(n).order(s), s)
  }

  /** The position of the first backend that ends the attempt: a healthy one or an error. */
  function Decisive(order: seq<Backend>, report: Backend -> Report): nat {
    if order == [] || report(order[0]).ApiFailure? || ReportsHealthy(report(order[0])) then 0
    else 1 + Decisive(order[1..], report)
  }

  /** One attempt, as a function. */
  function Step(st: State, order: seq<Backend>, report: Backend -> Report, replicas: nat): (State, Outcome<bool, Error>) {
    var d := Decisive(order, report);
    if d >= |order| then (st, Returned(st.pending == {} || |st.healthy| >= replicas))
    else if report(order[d]).ApiFailure? then (st, Raised(ApiError))
    else (State(st.pending - {order[d]}, st.healthy + {order[d]}), Raised(SetChangedDuringIteration))
  }

  lemma {:induction false} DecisiveIs(order: seq<Backend>, report: Backend -> Report)
    ensures Decisive(order, report) <= |order|
    ensures forall i :: 0 <= i < Decisive(order, report) ==>
              !report(order[i]).ApiFailure? && !ReportsHealthy(report(order[i]))
    ensures Decisive(order, report) < |order| ==>
              report(order[Decisive(order, report)]).ApiFailure? || ReportsHealthy(report(order[Decisive(order, report)]))
  {
    if order != [] && !report(order[0]).ApiFailure? && !ReportsHealthy(report(order[0])) {
      DecisiveIs(order[1..], report);
    }
  }

  lemma {:induction false} DecisiveUnique(order: seq<Backend>, report: Backend -> Report, d: nat)
    requires d <= |order|
    requires forall i :: 0 <= i < d ==> !report(order[i]).ApiFailure? && !ReportsHealthy(report(order[i]))
    requires d < |order| ==> report(order[d]).ApiFailure? || ReportsHealthy(report(order[d]))
    ensures Decisive(order, report) == d
  {
    if d > 0 { DecisiveUnique(order[1..], report, d - 1); }
  }

  /** The retryer of the wait: every exception and every falsy result is retried. */
  function WaitSettings(wait: nat, timeout: nat): Settings<bool, Error> {
    ConstantRetryer(wait, 0, Some(timeout), None, Some((r: bool) => Checked(r)), (e: Error) => true).value
  }

  class HealthWait {
    var pending: set<Backend>
    var healthy: set<Backend>

    constructor (backends: set<Backend>)
      ensures pending == backends && healthy == {}
    {
      pending, healthy := backends, {};
    }

    ghost function St(): State
      reads this
    {
      State(pending, healthy)
    }

    /** `_retry_backends_health`. */
    method RetryBackendsHealth(order: seq<Backend>, report: Backend -> Report, replicas: nat) returns (o: Outcome<bool, Error>)
      requires Lists(order, pending)
      modifies this
      ensures (St(), o) == Step(old(St()), order, report, replicas)
    {
      var sizeAtStart := |pending|;
      var i := 0;
      while true
        invariant i <= |order|
        invariant pending == old(pending) && healthy == old(healthy) && sizeAtStart == |pending|
        invariant forall k :: 0 <= k < i ==> !report(order[k]).ApiFailure? && !ReportsHealthy(report(order[k]))
        decreases |order| - i
      {
        // The iterator's next step.
        if |pending| != sizeAtStart { return Raised(SetChangedDuringIteration); }
        if i == |order| { break; }
        var backend := order[i];
        var result := report(backend);
        match result {
          case ApiFailure =>
            DecisiveUnique(order, report, i);
            return Raised(ApiError);
          case NoStatus =>
          case Instances(states) =>
            var backendHealthy := true;
            for k := 0 to |states|
              invariant backendHealthy <==> forall l :: 0 <= l < k ==> states[l] == "HEALTHY"
            {
              if states[k] != "HEALTHY" { backendHealthy := false; }
            }
            assert forall l :: 0 <= l < |states| ==> states[l] in states;
            assert backendHealthy <==> ReportsHealthy(result);
            if backendHealthy {
              DecisiveUnique(order, report, i);
              pending := pending - {backend};
              healthy := healthy + {backend};
              assert |pending| != sizeAtStart;
              return Raised(SetChangedDuringIteration);
            }
        }
        i := i + 1;
      }
      DecisiveUnique(order, report, i);
      o := Returned(pending == {} || |healthy| >= replicas);
    }
  }

  /** The attempts of one wait, with the state before each and after the last. */
  ghost predicate HealthRun(backends: set<Backend>, replicas: nat, env: nat -> AttemptEnv, s: Settings<bool, Error>,
                                     states: seq<State>, calls: seq<Attempt<bool, Error>>) {
    && |states| == |calls| + 1 && states[0] == State(backends, {})
    && (calls != [] ==> InProgress(s, calls))
    && forall i :: 0 <= i < |calls| ==> StepsTo(replicas, env, states[i], i, states[i + 1], calls[i])
  }

  ghost predicate StepsTo(replicas: nat, env: nat -> AttemptEnv, st: State, i: nat,
                                   st': State, call: Attempt<bool, Error>) {
    && (st', call.outcome) == Step(st, env(i).order(st.pending), env(i).report, replicas)
    && call.end == call.start + env(i).duration
  }

  datatype WaitResult = ValueError | Ended(end: End<bool, Error>)

  /** `wait_for_backends_healthy_status`. */
  method WaitForBackendsHealthy(backends: set<Backend>, replicas: nat, wait: nat, timeout: nat,
                                             env: nat -> AttemptEnv)
    returns (result: WaitResult, ghost states: seq<State>, ghost calls: seq<Attempt<bool, Error>>)
    requires Fair(env) && forall n :: n > 0 ==> wait + env(n).duration > 0
    ensures result.ValueError? <==> backends == {} || replicas == 0
    ensures result.Ended? ==> HealthRun(backends, replicas, env, WaitSettings(wait, timeout), states, calls)
                              && Run(WaitSettings(wait, timeout), calls, result.end)
  {
    states, calls := [State(backends, {})], [];
    if backends == {} || replicas == 0 { return ValueError, states, calls; }
    var s := WaitSettings(wait, timeout);
    var w := new HealthWait(backends);
    var now, n := 0, 0;
    while true
      invariant n == |calls| && fresh(w)
      invariant HealthRun(backends, replicas, env, s, states, calls) && states[n] == w.St()
      invariant n == 0 ==> now == 0
      invariant n > 0 ==> Decide(s, n, calls[n - 1].end, calls[n - 1].outcome).Sleep? && now == calls[n - 1].end + wait
      decreases if n == 0 then timeout + 1 else timeout - calls[n - 1].end
    {
      var a := env(n);
      assert Lists(a.order(w.pending), w.pending);
      ghost var before := w.St();
      var o := w.RetryBackendsHealth(a.order(w.pending), a.report, replicas);
      ghost var call := Attempt(now, now + a.duration, o);
      assert StepsTo(replicas, env, before, n, w.St(), call);
      HealthRunExtends(backends, replicas, env, s, states, calls, w.St(), call);
      calls, states := calls + [call], states + [w.St()];
      now, n := now + a.duration, n + 1;
      match Decide(s, n, now, o) {
        case Done(e) => return Ended(e), states, calls;
        case Sleep(time) => now := now + time;
      }
    }
  }

  lemma HealthRunExtends(backends: set<Backend>, replicas: nat, env: nat -> AttemptEnv, s: Settings<bool, Error>,
                                  states: seq<State>, calls: seq<Attempt<bool, Error>>,
                                  st: State, call: Attempt<bool, Error>)
    requires HealthRun(backends, replicas, env, s, states, calls)
    requires StepsTo(replicas, env, states[|calls|], |calls|, st, call) && call.start <= call.end
    requires calls == [] ==> call.start == 0
    requires calls != [] ==> var d := Decide(s, |calls|, calls[|calls| - 1].end, calls[|calls| - 1].outcome);
                             d.Sleep? && call.start == calls[|calls| - 1].end + d.time
    ensures HealthRun(backends, replicas, env, s, states + [st], calls + [call])
  {
    var calls' := calls + [call];
    forall i | 0 <= i < |calls'| - 1 ensures Continues(s, calls', i) {
      if i < |calls| - 1 { assert Continues(s, calls, i); }
    }
  }

  // ---------- What every attempt keeps ----------

  ghost predicate Partition(backends: set<Backend>, st: State) {
    st.pending !! st.healthy && st.pending + st.healthy == backends
  }

  lemma StepKeepsPartition(backends: set<Backend>, st: State, order: seq<Backend>, report: Backend -> Report, replicas: nat)
    requires Partition(backends, st) && Lists(order, st.pending)
    ensures var (st', o) := Step(st, order, report, replicas);
            && Partition(backends, st')
            && (o == Raised(SetChangedDuringIteration) <==> st' != st)
            && (st' != st ==> |st'.pending| == |st.pending| - 1 && |st'.healthy| == |st.healthy| + 1)
  {
  }

  /** Pending and healthy are a partition of the backends before and after every attempt. */
  lemma {:induction false} PartitionKept(backends: set<Backend>, replicas: nat, env: nat -> AttemptEnv,
                                                  s: Settings<bool, Error>, states: seq<State>,
                                                  calls: seq<Attempt<bool, Error>>, i: nat)
    requires HealthRun(backends, replicas, env, s, states, calls) && Fair(env) && i < |states|
    ensures Partition(backends, states[i])
  {
    if i > 0 {
      PartitionKept(backends, replicas, env, s, states, calls, i - 1);
      assert StepsTo(replicas, env, states[i - 1], i - 1, states[i - 1 + 1], calls[i - 1]);
      StepKeepsPartition(backends, states[i - 1], env(i - 1).order(states[i - 1].pending), env(i - 1).report, replicas);
    }
  }

  /** An attempt that is cut short moves exactly one backend; any other attempt moves none. */
  lemma CutShortMovesOne(backends: set<Backend>, replicas: nat, env: nat -> AttemptEnv,
                                  s: Settings<bool, Error>, states: seq<State>,
                                  calls: seq<Attempt<bool, Error>>, i: nat)
    requires HealthRun(backends, replicas, env, s, states, calls) && Fair(env) && i < |calls|
    ensures calls[i].outcome == Raised(SetChangedDuringIteration) ==>
              |states[i + 1].pending| == |states[i].pending| - 1
              && exists b :: b in states[i].pending && ReportsHealthy(env(i).report(b))
                             && states[i + 1] == State(states[i].pending - {b}, states[i].healthy + {b})
    ensures calls[i].outcome != Raised(SetChangedDuringIteration) ==> states[i + 1] == states[i]
  {
    PartitionKept(backends, replicas, env, s, states, calls, i);
    assert StepsTo(replicas, env, states[i], i, states[i + 1], calls[i]);
    var order := env(i).order(states[i].pending);
    StepKeepsPartition(backends, states[i], order, env(i).report, replicas);
    DecisiveIs(order, env(i).report);
    var d := Decisive(order, env(i).report);
    if d < |order| { assert order[d] in states[i].pending; }
  }

  /** The wait succeeds only when nobody is pending or enough backends were seen healthy,
      and in an attempt in which no pending backend reported healthy. */
  lemma SuccessMeans(backends: set<Backend>, replicas: nat, env: nat -> AttemptEnv,
                              s: Settings<bool, Error>, states: seq<State>,
                              calls: seq<Attempt<bool, Error>>, wait: nat, timeout: nat, end: End<bool, Error>)
    requires HealthRun(backends, replicas, env, s, states, calls) && Fair(env)
    requires s == WaitSettings(wait, timeout) && Run(s, calls, end) && end.Value?
    ensures var last := states[|calls|];
            && end.value
            && (last.pending == {} || |last.healthy| >= replicas)
            && Partition(backends, last)
            && forall b :: b in last.pending ==> !ReportsHealthy(env(|calls| - 1).report(b))
  {
    var n := |calls| - 1;
    RunGuarantees(s, calls, end);
    PartitionKept(backends, replicas, env, s, states, calls, n + 1);
    assert StepsTo(replicas, env, states[n], n, states[n + 1], calls[n]);
    DecisiveIs(env(n).order(states[n].pending), env(n).report);
  }

  // ---------- What ends the wait, and what does not ----------

  /** Anything but True has the attempt repeated, `wait` later, as long as it ended before the
      timeout: an exception of whatever class never ends the wait by itself. */
  lemma WaitEndsExactly(wait: nat, timeout: nat, calls: seq<Attempt<bool, Error>>, end: End<bool, Error>, i: nat)
    requires Run(WaitSettings(wait, timeout), calls, end) && i < |calls|
    ensures var o := calls[i].outcome;
            && (o == Returned(true) ==> i + 1 == |calls| && end == Value(true))
            && (o != Returned(true) && calls[i].end < timeout ==>
                  i + 1 < |calls| && calls[i + 1].start == calls[i].end + wait)
            && (o != Returned(true) && calls[i].end >= timeout ==> i + 1 == |calls| && end == RetryError(o))
    ensures !end.Failure? && end != Value(false)
  {
    EndsExactly(WaitSettings(wait, timeout), calls, end, i);
    EndsExactly(WaitSettings(wait, timeout), calls, end, |calls| - 1);
  }

  predicate SaysHealthy(r: Report) {
    r.Instances? && forall i :: 0 <= i < |r.states| ==> r.states[i] == "HEALTHY"
  }

  lemma SaysHealthyIff(r: Report)
    ensures SaysHealthy(r) <==> ReportsHealthy(r)
  {
    if ReportsHealthy(r) {
      forall i | 0 <= i < |r.states| ensures r.states[i] == "HEALTHY" { assert r.states[i] in r.states; }
    }
  }

  /** How an attempt comes out, by what the pending backends report. */
  lemma AttemptOutcome(backends: set<Backend>, replicas: nat, env: nat -> AttemptEnv,
                       s: Settings<bool, Error>, states: seq<State>, calls: seq<Attempt<bool, Error>>, i: nat)
    requires HealthRun(backends, replicas, env, s, states, calls) && Fair(env) && i < |calls|
    ensures var healthy := exists b :: b in states[i].pending && SaysHealthy(env(i).report(b));
            var failing := exists b :: b in states[i].pending && env(i).report(b) == ApiFailure;
            && (!healthy && !failing ==>
                  calls[i].outcome == Returned(states[i].pending == {} || |states[i].healthy| >= replicas))
            && (healthy && !failing ==> calls[i].outcome == Raised(SetChangedDuringIteration))
            && (!healthy && failing ==> calls[i].outcome == Raised(ApiError))
            && (healthy && failing ==> calls[i].outcome.Raised?)
  {
    var st, report := states[i], env(i).report;
    var order := env(i).order(st.pending);
    assert StepsTo(replicas, env, st, i, states[i + 1], calls[i]);
    DecisiveIs(order, report);
    forall b ensures SaysHealthy(report(b)) <==> ReportsHealthy(report(b)) { SaysHealthyIff(report(b)); }
    var d := Decisive(order, report);
    if d < |order| {
      assert order[d] in st.pending;
    } else {
      forall b | b in st.pending ensures report(b) != ApiFailure && !ReportsHealthy(report(b)) {
        var j :| 0 <= j < |order| && order[j] == b;
      }
    }
  }

  // ---------- When everything is healthy from some attempt on ----------

  ghost predicate HealthyFrom(backends: set<Backend>, env: nat -> AttemptEnv, k: nat) {
    forall n, b :: n >= k && b in backends ==> SaysHealthy(env(n).report(b))
  }

  lemma AttemptWhenHealthy(backends: set<Backend>, replicas: nat, env: nat -> AttemptEnv,
                           s: Settings<bool, Error>, states: seq<State>,
                           calls: seq<Attempt<bool, Error>>, k: nat, i: nat)
    requires HealthRun(backends, replicas, env, s, states, calls) && Fair(env) && HealthyFrom(backends, env, k)
    requires k <= i < |calls|
    ensures calls[i].outcome
            == if states[i].pending == {} then Returned(true) else Raised(SetChangedDuringIteration)
  {
    PartitionKept(backends, replicas, env, s, states, calls, i);
    AttemptOutcome(backends, replicas, env, s, states, calls, i);
    if b :| b in states[i].pending { assert SaysHealthy(env(i).report(b)); }
  }

  /** Then each attempt moves one backend and is cut short, as long as there is one left: the
      replica count never matters. */
  lemma {:induction false} OneBackendPerAttempt(backends: set<Backend>, replicas: nat, env: nat -> AttemptEnv,
                                                s: Settings<bool, Error>, states: seq<State>,
                                                calls: seq<Attempt<bool, Error>>, k: nat, i: nat)
    requires HealthRun(backends, replicas, env, s, states, calls) && Fair(env) && HealthyFrom(backends, env, k)
    requires k <= i < |states| && i - k <= |states[k].pending|
    ensures |states[i].pending| == |states[k].pending| - (i - k)
    ensures i < |calls| ==>
              calls[i].outcome
              == if i - k == |states[k].pending| then Returned(true) else Raised(SetChangedDuringIteration)
  {
    if i > k {
      OneBackendPerAttempt(backends, replicas, env, s, states, calls, k, i - 1);
      CutShortMovesOne(backends, replicas, env, s, states, calls, i - 1);
    }
    if i < |calls| {
      AttemptWhenHealthy(backends, replicas, env, s, states, calls, k, i);
    }
  }

  /** The time at which attempt number n (from 1) ends if it comes to that. */
  function TimeOfAttempt(env: nat -> AttemptEnv, wait: nat, n: nat): nat
    requires n > 0
  {
    if n == 1 then env(0).duration else TimeOfAttempt(env, wait, n - 1) + wait + env(n - 1).duration
  }

  ghost predicate Timed(env: nat -> AttemptEnv, wait: nat, calls: seq<Attempt<bool, Error>>) {
    forall i :: 0 <= i < |calls| ==> calls[i].end == TimeOfAttempt(env, wait, i + 1)
  }

  lemma {:induction false} TimesAre(backends: set<Backend>, replicas: nat, env: nat -> AttemptEnv,
                                             wait: nat, timeout: nat, states: seq<State>,
                                             calls: seq<Attempt<bool, Error>>, n: nat)
    requires HealthRun(backends, replicas, env, WaitSettings(wait, timeout), states, calls)
    requires 0 < n <= |calls|
    ensures calls[n - 1].end == TimeOfAttempt(env, wait, n)
  {
    assert StepsTo(replicas, env, states[n - 1], n - 1, states[n - 1 + 1], calls[n - 1]);
    if n > 1 {
      TimesAre(backends, replicas, env, wait, timeout, states, calls, n - 1);
      assert Continues(WaitSettings(wait, timeout), calls, n - 2);
    }
  }

  lemma RunIsTimed(backends: set<Backend>, replicas: nat, env: nat -> AttemptEnv, wait: nat, timeout: nat,
                   states: seq<State>, calls: seq<Attempt<bool, Error>>)
    requires HealthRun(backends, replicas, env, WaitSettings(wait, timeout), states, calls)
    ensures Timed(env, wait, calls)
  {
    forall i | 0 <= i < |calls| ensures calls[i].end == TimeOfAttempt(env, wait, i + 1) {
      TimesAre(backends, replicas, env, wait, timeout, states, calls, i + 1);
    }
  }

  lemma {:induction false} TimesGrow(env: nat -> AttemptEnv, wait: nat, m: nat, n: nat)
    requires 0 < m <= n
    ensures TimeOfAttempt(env, wait, m) <= TimeOfAttempt(env, wait, n)
  {
    if m < n { TimesGrow(env, wait, m, n - 1); }
  }

  /** From attempt k on (from 0), m attempts are cut short and the one behind them returns True. */
  ghost predicate CutShortFrom(calls: seq<Attempt<bool, Error>>, k: nat, m: nat) {
    forall i :: k <= i < |calls| && i <= k + m ==>
      calls[i].outcome == if i == k + m then Returned(true) else Raised(SetChangedDuringIteration)
  }

  lemma LastMoveDecides(env: nat -> AttemptEnv, wait: nat, timeout: nat, calls: seq<Attempt<bool, Error>>,
                        end: End<bool, Error>, k: nat, m: nat)
    requires Run(WaitSettings(wait, timeout), calls, end) && Timed(env, wait, calls)
    requires CutShortFrom(calls, k, m) && k < |calls|
    ensures end == Value(true) <==> m == 0 || TimeOfAttempt(env, wait, k + m) < timeout
    ensures end == Value(true) ==> |calls| == k + m + 1
    ensures end != Value(true) ==> end == RetryError(Raised(SetChangedDuringIteration)) && |calls| <= k + m
  {
    if |calls| > k + m {
      WaitEndsExactly(wait, timeout, calls, end, k + m);
      if m > 0 { WaitEndsExactly(wait, timeout, calls, end, k + m - 1); }
    } else {
      WaitEndsExactly(wait, timeout, calls, end, |calls| - 1);
      TimesGrow(env, wait, |calls|, k + m);
    }
  }

  /** Once everything is healthy the wait still needs one attempt for each backend that is left
      and one more; it succeeds exactly when the last of them is moved before the timeout.
      Whatever the attempts before met has only cost time. */
  lemma HealthyFromSucceedsIff(backends: set<Backend>, replicas: nat, env: nat -> AttemptEnv,
                               wait: nat, timeout: nat, states: seq<State>,
                               calls: seq<Attempt<bool, Error>>, end: End<bool, Error>, k: nat)
    requires HealthRun(backends, replicas, env, WaitSettings(wait, timeout), states, calls)
    requires Fair(env) && HealthyFrom(backends, env, k) && k < |calls|
    requires Run(WaitSettings(wait, timeout), calls, end)
    ensures var last := k + |states[k].pending|;
            && (end == Value(true) <==> |states[k].pending| == 0 || TimeOfAttempt(env, wait, last) < timeout)
            && (end == Value(true) ==> |calls| == last + 1 && states[|calls|] == State({}, backends))
            && (end != Value(true) ==> end == RetryError(Raised(SetChangedDuringIteration)) && |calls| <= last)
  {
    var m, settings := |states[k].pending|, WaitSettings(wait, timeout);
    forall i | k <= i < |calls| && i <= k + m
      ensures calls[i].outcome == if i == k + m then Returned(true) else Raised(SetChangedDuringIteration)
    {
      OneBackendPerAttempt(backends, replicas, env, settings, states, calls, k, i);
    }
    RunIsTimed(backends, replicas, env, wait, timeout, states, calls);
    LastMoveDecides(env, wait, timeout, calls, end, k, m);
    if end == Value(true) {
      OneBackendPerAttempt(backends, replicas, env, settings, states, calls, k, k + m);
      NobodyLeft(backends, replicas, env, settings, states, calls, k + m);
    }
  }

  lemma NobodyLeft(backends: set<Backend>, replicas: nat, env: nat -> AttemptEnv,
                   s: Settings<bool, Error>, states: seq<State>, calls: seq<Attempt<bool, Error>>, n: nat)
    requires HealthRun(backends, replicas, env, s, states, calls) && Fair(env) && n < |calls|
    requires |states[n].pending| == 0 && calls[n].outcome == Returned(true)
    ensures states[n + 1] == State({}, backends)
  {
    PartitionKept(backends, replicas, env, s, states, calls, n);
    CutShortMovesOne(backends, replicas, env, s, states, calls, n);
  }

  /** With every backend healthy all along. */
  lemma AllHealthySucceedsIff(backends: set<Backend>, replicas: nat, env: nat -> AttemptEnv,
                                       wait: nat, timeout: nat, states: seq<State>,
                                       calls: seq<Attempt<bool, Error>>, end: End<bool, Error>)
    requires HealthRun(backends, replicas, env, WaitSettings(wait, timeout), states, calls)
    requires Fair(env) && HealthyFrom(backends, env, 0) && backends != {}
    requires Run(WaitSettings(wait, timeout), calls, end)
    ensures end == Value(true) <==> TimeOfAttempt(env, wait, |backends|) < timeout
    ensures end == Value(true) ==> |calls| == |backends| + 1 && states[|calls|] == State({}, backends)
    ensures end != Value(true) ==> end == RetryError(Raised(SetChangedDuringIteration)) && |calls| <= |backends|
  {
    HealthyFromSucceedsIff(backends, replicas, env, wait, timeout, states, calls, end, 0);
  }

  // ---------- An outage at the start ----------

  /** Every health query of the first k attempts fails. */
  ghost predicate OutageUntil(backends: set<Backend>, env: nat -> AttemptEnv, k: nat) {
    forall n: nat, b :: n < k && b in backends ==> env(n).report(b) == ApiFailure
  }

  lemma {:induction false} OutageMovesNothing(backends: set<Backend>, replicas: nat, env: nat -> AttemptEnv,
                                              s: Settings<bool, Error>, states: seq<State>,
                                              calls: seq<Attempt<bool, Error>>, k: nat, i: nat)
    requires HealthRun(backends, replicas, env, s, states, calls) && Fair(env) && backends != {}
    requires OutageUntil(backends, env, k) && i <= k && i < |states|
    ensures states[i] == State(backends, {})
    ensures i < k && i < |calls| ==> calls[i].outcome == Raised(ApiError)
  {
    if i > 0 {
      OutageMovesNothing(backends, replicas, env, s, states, calls, k, i - 1);
      CutShortMovesOne(backends, replicas, env, s, states, calls, i - 1);
    }
    if i < k && i < |calls| {
      AttemptOutcome(backends, replicas, env, s, states, calls, i);
      var b :| b in backends;
      assert env(i).report(b) == ApiFailure;
    }
  }

  /** An outage of k attempts, after which everything is healthy, does not end the wait: it
      succeeds exactly when attempt number k + |backends| ends before the timeout. */
  lemma OutageOnlyDelays(backends: set<Backend>, replicas: nat, env: nat -> AttemptEnv,
                         wait: nat, timeout: nat, states: seq<State>,
                         calls: seq<Attempt<bool, Error>>, end: End<bool, Error>, k: nat)
    requires HealthRun(backends, replicas, env, WaitSettings(wait, timeout), states, calls)
    requires Fair(env) && backends != {} && OutageUntil(backends, env, k) && HealthyFrom(backends, env, k)
    requires Run(WaitSettings(wait, timeout), calls, end)
    ensures end == Value(true) <==> TimeOfAttempt(env, wait, k + |backends|) < timeout
    ensures end != Value(true) ==> end.RetryError?
  {
    if k < |calls| {
      OutageMovesNothing(backends, replicas, env, WaitSettings(wait, timeout), states, calls, k, k);
      assert states[k].pending == backends;
      HealthyFromSucceedsIff(backends, replicas, env, wait, timeout, states, calls, end, k);
    } else {
      OutageAllAlong(backends, replicas, env, wait, timeout, states, calls, end, k);
    }
  }

  lemma OutageAllAlong(backends: set<Backend>, replicas: nat, env: nat -> AttemptEnv,
                       wait: nat, timeout: nat, states: seq<State>,
                       calls: seq<Attempt<bool, Error>>, end: End<bool, Error>, k: nat)
    requires HealthRun(backends, replicas, env, WaitSettings(wait, timeout), states, calls)
    requires Fair(env) && backends != {} && OutageUntil(backends, env, k) && |calls| <= k
    requires Run(WaitSettings(wait, timeout), calls, end)
    ensures end == RetryError(Raised(ApiError)) && TimeOfAttempt(env, wait, k + |backends|) >= timeout
  {
    OutageMovesNothing(backends, replicas, env, WaitSettings(wait, timeout), states, calls, k, |calls| - 1);
    RunIsTimed(backends, replicas, env, wait, timeout, states, calls);
    TimeoutInOutage(env, wait, timeout, calls, end, k + |backends|);
  }

  lemma TimeoutInOutage(env: nat -> AttemptEnv, wait: nat, timeout: nat, calls: seq<Attempt<bool, Error>>,
                        end: End<bool, Error>, n: nat)
    requires Run(WaitSettings(wait, timeout), calls, end) && Timed(env, wait, calls) && n >= |calls|
    requires calls[|calls| - 1].outcome == Raised(ApiError)
    ensures end == RetryError(Raised(ApiError)) && TimeOfAttempt(env, wait, n) >= timeout
  {
    WaitEndsExactly(wait, timeout, calls, end, |calls| - 1);
    TimesGrow(env, wait, |calls|, n);
  }

  lemma {:induction false} WaitsAddUp(env: nat -> AttemptEnv, wait: nat, n: nat)
    requires n > 0
    ensures TimeOfAttempt(env, wait, n) >= (n - 1) * wait
  {
    if n > 1 { WaitsAddUp(env, wait, n - 1); }
  }

  /** With the default times, 4 and 600 seconds, the wait fails for more than 150 backends,
      however healthy they are and however fast they report. */
  lemma ManyBackendsFail(backends: set<Backend>, replicas: nat, env: nat -> AttemptEnv, states: seq<State>,
                         calls: seq<Attempt<bool, Error>>, end: End<bool, Error>)
    requires HealthRun(backends, replicas, env, WaitSettings(4, 600), states, calls)
    requires Fair(env) && HealthyFrom(backends, env, 0) && |backends| > 150
    requires Run(WaitSettings(4, 600), calls, end)
    ensures end == RetryError(Raised(SetChangedDuringIteration))
  {
    WaitsAddUp(env, 4, |backends|);
    AllHealthySucceedsIff(backends, replicas, env, 4, 600, states, calls, end);
  }
}
