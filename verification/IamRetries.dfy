/** The protocol's reaction to a fault is that of the two retryers, one inside the other. */
module IamRetries {
  import opened Wrappers
  import opened IamPolicy
  import opened IamProtocol
  import R = Retryers

  // Seconds after which `handle_etag_conflict` gives up.
  const OUTER_TIMEOUT: nat := 2 * 60

  /** The errors of one read-modify-write, as the outer retryer sees them. */
  datatype CallError = EtagConflict | TransportError | OtherResponseError(status: int)

  /** `_get_api_retryer`, around one request. */
  function ApiRetryer<V>(): R.Settings<V, Fault> {
    R.ExponentialRetryerWithAttempts(1, 10, MAX_ATTEMPTS, None, Some(IsRetryableApiError), (f: Fault) => true)
  }

  /** `handle_etag_conflict`, around the whole call. */
  function EtagRetryer<V>(): R.Settings<V, CallError> {
    R.ExponentialRetryerWithTimeout(1, 10, OUTER_TIMEOUT, Some((e: CallError) => e.EtagConflict? || e.TransportError?),
                                  None, (e: CallError) => true)
  }

  /** The fault that a failed `_execute` translates: the last one, however it got out. */
  function FaultOf<V>(end: R.End<V, Fault>): Option<Fault> {
    match end
    case Failure(f) => Some(f)
    case RetryError(Raised(f)) => Some(f)
    case _ => None
  }

  /** The error class raised for it; a conflict has its own class when writing only. */
  function Classify(writing: bool, f: Fault): CallError {
    if f.Transport? then TransportError
    else if writing && f.status == CONFLICT then EtagConflict
    else OtherResponseError(f.status)
  }

  /** A conflict is a 409 to a write; to a read it is an error like any other. */
  lemma ConflictsAreOfWrites(writing: bool, f: Fault)
    ensures Classify(writing, f).EtagConflict? <==> writing && f == Http(409)
    ensures Classify(writing, f).TransportError? <==> f == Transport
    ensures Classify(writing, f).OtherResponseError? ==> f == Http(Classify(writing, f).status)
  {
  }

  function Resent(p: Phase): Phase
    requires p.Reading? || p.ReadServed? || p.Writing?
  {
    if p.Writing? then Writing(p.attempt + 1, p.request) else Reading(p.attempt + 1)
  }

  /** What the outer retryer makes of an error of its attempt number `n`. */
  function ByEtagRetryer(n: nat, elapsed: nat, e: CallError): Phase {
    match R.Decide(EtagRetryer<()>(), n, elapsed, R.Outcome<(), CallError>.Raised(e))
    case Sleep(_) => Reading(1)
    case Done(end) =>
      if end.Failure? && end.error.OtherResponseError? then Phase.Raised(ResponseError(end.error.status))
      else Phase.Raised(Error.RetryError)
  }

  /** What both retryers together make of a fault: the request is sent again, or else its
      failure, classified, goes to the outer retryer. */
  function ByRetryers(p: Phase, f: Fault, n: nat, elapsed: nat): Phase
    requires p.Reading? || p.ReadServed? || p.Writing?
  {
    match R.Decide(ApiRetryer<()>(), p.attempt, elapsed, R.Outcome<(), Fault>.Raised(f))
    case Sleep(_) => Resent(p)
    case Done(end) =>
      match FaultOf(end)
      case Some(g) => ByEtagRetryer(n, elapsed, Classify(p.Writing?, g))
      case None => p
  }

  /** The step of the protocol is exactly what the nested retryers do, at any attempt of
      either and at any time. */
  lemma AfterFaultIsByRetryers(p: Phase, f: Fault, n: nat, elapsed: nat)
    requires p.Reading? || p.ReadServed? || p.Writing?
    ensures AfterFault(p, f, elapsed >= 120) == ByRetryers(p, f, n, elapsed)
  {
  }

  /** Over a whole run of `_execute`: at most eleven requests, each but the last answered by
      a fault worth a re-send and followed by the next after 1, 2, 4, 8 and then 10 seconds,
      and a failure is that of the last request. */
  lemma ExecuteRuns<V>(calls: seq<R.Attempt<V, Fault>>, end: R.End<V, Fault>)
    requires R.Run(ApiRetryer<V>(), calls, end)
    ensures 0 < |calls| <= 11
    ensures forall i :: 0 <= i < |calls| - 1 ==>
              && calls[i].outcome.Raised?
              && (calls[i].outcome.error == Transport || calls[i].outcome.error.status in {429, 500, 502, 503, 504})
              && calls[i + 1].start == calls[i].end + if i < 4 then [1, 2, 4, 8][i] else 10
    ensures end.Value? <==> calls[|calls| - 1].outcome.Returned?
    ensures !end.Value? ==> FaultOf(end) == Some(calls[|calls| - 1].outcome.error)
    ensures var last := calls[|calls| - 1].outcome;
            |calls| < 11 && last.Raised? ==> last.error.Http? && last.error.status !in {429, 500, 502, 503, 504}
  {
    forall i | 0 <= i < |calls| - 1
      ensures calls[i].outcome.Raised? && IsRetryableApiError(calls[i].outcome.error)
      ensures calls[i + 1].start == calls[i].end + if i < 4 then [1, 2, 4, 8][i] else 10
    {
      R.EndsExactly(ApiRetryer<V>(), calls, end, i);
      R.WaitsDouble(i + 1);
    }
    R.EndsExactly(ApiRetryer<V>(), calls, end, |calls| - 1);
    R.RunGuarantees(ApiRetryer<V>(), calls, end);
  }

  /** The read-modify-write is started again, after 1, 2, 4, 8 and then 10 seconds, exactly
      when it met a conflict or a transport failure within two minutes; any other error, and
      any success, ends the call. */
  lemma EtagRuns<V>(calls: seq<R.Attempt<V, CallError>>, end: R.End<V, CallError>, i: nat)
    requires R.Run(EtagRetryer<V>(), calls, end) && i < |calls|
    ensures calls[i].start < 130
    ensures var o := calls[i].outcome;
            && (i + 1 < |calls| <==> o.Raised? && !o.error.OtherResponseError? && calls[i].end < 120)
            && (i + 1 < |calls| ==> calls[i + 1].start == calls[i].end + if i < 4 then [1, 2, 4, 8][i] else 10)
            && (o.Raised? && o.error.OtherResponseError? ==> end == R.Failure(o.error))
            && (o.Raised? && !o.error.OtherResponseError? && calls[i].end >= 120 ==> end == R.RetryError(o))
            && (o.Returned? ==> end == R.Value(o.value))
  {
    R.EndsExactly(EtagRetryer<V>(), calls, end, i);
    R.WaitsDouble(i + 1);
    if i > 0 {
      R.EndsExactly(EtagRetryer<V>(), calls, end, i - 1);
      R.WaitsDouble(i);
    }
  }
}
