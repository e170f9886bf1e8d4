/** Concurrent policy editing: any number of add/remove calls against one server.

    One step is one message sent, served, lost or received, or one local decision.  The
    environment is adversarial: a request once sent may be delivered at any later time and
    any number of times, and any fault (a transport error or any HTTP status) may reach a
    client that is waiting for a reply, whether or not its request took effect.  A call runs in
    a process, whose searches go through that process's cache. */
module IamProtocol {
  import opened Wrappers
  import opened IamPolicy
  import opened IamCache

  type CallId = nat

  type Process = nat

  // `_GCP_API_RETRIES` re-sends after the first attempt.
  const MAX_ATTEMPTS: nat := 10 + 1
  const CONFLICT := 409
  const RETRYABLE_STATUS := {429, 500, 502, 503, 504}

  datatype Fault = Transport | Http(status: int)

  datatype Error = ResponseError(status: int) | RetryError

  /** A setIamPolicy request.  `call`, its `op` and `base` (the revision that was read)
      are bookkeeping: the server looks at the policy alone. */
  datatype SetRequest = SetRequest(call: CallId, op: Op, base: nat, policy: Policy)

  datatype Phase =
    | Reading(attempt: nat)
    | ReadServed(attempt: nat, revision: nat, snapshot: Policy)
    | Writing(attempt: nat, request: SetRequest)
    | Returned
    | Raised(error: Error)

  /** `begun` is the number of searches made anywhere before the call started. */
  datatype Call = Call(op: Op, process: Process, begun: nat, phase: Phase)

  /** Bookkeeping: a search that a process made, for one of the calls or for something else. */
  datatype Search = Search(process: Process, call: Option<CallId>)

  /** `history` holds every revision of the policy, the current one last; `sent` every
      write request ever sent; `log` those that committed, in commit order; `searches` the
      searches made, in order. */
  datatype State = State(
    history: History,
    calls: map<CallId, Call>,
    sent: set<SetRequest>,
    log: seq<SetRequest>,
    caches: map<Process, Cache>,
    searches: seq<Search>)

  /** There is always a current revision. */
  type History = h: seq<Policy> | h != [] witness [Policy({}, "", None)]

  datatype Step =
    | Start(c: CallId, op: Op, process: Process)
    | ServeRead(c: CallId)
    | Decide(c: CallId, found: Option<Binding>)
    | SearchElsewhere(process: Process, entry: Entry)
    | Deliver(request: SetRequest, newEtag: string)
    | ReceiveOk(c: CallId)
    | ReceiveFault(c: CallId, fault: Fault, timedOut: bool)

  ghost predicate Init(s: State) {
    |s.history| == 1 && s.calls == map[] && s.sent == {} && s.log == []
    && s.caches == map[] && s.searches == []
  }

  function Current(s: State): Policy
  {
    s.history[|s.history| - 1]
  }

  function CacheOf(s: State, process: Process): Cache {
    if process in s.caches then s.caches[process] else []
  }

  /** What a search leaves: its entry in the cache, and the record of it. */
  function AfterSearch(s: State, process: Process, call: Option<CallId>, e: Entry): State {
    s.(caches := s.caches[process := Use(CacheOf(s, process), e)],
       searches := s.searches + [Search(process, call)])
  }

  /** The searches of a process from a position on that are not those of call c. */
  function OthersSince(searches: seq<Search>, from: nat, process: Process, c: CallId): nat {
    if |searches| <= from then 0
    else
      var last := searches[|searches| - 1];
      OthersSince(searches[..|searches| - 1], from, process, c)
      + if last.process == process && last.call != Some(c) then 1 else 0
  }

  /** The searches that the process of a call has made for anything else since it started. */
  function OtherSearches(s: State, c: CallId): nat
    requires c in s.calls
  {
    OthersSince(s.searches, s.calls[c].begun, s.calls[c].process, c)
  }

  // ---------- The two retry layers ----------

  predicate IsRetryableApiError(f: Fault) {
    f.Transport? || f.status in RETRYABLE_STATUS
  }

  /** How `_execute` ends when attempt number `attempt` fails with `f`. */
  datatype Execution = Resend | TransportFailure | ResponseFailure(status: int)

  function Execute(attempt: nat, f: Fault): Execution {
    if IsRetryableApiError(f) && attempt < MAX_ATTEMPTS then Resend
    else if f.Transport? then TransportFailure
    else ResponseFailure(f.status)
  }

  /** The outer retryer re-runs the whole read-modify-write, unless its time is up. */
  function Outer(timedOut: bool): Phase {
    if timedOut then Raised(RetryError) else Reading(1)
  }

  function AfterFault(p: Phase, f: Fault, timedOut: bool): Phase
    requires p.Reading? || p.ReadServed? || p.Writing?
  {
    match Execute(p.attempt, f)
    case Resend => if p.Writing? then Writing(p.attempt + 1, p.request) else Reading(p.attempt + 1)
    case TransportFailure => Outer(timedOut)
    case ResponseFailure(status) =>
      if p.Writing? && status == CONFLICT then Outer(timedOut) else Raised(ResponseError(status))
  }

  // ---------- Steps ----------

  /** The server commits a write exactly when the etag it carries is the current one. */
  predicate Fresh(s: State, r: SetRequest)
  {
    r.policy.etag == Current(s).etag
  }

  predicate Enabled(s: State, step: Step)
  {
    match step
    case Start(c, op, process) => c !in s.calls
    case ServeRead(c) => c in s.calls && s.calls[c].phase.Reading?
    case Decide(c, found) =>
      && c in s.calls && s.calls[c].phase.ReadServed?
      && Answers(CacheOf(s, s.calls[c].process), s.calls[c].phase.snapshot, s.calls[c].op.role, found)
    case SearchElsewhere(process, e) => Answers(CacheOf(s, process), e.policy, e.role, e.answer)
    case Deliver(r, newEtag) => r in s.sent && forall p :: p in s.history ==> p.etag != newEtag
    case ReceiveOk(c) => c in s.calls && s.calls[c].phase.Writing? && s.calls[c].phase.request in s.log
    case ReceiveFault(c, f, timedOut) =>
      c in s.calls && (s.calls[c].phase.Reading? || s.calls[c].phase.ReadServed? || s.calls[c].phase.Writing?)
  }

  function SetPhase(s: State, c: CallId, p: Phase): State
    requires c in s.calls
  {
    s.(calls := s.calls[c := s.calls[c].(phase := p)])
  }

  function Apply(s: State, step: Step): State
    requires Enabled(s, step)
  {
    match step
    case Start(c, op, process) => s.(calls := s.calls[c := Call(op, process, |s.searches|, Reading(1))])
    case ServeRead(c) =>
      SetPhase(s, c, ReadServed(s.calls[c].phase.attempt, |s.history| - 1, Current(s)))
    case Decide(c, found) =>
      var call := s.calls[c];
      var s' := AfterSearch(s, call.process, Some(c), Entry(call.phase.snapshot, call.op.role, found));
      (match EditFor(call.op, call.phase.snapshot, found)
       case NoChange => SetPhase(s', c, Returned)
       case Write(p) =>
         var r := SetRequest(c, call.op, call.phase.revision, p);
         SetPhase(s', c, Writing(1, r)).(sent := s.sent + {r}))
    case SearchElsewhere(process, e) => AfterSearch(s, process, None, e)
    case Deliver(r, newEtag) =>
      if Fresh(s, r)
      then s.(history := s.history + [r.policy.(etag := newEtag)], log := s.log + [r])
      else s
    case ReceiveOk(c) => SetPhase(s, c, Returned)
    case ReceiveFault(c, f, timedOut) => SetPhase(s, c, AfterFault(s.calls[c].phase, f, timedOut))
  }

  ghost predicate Next(s: State, s': State) {
    exists step :: Enabled(s, step) && s' == Apply(s, step)
  }

  /** A run: every state reached, in order. */
  ghost predicate Run(tr: seq<State>) {
    && tr != [] && Init(tr[0])
    && forall i :: 0 <= i < |tr| - 1 ==> Next(tr[i], tr[i + 1])
  }
}
