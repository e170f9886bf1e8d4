/** How a call takes the faults that reach it, by status, attempt and time; and what a call
    that ended can be told to have met. */
module IamReactions {
  import opened Wrappers
  import opened IamPolicy
  import opened IamProtocol
  import opened IamInvariant
  import opened IamTheorems

  predicate Waiting(s: State, c: CallId) {
    c in s.calls && (s.calls[c].phase.Reading? || s.calls[c].phase.ReadServed? || s.calls[c].phase.Writing?)
  }

  /** Nothing has changed but the phase of one call. */
  ghost predicate OnlyPhase(s: State, s': State, c: CallId) {
    && c in s.calls && c in s'.calls
    && s' == s.(calls := s.calls[c := s.calls[c].(phase := s'.calls[c].phase)])
  }

  /** A fault that may be gone on the next try. */
  predicate Passing(f: Fault) {
    || f == Transport
    || f == Http(429) || f == Http(500) || f == Http(502) || f == Http(503) || f == Http(504)
  }

  /** The eleven tries of a request are used up on passing faults; any other fault is final. */
  lemma FaultReaction(s: State, c: CallId, f: Fault, timedOut: bool)
    requires Waiting(s, c)
    ensures Enabled(s, ReceiveFault(c, f, timedOut))
    ensures var s' := Apply(s, ReceiveFault(c, f, timedOut));
            var p, p' := s.calls[c].phase, s'.calls[c].phase;
            && OnlyPhase(s, s', c)
            && (Passing(f) && p.attempt < 11 ==>
                  p' == if p.Writing? then Writing(p.attempt + 1, p.request) else Reading(p.attempt + 1))
            && (f == Transport && p.attempt >= 11 ==> p' == if timedOut then Raised(RetryError) else Reading(1))
            && (f == Http(409) && p.Writing? ==> p' == if timedOut then Raised(RetryError) else Reading(1))
            && (f == Http(409) && !p.Writing? ==> p' == Raised(ResponseError(409)))
            && (f.Http? && f.status != 409 && (Passing(f) ==> p.attempt >= 11) ==> p' == Raised(ResponseError(f.status)))
  {
  }

  /** The other steps of a call, with the phases they lead to. */
  lemma OwnSteps(s: State, step: Step)
    requires Enabled(s, step)
    ensures var s' := Apply(s, step);
            match step
            case Start(c, op, process) =>
              s' == s.(calls := s.calls[c := Call(op, process, |s.searches|, Reading(1))])
            case ServeRead(c) =>
              OnlyPhase(s, s', c)
              && s'.calls[c].phase
                 == ReadServed(s.calls[c].phase.attempt, |s.history| - 1, s.history[|s.history| - 1])
            case Decide(c, found) =>
              && s'.history == s.history && s'.log == s.log
              && (s'.calls[c].phase == Returned ==> s'.sent == s.sent)
              && (s'.calls[c].phase != Returned ==>
                    s'.calls[c].phase.Writing? && s'.calls[c].phase.attempt == 1
                    && s'.sent == s.sent + {s'.calls[c].phase.request})
            case ReceiveOk(c) => OnlyPhase(s, s', c) && s'.calls[c].phase == Returned
            case _ => true
  {
  }

  // ---------- A conflict with oneself, from the reply to the return ----------

  /** The call's write number k has committed, its reply was lost, and its re-send is answered
      by a conflict in time.  Then it reads again and, whatever its search answers, returns
      without another write: the conflict does not end it. */
  lemma ConflictWithOneselfReturns(tr: seq<State>, i: nat, c: CallId, k: nat, found: Option<Binding>)
    requires Run(tr) && i < |tr| && UniqueUnconditional(tr[0].history[0].bindings)
    requires c in tr[i].calls && tr[i].calls[c].phase.Writing?
    requires k < |tr[i].log| && tr[i].log[k].call == c
    requires forall l :: k < l < |tr[i].log| ==>
               Target(tr[i].log[l].op) != Target(tr[i].calls[c].op) || tr[i].log[l].op == tr[i].calls[c].op
    ensures var conflict := Apply(tr[i], ReceiveFault(c, Http(409), false));
            && Enabled(conflict, ServeRead(c))
            && var read := Apply(conflict, ServeRead(c));
               Enabled(read, Decide(c, found)) ==>
                 Apply(read, Decide(c, found)).calls[c].phase == Returned
                 && Apply(read, Decide(c, found)).sent == tr[i].sent
  {
    var conflict := Apply(tr[i], ReceiveFault(c, Http(409), false));
    FaultReaction(tr[i], c, Http(409), false);
    var read := Apply(conflict, ServeRead(c));
    OwnSteps(conflict, ServeRead(c));
    if Enabled(read, Decide(c, found)) {
      var tr' := tr[..i + 1] + [conflict, read];
      assert Next(tr[i], conflict) && Next(conflict, read);
      forall j | 0 <= j < |tr'| - 1 ensures Next(tr'[j], tr'[j + 1]) {
        if j < i { assert Next(tr[j], tr[j + 1]); }
      }
      RunInv(tr, i);
      SelfConflictHeals(tr', i + 2, c, found, k);
    }
  }

  // ---------- What an error of a call tells ----------

  /** Step number k of the run was the fault f, reaching the call in phase p. */
  ghost predicate Met(tr: seq<State>, k: nat, c: CallId, p: Phase, f: Fault, timedOut: bool) {
    && k + 1 < |tr| && Waiting(tr[k], c) && tr[k].calls[c].phase == p
    && tr[k + 1] == Apply(tr[k], ReceiveFault(c, f, timedOut))
  }

  /** The fault explains the error: a status that is never worth another try, or the eleventh
      failure of one request; and out of time, a conflict or the eleventh transport failure. */
  ghost predicate Explains(p: Phase, f: Fault, timedOut: bool, e: Error)
    requires p.Reading? || p.ReadServed? || p.Writing?
  {
    match e
    case ResponseError(status) =>
      f == Http(status) && (p.Writing? ==> status != 409) && (Passing(f) ==> p.attempt == 11)
    case RetryError =>
      timedOut && ((p.Writing? && f == Http(409)) || (f == Transport && p.attempt == 11))
  }

  ghost predicate Accounted(tr: seq<State>, i: nat, c: CallId, e: Error) {
    exists k: nat, p: Phase, f: Fault, timedOut: bool ::
      k < i && (p.Reading? || p.ReadServed? || p.Writing?) && Met(tr, k, c, p, f, timedOut) && Explains(p, f, timedOut, e)
  }

  lemma FaultExplains(tr: seq<State>, i: nat, c: CallId, f: Fault, timedOut: bool)
    requires 0 < i < |tr| && Inv(tr[i - 1]) && Waiting(tr[i - 1], c)
    requires tr[i] == Apply(tr[i - 1], ReceiveFault(c, f, timedOut)) && tr[i].calls[c].phase.Raised?
    ensures Accounted(tr, i, c, tr[i].calls[c].phase.error)
  {
    var p := tr[i - 1].calls[c].phase;
    assert PhaseOk(tr[i - 1], c);
    FaultReaction(tr[i - 1], c, f, timedOut);
    assert Met(tr, i - 1, c, p, f, timedOut) && Explains(p, f, timedOut, tr[i].calls[c].phase.error);
  }

  lemma RaisedOnlyByFault(s: State, step: Step, c: CallId)
    requires Enabled(s, step) && c in Apply(s, step).calls && Apply(s, step).calls[c].phase.Raised?
    ensures c in s.calls && (s.calls[c] == Apply(s, step).calls[c] || (step.ReceiveFault? && step.c == c))
  {
  }

  /** In every run, a call that failed met a fault that accounts for its error: no conflict on
      a write ever ends a call before its time is up, and no passing fault before the eleventh
      try. */
  lemma {:induction false} ErrorsAreAccountedFor(tr: seq<State>, i: nat, c: CallId)
    requires Run(tr) && i < |tr| && c in tr[i].calls && tr[i].calls[c].phase.Raised?
    ensures Accounted(tr, i, c, tr[i].calls[c].phase.error)
  {
    if i > 0 {
      RunInv(tr, i - 1);
      var step := StepTaken(tr, i);
      RaisedOnlyByFault(tr[i - 1], step, c);
      if tr[i - 1].calls[c] == tr[i].calls[c] {
        ErrorsAreAccountedFor(tr, i - 1, c);
      } else {
        FaultExplains(tr, i, c, step.fault, step.timedOut);
      }
    }
  }
}
