/** What every step of the protocol keeps. */
module IamInvariant {
  import opened Wrappers
  import opened IamPolicy
  import opened IamProtocol

  ghost predicate DistinctEtags(history: seq<Policy>) {
    forall i, j :: 0 <= i < j < |history| ==> history[i].etag != history[j].etag
  }

  /** The request carries an edit of the revision it names, under that revision's etag. */
  ghost predicate IsEditOf(r: SetRequest, history: seq<Policy>) {
    && r.base < |history|
    && r.policy.etag == history[r.base].etag
    && exists found :: Finds(history[r.base], r.op.role, None, found)
                       && EditFor(r.op, history[r.base], found) == Write(r.policy)
  }

  ghost predicate PhaseOk(s: State, c: CallId)
    requires c in s.calls
  {
    match s.calls[c].phase
    case Reading(a) => 1 <= a <= MAX_ATTEMPTS
    case ReadServed(a, revision, snapshot) =>
      && 1 <= a <= MAX_ATTEMPTS
      && revision < |s.history| && snapshot == s.history[revision]
      && forall r :: r in s.sent && r.call == c ==> r.base <= revision
    case Writing(a, request) =>
      && 1 <= a <= MAX_ATTEMPTS
      && request in s.sent && request.call == c && request.op == s.calls[c].op
      && forall r :: r in s.sent && r.call == c ==> r.base <= request.base
    case _ => true
  }

  /** The commit log explains the history: commit number i was based on revision i and
      made revision i + 1. */
  ghost predicate LogOk(s: State) {
    && |s.history| == |s.log| + 1
    && forall i {:trigger s.log[i]} :: 0 <= i < |s.log| ==>
         && s.log[i] in s.sent
         && s.log[i].base == i
         && s.history[i + 1].bindings == s.log[i].policy.bindings
  }

  ghost predicate Inv(s: State) {
    && DistinctEtags(s.history)
    && (forall r :: r in s.sent ==> r.call in s.calls && r.op == s.calls[r.call].op && IsEditOf(r, s.history))
    && (forall c :: c in s.calls ==> PhaseOk(s, c))
    && LogOk(s)
  }

  lemma EditKeepsEtag(op: Op, p: Policy, found: Option<Binding>)
    ensures var e := EditFor(op, p, found); e.Write? ==> e.policy.etag == p.etag && e.policy.version == p.version
  {
  }

  lemma InitInv(s: State)
    requires Init(s)
    ensures Inv(s)
  {
  }

  lemma DecideKeepsInv(s: State, c: CallId, found: Option<Binding>)
    requires Inv(s) && Enabled(s, Decide(c, found))
    ensures Inv(Apply(s, Decide(c, found)))
  {
    var s' := Apply(s, Decide(c, found));
    var call := s.calls[c];
    var e := EditFor(call.op, call.phase.snapshot, found);
    if e.Write? {
      EditKeepsEtag(call.op, call.phase.snapshot, found);
      var r := SetRequest(c, call.op, call.phase.revision, e.policy);
      assert IsEditOf(r, s.history);
      assert s'.sent == s.sent + {r};
      forall d | d in s'.calls ensures PhaseOk(s', d) {
        assert PhaseOk(s, d);
      }
    }
  }

  lemma DeliverKeepsInv(s: State, r: SetRequest, newEtag: string)
    requires Inv(s) && Enabled(s, Deliver(r, newEtag))
    ensures Inv(Apply(s, Deliver(r, newEtag)))
  {
  }

  lemma PhaseOkKept(s: State, step: Step, d: CallId)
    requires Inv(s) && Enabled(s, step) && !step.Decide? && !step.Deliver?
    requires d in Apply(s, step).calls
    ensures PhaseOk(Apply(s, step), d)
  {
    if d in s.calls { assert PhaseOk(s, d); }
  }

  lemma OtherStepKeepsInv(s: State, step: Step)
    requires Inv(s) && Enabled(s, step) && !step.Decide? && !step.Deliver?
    ensures Inv(Apply(s, step))
  {
    var s' := Apply(s, step);
    assert s'.sent == s.sent && s'.history == s.history && s'.log == s.log;
    assert forall c :: c in s.calls ==> c in s'.calls && s'.calls[c].op == s.calls[c].op;
    forall d | d in s'.calls ensures PhaseOk(s', d) { PhaseOkKept(s, step, d); }
  }

  lemma StepKeepsInv(s: State, step: Step)
    requires Inv(s) && Enabled(s, step)
    ensures Inv(Apply(s, step))
  {
    match step {
      case Decide(c, found) => DecideKeepsInv(s, c, found);
      case Deliver(r, newEtag) => DeliverKeepsInv(s, r, newEtag);
      case _ => OtherStepKeepsInv(s, step);
    }
  }

  /** The invariant holds in every state of every run. */
  lemma {:induction false} RunInv(tr: seq<State>, i: nat)
    requires Run(tr) && i < |tr|
    ensures Inv(tr[i])
  {
    if i == 0 {
      InitInv(tr[0]);
    } else {
      RunInv(tr, i - 1);
      assert Next(tr[i - 1], tr[i - 1 + 1]);
      var step :| Enabled(tr[i - 1], step) && tr[i] == Apply(tr[i - 1], step);
      StepKeepsInv(tr[i - 1], step);
    }
  }

  /** Uniqueness of the initial policy carries over to every revision. */
  lemma {:induction false} RevisionsUnique(s: State, i: nat)
    requires Inv(s) && i < |s.history|
    ensures UniqueUnconditional(s.history[0].bindings) ==> UniqueUnconditional(s.history[i].bindings)
    ensures UniqueBindings(s.history[0].bindings) ==> UniqueBindings(s.history[i].bindings)
  {
    if i > 0 {
      RevisionsUnique(s, i - 1);
      var r := s.log[i - 1];
      assert IsEditOf(r, s.history);
      var found :| Finds(s.history[i - 1], r.op.role, None, found)
                   && EditFor(r.op, s.history[i - 1], found) == Write(r.policy);
      UniquenessPreserved(r.op, s.history[i - 1], found);
    }
  }

  /** Commit number i changed exactly the grant it was meant to change. */
  lemma CommitIsExact(s: State, i: nat)
    requires Inv(s) && i < |s.log|
    requires s.log[i].op.Add? || UniqueUnconditional(s.history[0].bindings)
    ensures Grants(s.history[i + 1].bindings) == ApplyOp(Grants(s.history[i].bindings), s.log[i].op)
    ensures Goal(s.log[i].op, s.history[i + 1].bindings)
  {
    var r := s.log[i];
    assert IsEditOf(r, s.history);
    var found :| Finds(s.history[i], r.op.role, None, found)
                 && EditFor(r.op, s.history[i], found) == Write(r.policy);
    if r.op.Add? {
      AddChangesOneGrant(s.history[i], r.op.role, r.op.member, found);
    } else {
      RevisionsUnique(s, i);
      EditIsExact(r.op, s.history[i], found);
    }
  }
}
