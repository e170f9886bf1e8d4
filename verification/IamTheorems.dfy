/** Safety of concurrent policy editing, over every run. */
module IamTheorems {
  import opened Wrappers
  import opened IamPolicy
  import opened IamProtocol
  import opened IamInvariant

  /** The specification of the whole service: the committed operations, one by one. */
  function Replay(grants: set<Grant>, log: seq<SetRequest>): set<Grant> {
    if log == [] then grants
    else ApplyOp(Replay(grants, log[..|log| - 1]), log[|log| - 1].op)
  }

  /** What makes every committed edit exact: one unconditional binding per role to begin
      with, or no revocations at all. */
  ghost predicate Exact(s: State)
  {
    UniqueUnconditional(s.history[0].bindings) || forall r :: r in s.log ==> r.op.Add?
  }

  // ---------- The server's grants are the committed edits ----------

  lemma {:induction false} HistoryReplays(s: State, i: nat)
    requires Inv(s) && i < |s.history| && Exact(s)
    ensures Grants(s.history[i].bindings) == Replay(Grants(s.history[0].bindings), s.log[..i])
  {
    if i > 0 {
      HistoryReplays(s, i - 1);
      assert s.log[i - 1] in s.log;
      CommitIsExact(s, i - 1);
      assert s.log[..i][..i - 1] == s.log[..i - 1];
    }
  }

  /** In every state of every run the server's grants are the initial grants with the
      committed operations applied in commit order: no update is lost. */
  lemma GrantsAreCommittedEdits(tr: seq<State>, i: nat)
    requires Run(tr) && i < |tr|
    requires Exact(tr[i])
    ensures Grants(Current(tr[i]).bindings) == Replay(Grants(tr[0].history[0].bindings), tr[i].log)
  {
    RunInv(tr, i);
    RunGrows(tr, 0, i);
    HistoryReplays(tr[i], |tr[i].log|);
    assert tr[i].log[..|tr[i].log|] == tr[i].log;
  }

  /** Whatever the policy looks like, a commit changes at most the grant of its own
      operation, in its direction, and leaves conditional bindings and other roles' bindings
      alone. */
  lemma CommitTouches(s: State, k: nat)
    requires Inv(s) && k < |s.log|
    ensures var before, after := Grants(s.history[k].bindings), Grants(s.history[k + 1].bindings);
            var op := s.log[k].op;
            && before - {Target(op)} == after - {Target(op)}
            && (if op.Add? then Target(op) in after else after <= before)
    ensures forall b :: !Matches(b, s.log[k].op.role, None)
              ==> (b in s.history[k].bindings <==> b in s.history[k + 1].bindings)
  {
    var r := s.log[k];
    assert IsEditOf(r, s.history);
    var found :| Finds(s.history[k], r.op.role, None, found)
                 && EditFor(r.op, s.history[k], found) == Write(r.policy);
    if r.op.Add? {
      AddChangesOneGrant(s.history[k], r.op.role, r.op.member, found);
    } else {
      RemoveTouchesOnlyItsGrant(s.history[k], r.op.role, r.op.member, found);
    }
    forall b | !Matches(b, r.op.role, None)
      ensures b in s.history[k].bindings <==> b in s.history[k + 1].bindings
    {
      OtherBindingsUntouched(r.op, s.history[k], found, b);
    }
  }

  lemma CommitTouchesOnlyItsGrant(tr: seq<State>, i: nat, k: nat)
    requires Run(tr) && i < |tr| && k < |tr[i].log|
    ensures |tr[i].history| == |tr[i].log| + 1
    ensures var t := Target(tr[i].log[k].op);
            Grants(tr[i].history[k].bindings) - {t} == Grants(tr[i].history[k + 1].bindings) - {t}
    ensures forall b :: !Matches(b, tr[i].log[k].op.role, None)
              ==> (b in tr[i].history[k].bindings <==> b in tr[i].history[k + 1].bindings)
  {
    RunInv(tr, i);
    CommitTouches(tr[i], k);
  }

  /** However often a request is re-sent or delivered late, it commits at most once. */
  lemma NoRequestCommitsTwice(tr: seq<State>, i: nat, k: nat, l: nat)
    requires Run(tr) && i < |tr| && k < |tr[i].log| && l < |tr[i].log|
    ensures tr[i].log[k] == tr[i].log[l] ==> k == l
  {
    RunInv(tr, i);
  }

  // ---------- Runs only grow ----------

  /** Nothing recorded is ever taken back. */
  ghost predicate Grows(s: State, s': State) {
    && s.history <= s'.history && s.log <= s'.log && s.sent <= s'.sent
    && (forall c :: c in s.calls ==> c in s'.calls && s'.calls[c].op == s.calls[c].op)
    && (forall c :: c in s.calls && s.calls[c].phase.Returned? ==> s'.calls[c].phase.Returned?)
  }

  lemma StepGrows(s: State, step: Step)
    requires Enabled(s, step)
    ensures Grows(s, Apply(s, step))
  {
  }

  lemma GrowsFurther(s: State, s': State, s'': State)
    requires Grows(s, s') && Grows(s', s'')
    ensures Grows(s, s'')
  {
  }

  lemma {:induction false} RunGrows(tr: seq<State>, i: nat, j: nat)
    requires Run(tr) && i <= j < |tr|
    ensures Grows(tr[i], tr[j])
  {
    if i < j {
      RunGrows(tr, i, j - 1);
      var step := StepTaken(tr, j);
      StepGrows(tr[j - 1], step);
      GrowsFurther(tr[i], tr[j - 1], tr[j]);
    }
  }

  // ---------- A normal return means the goal held during the call ----------

  /** At some state of the run up to `i` the call had started and `p` was the policy. */
  ghost predicate WasCurrent(tr: seq<State>, i: nat, c: CallId, p: Policy)
    requires i < |tr|
  {
    exists k :: 0 <= k <= i && c in tr[k].calls && Current(tr[k]) == p
  }

  /** At some state of the run up to `i` the call had started and its goal held. */
  ghost predicate GoalHeld(tr: seq<State>, i: nat, c: CallId, op: Op)
    requires i < |tr|
  {
    exists k :: 0 <= k <= i && c in tr[k].calls && Goal(op, Current(tr[k]).bindings)
  }

  ghost predicate CallWitnessed(tr: seq<State>, i: nat, c: CallId)
    requires i < |tr| && c in tr[i].calls
  {
    var call := tr[i].calls[c];
    && (call.phase.ReadServed? ==> WasCurrent(tr, i, c, call.phase.snapshot))
    && ((exists r :: r in tr[i].log && r.call == c) ==> GoalHeld(tr, i, c, call.op))
    && (call.phase.Returned? ==> GoalHeld(tr, i, c, call.op))
  }

  lemma WitnessesStay(tr: seq<State>, i: nat, c: CallId)
    requires 0 < i < |tr|
    ensures forall p :: WasCurrent(tr, i - 1, c, p) ==> WasCurrent(tr, i, c, p)
    ensures forall op :: GoalHeld(tr, i - 1, c, op) ==> GoalHeld(tr, i, c, op)
  {
  }

  lemma DecideWitnessed(tr: seq<State>, i: nat, c: CallId, found: Option<Binding>)
    requires 0 < i < |tr| && Inv(tr[i - 1]) && c in tr[i - 1].calls && CallWitnessed(tr, i - 1, c)
    requires Enabled(tr[i - 1], Decide(c, found)) && tr[i] == Apply(tr[i - 1], Decide(c, found))
    requires tr[i].calls[c].op.Add? || UniqueUnconditional(tr[i - 1].history[0].bindings)
    ensures CallWitnessed(tr, i, c)
  {
    WitnessesStay(tr, i, c);
    var call := tr[i - 1].calls[c];
    var k :| 0 <= k <= i - 1 && c in tr[k].calls && Current(tr[k]) == call.phase.snapshot;
    if tr[i].calls[c].phase.Returned? {
      if call.op.Add? {
        AddChangesOneGrant(call.phase.snapshot, call.op.role, call.op.member, found);
      } else {
        assert PhaseOk(tr[i - 1], c);
        RevisionsUnique(tr[i - 1], call.phase.revision);
        EditIsExact(call.op, call.phase.snapshot, found);
      }
      assert Goal(call.op, Current(tr[k]).bindings);
    }
  }

  lemma DeliverWitnessed(tr: seq<State>, i: nat, c: CallId, r: SetRequest, newEtag: string)
    requires 0 < i < |tr| && Inv(tr[i - 1]) && Inv(tr[i]) && c in tr[i - 1].calls && CallWitnessed(tr, i - 1, c)
    requires Enabled(tr[i - 1], Deliver(r, newEtag)) && tr[i] == Apply(tr[i - 1], Deliver(r, newEtag))
    requires tr[i].calls[c].op.Add? || UniqueUnconditional(tr[i - 1].history[0].bindings)
    ensures CallWitnessed(tr, i, c)
  {
    WitnessesStay(tr, i, c);
    var s' := tr[i];
    if Fresh(tr[i - 1], r) && r.call == c {
      CommitIsExact(s', |s'.log| - 1);
      assert Goal(r.op, Current(s').bindings);
      assert GoalHeld(tr, i, c, r.op);
    } else if q :| q in s'.log && q.call == c {
      assert q in tr[i - 1].log;
    }
  }

  lemma OtherStepWitnessed(tr: seq<State>, i: nat, c: CallId, step: Step)
    requires 0 < i < |tr| && Inv(tr[i - 1]) && c in tr[i - 1].calls && CallWitnessed(tr, i - 1, c)
    requires Enabled(tr[i - 1], step) && tr[i] == Apply(tr[i - 1], step)
    requires !step.Deliver? && !(step.Decide? && step.c == c)
    ensures CallWitnessed(tr, i, c)
  {
    WitnessesStay(tr, i, c);
    var s, s' := tr[i - 1], tr[i];
    assert s'.log == s.log;
    match step {
      case ServeRead(d) =>
        if d == c { assert WasCurrent(tr, i, c, Current(s')); }
      case ReceiveOk(d) =>
        if d == c { assert PhaseOk(s, c); }
      case _ =>
    }
  }

  lemma NewCallWitnessed(tr: seq<State>, i: nat, c: CallId, step: Step)
    requires 0 < i < |tr| && Inv(tr[i - 1]) && c !in tr[i - 1].calls && c in tr[i].calls
    requires Enabled(tr[i - 1], step) && tr[i] == Apply(tr[i - 1], step)
    ensures CallWitnessed(tr, i, c)
  {
  }

  lemma OldCallWitnessed(tr: seq<State>, i: nat, c: CallId, step: Step)
    requires 0 < i < |tr| && Inv(tr[i - 1]) && Inv(tr[i]) && c in tr[i - 1].calls && CallWitnessed(tr, i - 1, c)
    requires Enabled(tr[i - 1], step) && tr[i] == Apply(tr[i - 1], step) && c in tr[i].calls
    requires tr[i].calls[c].op.Add? || UniqueUnconditional(tr[i - 1].history[0].bindings)
    ensures CallWitnessed(tr, i, c)
  {
    if step.Deliver? {
      DeliverWitnessed(tr, i, c, step.request, step.newEtag);
    } else if step.Decide? && step.c == c {
      DecideWitnessed(tr, i, c, step.found);
    } else {
      OtherStepWitnessed(tr, i, c, step);
    }
  }

  lemma SameBeginning(tr: seq<State>, i: nat)
    requires Run(tr) && i < |tr|
    ensures tr[i].history[0] == tr[0].history[0]
  {
    RunGrows(tr, 0, i);
  }

  lemma SameOp(tr: seq<State>, i: nat, j: nat, c: CallId)
    requires Run(tr) && i <= j < |tr| && c in tr[i].calls
    ensures c in tr[j].calls && tr[j].calls[c].op == tr[i].calls[c].op
    ensures tr[i].calls[c].phase.Returned? ==> tr[j].calls[c].phase.Returned?
  {
    RunGrows(tr, i, j);
  }

  lemma {:induction false} CallsWitnessed(tr: seq<State>, i: nat, c: CallId)
    requires Run(tr) && i < |tr| && c in tr[i].calls
    requires tr[i].calls[c].op.Add? || UniqueUnconditional(tr[0].history[0].bindings)
    ensures CallWitnessed(tr, i, c)
  {
    if i > 0 {
      RunInv(tr, i - 1);
      RunInv(tr, i);
      SameBeginning(tr, i - 1);
      var step := StepTaken(tr, i);
      if c in tr[i - 1].calls {
        SameOp(tr, i - 1, i, c);
        CallsWitnessed(tr, i - 1, c);
        OldCallWitnessed(tr, i, c, step);
      } else {
        NewCallWitnessed(tr, i, c, step);
      }
    }
  }

  lemma StepTaken(tr: seq<State>, i: nat) returns (step: Step)
    requires Run(tr) && 0 < i < |tr|
    ensures Enabled(tr[i - 1], step) && tr[i] == Apply(tr[i - 1], step)
  {
    assert Next(tr[i - 1], tr[i - 1 + 1]);
    step :| Enabled(tr[i - 1], step) && tr[i] == Apply(tr[i - 1], step);
  }

  /** A call that has returned normally by state `i` had, after its start and no later than
      `i`, a moment when its goal held on the server.  Taking `i` to be the first state in
      which it has returned puts that moment between its start and its return. */
  lemma ReturnMeansGoalHeld(tr: seq<State>, i: nat, c: CallId)
    requires Run(tr) && i < |tr| && c in tr[i].calls && tr[i].calls[c].phase.Returned?
    requires tr[i].calls[c].op.Remove? ==> UniqueUnconditional(tr[0].history[0].bindings)
    ensures exists k :: 0 <= k <= i && c in tr[k].calls
                        && Goal(tr[i].calls[c].op, Current(tr[k]).bindings)
  {
    CallsWitnessed(tr, i, c);
  }

  // ---------- A conflict with oneself heals ----------

  /** Operations on other grants do not move this one. */
  lemma {:induction false} GoalSurvives(s: State, op: Op, from: nat, to: nat)
    requires Inv(s)
    requires from <= to < |s.history| && Goal(op, s.history[from].bindings)
    requires forall k :: from <= k < to ==> Target(s.log[k].op) != Target(op) || s.log[k].op == op
    ensures Goal(op, s.history[to].bindings)
  {
    if from < to {
      GoalSurvives(s, op, from, to - 1);
      CommitTouches(s, to - 1);
    }
  }

  /** A call whose own write committed while the reply was lost re-reads after the conflict
      and then returns without writing again, unless someone else undid its edit. */
  lemma SelfConflictHeals(tr: seq<State>, i: nat, c: CallId, found: Option<Binding>, k: nat)
    requires Run(tr) && i < |tr|
    requires UniqueUnconditional(tr[0].history[0].bindings)
    requires Enabled(tr[i], Decide(c, found))
    requires k < |tr[i].log| && tr[i].log[k].call == c && k < tr[i].calls[c].phase.revision
    requires forall l :: k < l < |tr[i].log| ==>
               Target(tr[i].log[l].op) != Target(tr[i].calls[c].op) || tr[i].log[l].op == tr[i].calls[c].op
    ensures Apply(tr[i], Decide(c, found)).calls[c].phase == Returned
    ensures Apply(tr[i], Decide(c, found)).sent == tr[i].sent
  {
    RunInv(tr, i);
    RunGrows(tr, 0, i);
    var s := tr[i];
    assert PhaseOk(s, c);
    assert s.log[k] in s.sent;
    CommitIsExact(s, k);
    GoalSurvives(s, s.calls[c].op, k + 1, s.calls[c].phase.revision);
    RevisionsUnique(s, s.calls[c].phase.revision);
    EditIsExact(s.calls[c].op, s.calls[c].phase.snapshot, found);
  }
}
