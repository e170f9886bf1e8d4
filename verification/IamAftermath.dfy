/** A call that has returned leaves nothing behind that could still commit. */
module IamAftermath {
  import opened Wrappers
  import opened IamPolicy
  import opened IamCache
  import opened IamProtocol
  import opened IamInvariant
  import opened IamTheorems

  // ---------- A call remembers what it found ----------

  /** No request of the call names a later revision. */
  ghost predicate Latest(s: State, r: SetRequest) {
    forall q :: q in s.sent && q.call == r.call ==> q.base <= r.base
  }

  /** The answer behind the request is still in the cache: only searches for something else can
      have come in front of it. */
  ghost predicate RemembersAnswer(s: State, c: CallId, r: SetRequest, found: Option<Binding>)
    requires c in s.calls
  {
    && r.base < |s.history|
    && EditFor(r.op, s.history[r.base], found) == Write(r.policy)
    && Near(CacheOf(s, s.calls[c].process), Entry(s.history[r.base], r.op.role, found), OtherSearches(s, c))
  }

  ghost predicate RemembersRequest(s: State, c: CallId, r: SetRequest)
    requires c in s.calls
  {
    exists found :: RemembersAnswer(s, c, r, found)
  }

  ghost predicate Remembers(s: State, c: CallId)
    requires c in s.calls
  {
    forall r :: r in s.sent && r.call == c && Latest(s, r) ==> RemembersRequest(s, c, r)
  }

  /** A call under way remembers, as long as few searches came between. */
  ghost predicate Memory(s: State, c: CallId)
    requires c in s.calls
  {
    && s.calls[c].begun <= |s.searches|
    && (!s.calls[c].phase.Returned? && OtherSearches(s, c) < CACHE_SIZE ==> Remembers(s, c))
  }

  lemma OthersNext(searches: seq<Search>, x: Search, from: nat, process: Process, c: CallId)
    requires from <= |searches|
    ensures OthersSince(searches + [x], from, process, c)
            == OthersSince(searches, from, process, c) + if x.process == process && x.call != Some(c) then 1 else 0
  {
    assert (searches + [x])[..|searches|] == searches;
  }

  lemma NearMonotone(cache: Cache, e: Entry, m: nat, n: nat)
    requires Near(cache, e, m) && m <= n
    ensures Near(cache, e, n)
  {
  }

  /** A search for something else pushes the remembered answer back by one place at most. */
  lemma OtherSearchKeepsAnswer(s: State, s': State, c: CallId, r: SetRequest, found: Option<Binding>,
                               process: Process, who: Option<CallId>, e: Entry)
    requires c in s.calls && c in s'.calls && s'.calls[c] == s.calls[c] && s'.history == s.history
    requires who != Some(c) && s.calls[c].begun <= |s.searches|
    requires s'.caches == AfterSearch(s, process, who, e).caches && s'.searches == s.searches + [Search(process, who)]
    requires RemembersAnswer(s, c, r, found) && OtherSearches(s', c) < CACHE_SIZE
    ensures RemembersAnswer(s', c, r, found)
  {
    var call := s.calls[c];
    OthersNext(s.searches, Search(process, who), call.begun, call.process, c);
    if process == call.process {
      UseKeepsNear(CacheOf(s, process), e, Entry(s.history[r.base], r.op.role, found), OtherSearches(s, c));
    }
  }

  lemma OtherSearchKeepsMemory(s: State, s': State, c: CallId, process: Process, who: Option<CallId>, e: Entry)
    requires c in s.calls && c in s'.calls && s'.calls[c] == s.calls[c] && s'.history == s.history
    requires who != Some(c) && Memory(s, c)
    requires s'.caches == AfterSearch(s, process, who, e).caches && s'.searches == s.searches + [Search(process, who)]
    requires forall r: SetRequest :: r.call == c ==> (r in s'.sent <==> r in s.sent)
    ensures Memory(s', c)
  {
    var call := s.calls[c];
    OthersNext(s.searches, Search(process, who), call.begun, call.process, c);
    if !call.phase.Returned? && OtherSearches(s', c) < CACHE_SIZE {
      forall r | r in s'.sent && r.call == c && Latest(s', r) ensures RemembersRequest(s', c, r) {
        assert Latest(s, r);
        var found :| RemembersAnswer(s, c, r, found);
        OtherSearchKeepsAnswer(s, s', c, r, found, process, who, e);
        assert RemembersAnswer(s', c, r, found);
      }
    }
  }

  /** The answer that a call gets for a revision it has written for is the one it got then. */
  lemma SameAnswer(s: State, c: CallId, r: SetRequest, found: Option<Binding>)
    requires Inv(s) && Enabled(s, Decide(c, found)) && Remembers(s, c)
    requires r in s.sent && r.call == c && r.base == s.calls[c].phase.revision
    ensures EditFor(r.op, s.history[r.base], found) == Write(r.policy)
  {
    assert PhaseOk(s, c);
    assert Latest(s, r);
    var f :| RemembersAnswer(s, c, r, f);
    assert Entry(s.history[r.base], r.op.role, f) in CacheOf(s, s.calls[c].process);
  }

  lemma OwnSearchIsRemembered(s: State, c: CallId, found: Option<Binding>, r: SetRequest)
    requires Inv(s) && Enabled(s, Decide(c, found)) && Memory(s, c)
    requires var s' := Apply(s, Decide(c, found));
             s'.calls[c].phase.Writing? && r in s'.sent && r.call == c && Latest(s', r)
             && OtherSearches(s', c) < CACHE_SIZE
    ensures RemembersRequest(Apply(s, Decide(c, found)), c, r)
  {
    var call, s' := s.calls[c], Apply(s, Decide(c, found));
    var e := Entry(call.phase.snapshot, call.op.role, found);
    assert PhaseOk(s, c);
    OthersNext(s.searches, Search(call.process, Some(c)), call.begun, call.process, c);
    assert s'.calls[c].phase.request in s'.sent && s'.calls[c].phase.request.call == c;
    assert r.base == call.phase.revision;
    if r in s.sent { SameAnswer(s, c, r, found); }
    UseIsNear(CacheOf(s, call.process), e);
    NearMonotone(CacheOf(s', call.process), e, 0, OtherSearches(s', c));
    assert RemembersAnswer(s', c, r, found);
  }

  lemma DecideKeepsMemory(s: State, d: CallId, found: Option<Binding>, c: CallId)
    requires Inv(s) && Enabled(s, Decide(d, found)) && c in s.calls && Memory(s, c)
    ensures Memory(Apply(s, Decide(d, found)), c)
  {
    var s' := Apply(s, Decide(d, found));
    var call := s.calls[d];
    if d != c {
      OtherSearchKeepsMemory(s, s', c, call.process, Some(d), Entry(call.phase.snapshot, call.op.role, found));
    } else if !s'.calls[c].phase.Returned? && OtherSearches(s', c) < CACHE_SIZE {
      forall r | r in s'.sent && r.call == c && Latest(s', r) ensures RemembersRequest(s', c, r) {
        OwnSearchIsRemembered(s, c, found, r);
      }
    }
  }

  lemma PlainStepKeepsMemory(s: State, step: Step, c: CallId)
    requires Inv(s) && Enabled(s, step) && c in s.calls && Memory(s, c)
    requires !step.Decide? && !step.SearchElsewhere?
    ensures Memory(Apply(s, step), c)
  {
    var s' := Apply(s, step);
    if !s'.calls[c].phase.Returned? && OtherSearches(s', c) < CACHE_SIZE {
      forall r | r in s'.sent && r.call == c && Latest(s', r) ensures RemembersRequest(s', c, r) {
        assert Latest(s, r);
        var found :| RemembersAnswer(s, c, r, found);
        assert RemembersAnswer(s', c, r, found);
      }
    }
  }

  lemma StepKeepsMemory(s: State, step: Step, c: CallId)
    requires Inv(s) && Enabled(s, step) && c in s.calls && Memory(s, c)
    ensures Memory(Apply(s, step), c)
  {
    match step {
      case Decide(d, found) => DecideKeepsMemory(s, d, found, c);
      case SearchElsewhere(process, e) => OtherSearchKeepsMemory(s, Apply(s, step), c, process, None, e);
      case _ => PlainStepKeepsMemory(s, step, c);
    }
  }

  lemma NewCallRemembers(s: State, step: Step, c: CallId)
    requires Inv(s) && Enabled(s, step) && c !in s.calls && c in Apply(s, step).calls
    ensures Memory(Apply(s, step), c)
  {
  }

  lemma {:induction false} RunMemory(tr: seq<State>, i: nat, c: CallId)
    requires Run(tr) && i < |tr| && c in tr[i].calls
    ensures Memory(tr[i], c)
  {
    if i > 0 {
      RunInv(tr, i - 1);
      var step := StepTaken(tr, i);
      if c in tr[i - 1].calls {
        RunMemory(tr, i - 1, c);
        StepKeepsMemory(tr[i - 1], step, c);
      } else {
        NewCallRemembers(tr[i - 1], step, c);
      }
    }
  }

  // ---------- Requests of a returned call are out of date ----------

  /** Every write the call ever sent names a superseded revision. */
  ghost predicate Quiet(s: State, c: CallId) {
    forall r :: r in s.sent && r.call == c ==> r.base < |s.history| - 1
  }

  /** What makes every search of one revision by the call lead to one and the same edit: the
      policy has one unconditional binding per role, or the call remembers its answers. */
  ghost predicate Settled(s: State, c: CallId)
    requires c in s.calls
  {
    UniqueUnconditional(s.history[0].bindings) || Remembers(s, c)
  }

  lemma SameEdit(s: State, c: CallId, r: SetRequest, found: Option<Binding>)
    requires Inv(s) && Enabled(s, Decide(c, found)) && Settled(s, c)
    requires r in s.sent && r.call == c && r.base == s.calls[c].phase.revision
    ensures EditFor(r.op, s.history[r.base], found).Write?
  {
    if Remembers(s, c) {
      SameAnswer(s, c, r, found);
    } else {
      assert PhaseOk(s, c);
      var f :| Finds(s.history[r.base], r.op.role, None, f) && EditFor(r.op, s.history[r.base], f) == Write(r.policy);
      RevisionsUnique(s, r.base);
      EditIsExact(r.op, s.history[r.base], f);
      EditIsExact(r.op, s.history[r.base], found);
    }
  }

  lemma DecideIsQuiet(s: State, c: CallId, found: Option<Binding>)
    requires Inv(s) && Enabled(s, Decide(c, found)) && Settled(s, c)
    ensures var s' := Apply(s, Decide(c, found)); s'.calls[c].phase.Returned? ==> Quiet(s', c)
  {
    assert PhaseOk(s, c);
    forall r | r in s.sent && r.call == c && EditFor(r.op, s.calls[c].phase.snapshot, found).NoChange?
      ensures r.base < |s.history| - 1
    {
      if r.base == s.calls[c].phase.revision { SameEdit(s, c, r, found); }
    }
  }

  /** A call returns with all its requests out of date, and they stay so, on every policy. */
  lemma StepKeepsQuiet(s: State, step: Step, c: CallId)
    requires Inv(s) && Enabled(s, step) && c in s.calls
    requires if s.calls[c].phase.Returned? then Quiet(s, c) else Settled(s, c)
    ensures var s' := Apply(s, step); s'.calls[c].phase.Returned? ==> Quiet(s', c)
  {
    match step {
      case Decide(d, found) => if d == c { DecideIsQuiet(s, c, found); }
      case ReceiveOk(d) => assert PhaseOk(s, d);
      case _ =>
    }
  }

  lemma {:induction false} OthersGrow(searches: seq<Search>, more: seq<Search>, from: nat, process: Process, c: CallId)
    requires searches <= more
    ensures OthersSince(searches, from, process, c) <= OthersSince(more, from, process, c)
    decreases |more|
  {
    if |searches| < |more| {
      OthersGrow(searches, more[..|more| - 1], from, process, c);
    } else {
      assert searches == more;
    }
  }

  lemma CallKept(s: State, step: Step, c: CallId)
    requires Enabled(s, step) && c in s.calls
    ensures var s' := Apply(s, step);
            && c in s'.calls && s'.calls[c].process == s.calls[c].process && s'.calls[c].begun == s.calls[c].begun
            && s.searches <= s'.searches && OtherSearches(s, c) <= OtherSearches(s', c)
  {
    OthersGrow(s.searches, Apply(s, step).searches, s.calls[c].begun, s.calls[c].process, c);
  }

  /** Whoever returned was quiet by then, unless the answers it had found were crowded out. */
  lemma {:induction false} ReturnedIsQuiet(tr: seq<State>, i: nat, c: CallId)
    requires Run(tr) && i < |tr| && c in tr[i].calls && tr[i].calls[c].phase.Returned?
    requires UniqueUnconditional(tr[0].history[0].bindings) || OtherSearches(tr[i], c) < CACHE_SIZE
    ensures Quiet(tr[i], c)
  {
    if i > 0 {
      RunInv(tr, i - 1);
      SameBeginning(tr, i - 1);
      var step := StepTaken(tr, i);
      if c in tr[i - 1].calls {
        CallKept(tr[i - 1], step, c);
        RunMemory(tr, i - 1, c);
        if tr[i - 1].calls[c].phase.Returned? { ReturnedIsQuiet(tr, i - 1, c); }
        StepKeepsQuiet(tr[i - 1], step, c);
      }
    }
  }

  lemma {:induction false} QuietStays(tr: seq<State>, i: nat, j: nat, c: CallId)
    requires Run(tr) && i <= j < |tr| && c in tr[i].calls && tr[i].calls[c].phase.Returned? && Quiet(tr[i], c)
    ensures c in tr[j].calls && tr[j].calls[c].phase.Returned? && Quiet(tr[j], c)
  {
    if i < j {
      QuietStays(tr, i, j - 1, c);
      RunInv(tr, j - 1);
      SameOp(tr, j - 1, j, c);
      var step := StepTaken(tr, j);
      StepKeepsQuiet(tr[j - 1], step, c);
    }
  }

  lemma QuietCommit(s: State, step: Step, c: CallId)
    requires Inv(s) && Quiet(s, c) && Enabled(s, step)
    ensures var log' := Apply(s, step).log;
            s.log <= log' && forall k :: |s.log| <= k < |log'| ==> log'[k].call != c
  {
  }

  /** The commits from a position on are other calls'. */
  ghost predicate NotFrom(log: seq<SetRequest>, from: nat, c: CallId) {
    forall k :: from <= k < |log| ==> log[k].call != c
  }

  lemma NotFromExtends(log: seq<SetRequest>, log': seq<SetRequest>, from: nat, c: CallId)
    requires log <= log' && NotFrom(log, from, c) && NotFrom(log', |log|, c)
    ensures NotFrom(log', from, c)
  {
    forall k | from <= k < |log'| ensures log'[k].call != c {
      if k < |log| { assert log'[k] == log[k]; }
    }
  }

  lemma QuietCallKeepsOut(tr: seq<State>, j: nat, c: CallId)
    requires Run(tr) && 0 < j < |tr| && Quiet(tr[j - 1], c)
    ensures tr[j - 1].log <= tr[j].log && NotFrom(tr[j].log, |tr[j - 1].log|, c)
  {
    RunInv(tr, j - 1);
    var step := StepTaken(tr, j);
    QuietCommit(tr[j - 1], step, c);
  }

  lemma {:induction false} QuietCallNeverCommits(tr: seq<State>, i: nat, j: nat, c: CallId)
    requires Run(tr) && i <= j < |tr| && c in tr[i].calls && tr[i].calls[c].phase.Returned? && Quiet(tr[i], c)
    ensures |tr[i].log| <= |tr[j].log| && NotFrom(tr[j].log, |tr[i].log|, c)
  {
    if i < j {
      QuietCallNeverCommits(tr, i, j - 1, c);
      QuietStays(tr, i, j - 1, c);
      QuietCallKeepsOut(tr, j, c);
      NotFromExtends(tr[j - 1].log, tr[j].log, |tr[i].log|, c);
    }
  }

  /** Once a call has returned normally, none of its requests commits any more: not a re-send,
      not a duplicate delivered arbitrarily late.  This holds on every policy, as long as the
      process has not made as many other searches during the call as its cache has places; on
      policies with one unconditional binding per role it holds regardless. */
  lemma ReturnedCallNeverCommitsAgain(tr: seq<State>, i: nat, j: nat, c: CallId)
    requires Run(tr) && i <= j < |tr|
    requires c in tr[i].calls && tr[i].calls[c].phase.Returned?
    requires OtherSearches(tr[i], c) < 128 || UniqueUnconditional(tr[0].history[0].bindings)
    ensures |tr[i].log| <= |tr[j].log|
    ensures NotFrom(tr[j].log, |tr[i].log|, c)
  {
    ReturnedIsQuiet(tr, i, c);
    QuietCallNeverCommits(tr, i, j, c);
  }

  // ---------- Caches are sound, and searches never get stuck ----------

  ghost predicate CachesOk(s: State) {
    forall q :: q in s.caches ==> CacheOk(s.caches[q])
  }

  lemma StepKeepsCachesOk(s: State, step: Step)
    requires CachesOk(s) && Enabled(s, step)
    ensures CachesOk(Apply(s, step))
  {
    match step {
      case Decide(c, found) =>
        var call := s.calls[c];
        UseKeepsOk(CacheOf(s, call.process), call.phase.snapshot, call.op.role, found);
      case SearchElsewhere(process, e) => UseKeepsOk(CacheOf(s, process), e.policy, e.role, e.answer);
      case _ =>
    }
  }

  lemma {:induction false} RunCachesOk(tr: seq<State>, i: nat)
    requires Run(tr) && i < |tr|
    ensures CachesOk(tr[i])
  {
    if i > 0 {
      RunCachesOk(tr, i - 1);
      var step := StepTaken(tr, i);
      StepKeepsCachesOk(tr[i - 1], step);
    }
  }

  /** Every call that has read a policy can go on: the cached search has an answer for it. */
  lemma SearchAlwaysAnswers(tr: seq<State>, i: nat, c: CallId) returns (found: Option<Binding>)
    requires Run(tr) && i < |tr| && c in tr[i].calls && tr[i].calls[c].phase.ReadServed?
    ensures Enabled(tr[i], Decide(c, found))
  {
    RunCachesOk(tr, i);
    var call := tr[i].calls[c];
    found := SomeAnswer(CacheOf(tr[i], call.process), call.phase.snapshot, call.op.role);
  }
}
