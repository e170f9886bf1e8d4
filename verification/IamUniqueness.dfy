/** What one unconditional binding per role is needed for: run by run, and exactly.

    Each property is stated of an initial policy, over every run that starts from it. */
module IamUniqueness {
  import opened Wrappers
  import opened IamPolicy
  import opened IamCache
  import opened IamProtocol
  import opened IamInvariant
  import opened IamTheorems
  import opened IamAftermath

  ghost predicate RunFrom(tr: seq<State>, p: Policy) {
    Run(tr) && tr[0].history == [p]
  }

  function Last(tr: seq<State>): State
    requires tr != []
  {
    tr[|tr| - 1]
  }

  ghost predicate HasReturned(tr: seq<State>, i: nat, c: CallId)
    requires i < |tr|
  {
    c in tr[i].calls && tr[i].calls[c].phase.Returned?
  }

  /** A removal that returned had, after its start, a moment at which its goal held. */
  ghost predicate RemovalsHoldIn(tr: seq<State>) {
    forall i: nat, c :: i < |tr| && HasReturned(tr, i, c) && tr[i].calls[c].op.Remove?
                        ==> GoalHeld(tr, i, c, tr[i].calls[c].op)
  }

  ghost predicate RemovalsHold(p: Policy) {
    forall tr: seq<State> :: RunFrom(tr, p) ==> RemovalsHoldIn(tr)
  }

  ghost predicate Explained(s: State, p: Policy) {
    Grants(Current(s).bindings) == Replay(Grants(p.bindings), s.log)
  }

  /** The grants are the committed operations, in commit order. */
  ghost predicate LogExplains(p: Policy) {
    forall tr: seq<State> :: RunFrom(tr, p) ==> forall s :: s in tr ==> Explained(s, p)
  }

  /** After a normal return no request of the call commits, if its process has made at most n
      other searches by then. */
  ghost predicate ReturnedAreDoneIn(tr: seq<State>, n: nat) {
    forall i: nat, j: nat, c :: i <= j < |tr| && HasReturned(tr, i, c) && OtherSearches(tr[i], c) <= n
                                ==> NotFrom(tr[j].log, |tr[i].log|, c)
  }

  ghost predicate ReturnedAreDone(p: Policy, n: nat) {
    forall tr: seq<State> :: RunFrom(tr, p) ==> ReturnedAreDoneIn(tr, n)
  }

  /** The call is about to decide on a policy that has its own commit number k in it, and nobody
      has undone that. */
  ghost predicate KnowsOwnCommit(s: State, c: CallId, k: nat) {
    && c in s.calls && s.calls[c].phase.ReadServed?
    && k < |s.log| && s.log[k].call == c && k < s.calls[c].phase.revision
    && forall l :: k < l < |s.log| ==> Target(s.log[l].op) != Target(s.calls[c].op) || s.log[l].op == s.calls[c].op
  }

  ghost predicate DecidesToReturn(s: State, c: CallId, found: Option<Binding>)
    requires Enabled(s, Decide(c, found))
  {
    Apply(s, Decide(c, found)).calls[c].phase == Returned && Apply(s, Decide(c, found)).sent == s.sent
  }

  /** A conflict of a call with itself ends in a return without another write. */
  ghost predicate ConflictHeals(s: State, c: CallId, k: nat) {
    KnowsOwnCommit(s, c, k) ==> forall found :: Enabled(s, Decide(c, found)) ==> DecidesToReturn(s, c, found)
  }

  ghost predicate ConflictsHeal(p: Policy) {
    forall tr: seq<State> :: RunFrom(tr, p) ==> forall s, c, k :: s in tr ==> ConflictHeals(s, c, k)
  }

  // ---------- Building runs ----------

  lemma Then(tr: seq<State>, p: Policy, step: Step) returns (tr': seq<State>)
    requires RunFrom(tr, p) && Enabled(Last(tr), step)
    ensures RunFrom(tr', p) && tr' == tr + [Apply(Last(tr), step)]
  {
    tr' := tr + [Apply(Last(tr), step)];
    forall i | 0 <= i < |tr'| - 1 ensures Next(tr'[i], tr'[i + 1]) {
      if i < |tr| - 1 { assert Next(tr[i], tr[i + 1]); }
    }
  }

  function StateOf(p: Policy): State {
    State([p], map[], {}, [], map[], [])
  }

  lemma Begin(p: Policy) returns (tr: seq<State>)
    ensures RunFrom(tr, p) && tr == [StateOf(p)]
  {
    tr := [StateOf(p)];
  }

  lemma {:induction false} LengthBound(s: set<string>) returns (n: nat)
    ensures forall t :: t in s ==> |t| <= n
  {
    n := 0;
    if t :| t in s {
      var m := LengthBound(s - {t});
      n := if |t| <= m then m else |t|;
    }
  }

  lemma FreshString(s: set<string>) returns (x: string)
    ensures x !in s
  {
    var n := LengthBound(s);
    x := seq(n + 1, i => 'x');
  }

  lemma FreshEtag(s: State) returns (e: string)
    ensures forall p :: p in s.history ==> p.etag != e
  {
    e := FreshString(set p | p in s.history :: p.etag);
  }

  /** A call, in a process of its own, reads the current policy. */
  lemma Reads(tr: seq<State>, p: Policy, c: CallId, op: Op) returns (tr': seq<State>)
    requires RunFrom(tr, p) && c !in Last(tr).calls
    ensures RunFrom(tr', p)
    ensures var s := Last(tr);
            Last(tr') == s.(calls := s.calls[c := Call(op, c, |s.searches|, ReadServed(1, |s.history| - 1, Current(s)))])
  {
    tr' := Then(tr, p, Start(c, op, c));
    tr' := Then(tr', p, ServeRead(c));
  }

  /** The request of an edit of the current policy. */
  function RequestOf(s: State, c: CallId, op: Op, q: Policy): SetRequest {
    SetRequest(c, op, |s.history| - 1, q)
  }

  /** A call reads the current policy, searches it, and sends an edit of it. */
  lemma Sends(tr: seq<State>, p: Policy, c: CallId, op: Op, found: Option<Binding>, q: Policy) returns (tr': seq<State>)
    requires RunFrom(tr, p) && c !in Last(tr).calls && c !in Last(tr).caches
    requires Finds(Current(Last(tr)), op.role, None, found) && EditFor(op, Current(Last(tr)), found) == Write(q)
    ensures RunFrom(tr', p)
    ensures var s, s' := Last(tr), Last(tr'); var r := RequestOf(s, c, op, q);
            && s'.history == s.history && s'.log == s.log && s'.sent == s.sent + {r}
            && s'.calls == s.calls[c := Call(op, c, |s.searches|, Writing(1, r))]
            && s'.caches == s.caches[c := [Entry(Current(s), op.role, found)]]
            && s'.searches == s.searches + [Search(c, Some(c))]
  {
    var read := Reads(tr, p, c, op);
    var e := Entry(Current(Last(tr)), op.role, found);
    assert Use([], e) == [e] by { assert Without([], e) == []; }
    assert CacheOf(Last(read), c) == [];
    tr' := Then(read, p, Decide(c, found));
  }

  /** ... and it commits, while the call waits for the reply. */
  lemma Commits(tr: seq<State>, p: Policy, c: CallId, op: Op, found: Option<Binding>, q: Policy) returns (tr': seq<State>)
    requires RunFrom(tr, p) && c !in Last(tr).calls && c !in Last(tr).caches
    requires Finds(Current(Last(tr)), op.role, None, found) && EditFor(op, Current(Last(tr)), found) == Write(q)
    ensures RunFrom(tr', p)
    ensures var s, s' := Last(tr), Last(tr'); var r := RequestOf(s, c, op, q);
            && s'.calls == s.calls[c := Call(op, c, |s.searches|, Writing(1, r))] && s'.log == s.log + [r]
            && s'.caches == s.caches[c := [Entry(Current(s), op.role, found)]]
            && |s'.history| == |s.history| + 1
            && Current(s').bindings == q.bindings && Current(s').etag != Current(s).etag
  {
    EditKeepsEtag(op, Current(Last(tr)), found);
    var sent := Sends(tr, p, c, op, found, q);
    var r := RequestOf(Last(tr), c, op, q);
    var e := FreshEtag(Last(sent));
    assert Current(Last(sent)) in Last(sent).history;
    assert Fresh(Last(sent), r);
    tr' := Then(sent, p, Deliver(r, e));
  }

  // ---------- Two unconditional bindings of one role ----------

  ghost predicate TwoBindings(p: Policy, a: Binding, b: Binding) {
    a in p.bindings && b in p.bindings && a != b && a.role == b.role && a.condition == None == b.condition
  }

  /** One of the two has a member that the other does not have. */
  lemma OneMemberApart(p: Policy, a: Binding, b: Binding) returns (with_: Binding, without: Binding, m: string)
    requires TwoBindings(p, a, b)
    ensures TwoBindings(p, with_, without) && with_.role == a.role && m in with_.members && m !in without.members
  {
    if x :| x in a.members && x !in b.members {
      with_, without, m := a, b, x;
    } else {
      var x :| x in b.members && x !in a.members;
      with_, without, m := b, a, x;
    }
  }

  /** The removal looks at the binding without the member, and returns. */
  lemma RemovalCanFail(p: Policy, a: Binding, b: Binding)
    requires TwoBindings(p, a, b)
    ensures !RemovalsHold(p)
  {
    var w, wo, m := OneMemberApart(p, a, b);
    var op := Remove(w.role, m);
    var tr := Begin(p);
    tr := Then(tr, p, Start(0, op, 0));
    tr := Then(tr, p, ServeRead(0));
    tr := Then(tr, p, Decide(0, Some(wo)));
    assert HasReturned(tr, 3, 0);
    forall k | 0 <= k <= 3 ensures !Goal(op, Current(tr[k]).bindings) {
      assert Current(tr[k]) == p;
      assert Target(op) in Grants(p.bindings);
    }
    assert !GoalHeld(tr, 3, 0, op);
  }

  function With(b: Binding, x: string): Binding {
    b.(members := b.members + {x})
  }

  /** A new member is added to either binding, and removed from one. */
  lemma LogCanMisexplain(p: Policy, a: Binding, b: Binding)
    requires TwoBindings(p, a, b)
    ensures !LogExplains(p)
  {
    var x := FreshString(a.members + b.members);
    var add, remove := Add(a.role, x), Remove(a.role, x);
    TwiceAdded(p, a, b, x);
    var tr := Begin(p);
    tr := Commits(tr, p, 0, add, Some(a), ReplaceBinding(p, Some(a), With(a, x)));
    var q1 := Current(Last(tr));
    tr := Commits(tr, p, 1, add, Some(b), ReplaceBinding(q1, Some(b), With(b, x)));
    var q2 := Current(Last(tr));
    tr := Commits(tr, p, 2, remove, Some(With(a, x)),
                  ReplaceBinding(q2, Some(With(a, x)), With(a, x).(members := With(a, x).members - {x})));
    var s := Last(tr);
    assert With(b, x) in Current(s).bindings && x in With(b, x).members;
    assert Target(add) in Grants(Current(s).bindings);
    assert s.log[|s.log| - 1].op == remove;
    assert s in tr && !Explained(s, p);
  }

  lemma TwiceAdded(p: Policy, a: Binding, b: Binding, x: string)
    requires TwoBindings(p, a, b) && x !in a.members && x !in b.members
    ensures With(a, x) != b && With(a, x) != With(b, x) && With(a, x) != a
  {
    assert x in With(a, x).members;
    assert With(a, x).members - {x} == a.members && With(b, x).members - {x} == b.members;
  }

  // ---------- Crowding an answer out of the cache ----------

  /** A policy without bindings, and role names by length: each search for one is a new entry. */
  const ELSEWHERE := Policy({}, "", None)

  function RoleOfLength(n: nat): string {
    seq(n, i => 'x')
  }

  function OtherEntry(n: nat): Entry {
    Entry(ELSEWHERE, RoleOfLength(n), None)
  }

  /** The first k entries are of the k latest such searches. */
  ghost predicate Crowded(cache: Cache, least: nat, k: nat) {
    && k <= |cache|
    && (forall i :: 0 <= i < k ==> |cache[i].role| >= least)
    && forall e :: e in cache ==> |e.role| < least + k
  }

  lemma {:induction false} WithoutAbsent(cache: Cache, e: Entry)
    requires e !in cache
    ensures Without(cache, e) == cache
  {
    if cache != [] { WithoutAbsent(cache[1..], e); }
  }

  lemma CrowdsFurther(cache: Cache, least: nat, k: nat)
    requires Crowded(cache, least, k) && k < CACHE_SIZE
    ensures Answers(cache, ELSEWHERE, RoleOfLength(least + k), None)
    ensures Crowded(Use(cache, OtherEntry(least + k)), least, k + 1)
  {
    var e := OtherEntry(least + k);
    WithoutAbsent(cache, e);
    var all := [e] + cache;
    assert forall i :: 0 < i < |all| ==> all[i] == cache[i - 1];
    assert forall x :: x in Use(cache, e) ==> x in all;
  }

  function Repeated(process: Process, k: nat): seq<Search> {
    seq(k, i => Search(process, None))
  }

  lemma RepeatedOnce(process: Process, k: nat)
    ensures Repeated(process, k + 1) == Repeated(process, k) + [Search(process, None)]
  {
  }

  /** The same state but for a cache and the searches that led to it. */
  ghost predicate SearchedOnly(s: State, s': State, process: Process, k: nat) {
    && s' == s.(caches := s'.caches, searches := s'.searches)
    && s'.searches == s.searches + Repeated(process, k)
  }

  lemma CrowdStep(tr: seq<State>, p: Policy, process: Process, least: nat, k: nat) returns (tr': seq<State>)
    requires RunFrom(tr, p) && k < CACHE_SIZE && Crowded(CacheOf(Last(tr), process), least, k)
    ensures RunFrom(tr', p) && SearchedOnly(Last(tr), Last(tr'), process, 1)
    ensures Crowded(CacheOf(Last(tr'), process), least, k + 1)
  {
    CrowdsFurther(CacheOf(Last(tr), process), least, k);
    tr' := Then(tr, p, SearchElsewhere(process, OtherEntry(least + k)));
    assert Repeated(process, 1) == [Search(process, None)];
  }

  /** The process makes k searches elsewhere. */
  lemma {:induction false} Crowds(tr: seq<State>, p: Policy, process: Process, least: nat, k: nat) returns (tr': seq<State>)
    requires RunFrom(tr, p) && k <= CACHE_SIZE
    requires forall e :: e in CacheOf(Last(tr), process) ==> |e.role| < least
    ensures RunFrom(tr', p) && SearchedOnly(Last(tr), Last(tr'), process, k)
    ensures Crowded(CacheOf(Last(tr'), process), least, k)
  {
    if k == 0 {
      tr' := tr;
      assert Repeated(process, 0) == [];
    } else {
      var before := Crowds(tr, p, process, least, k - 1);
      tr' := CrowdStep(before, p, process, least, k - 1);
      SearchedTwice(Last(tr), Last(before), Last(tr'), process, k - 1);
    }
  }

  lemma SearchedTwice(s: State, s': State, s'': State, process: Process, k: nat)
    requires SearchedOnly(s, s', process, k) && SearchedOnly(s', s'', process, 1)
    ensures SearchedOnly(s, s'', process, k + 1)
  {
    RepeatedOnce(process, k);
    assert Repeated(process, 1) == [Search(process, None)];
  }

  lemma {:induction false} OthersOfCrowd(searches: seq<Search>, from: nat, k: nat, process: Process, c: CallId)
    requires from <= |searches|
    ensures OthersSince(searches + Repeated(process, k), from, process, c)
            == OthersSince(searches, from, process, c) + k
  {
    if k == 0 {
      assert searches + Repeated(process, 0) == searches;
    } else {
      var front := searches + Repeated(process, k - 1);
      assert searches + Repeated(process, k) == front + [Search(process, None)];
      OthersNext(front, Search(process, None), from, process, c);
      OthersOfCrowd(searches, from, k - 1, process, c);
    }
  }

  /** A full crowd leaves nothing of an entry with a shorter role name. */
  lemma CrowdedOut(cache: Cache, least: nat, role: string)
    requires Crowded(cache, least, CACHE_SIZE) && CacheOk(cache) && |role| < least
    ensures forall e :: e in cache ==> e.role != role
  {
  }

  /** A write is sent for the binding without the member, and its answer is crowded out. */
  lemma SendsAndForgets(p: Policy, op: Op, found: Option<Binding>, q: Policy) returns (tr: seq<State>)
    requires Finds(p, op.role, None, found) && EditFor(op, p, found) == Write(q)
    ensures RunFrom(tr, p)
    ensures var s, r := Last(tr), RequestOf(StateOf(p), 0, op, q);
            && s.history == [p] && s.log == [] && s.sent == {r}
            && s.calls == map[0 := Call(op, 0, 0, Writing(1, r))]
            && OtherSearches(s, 0) == CACHE_SIZE
            && forall e :: e in CacheOf(s, 0) ==> e.role != op.role
  {
    var first := Begin(p);
    first := Sends(first, p, 0, op, found, q);
    var searches := Last(first).searches;
    assert searches == [Search(0, Some(0))] && searches[..0] == [];
    assert OthersSince(searches, 0, 0, 0) == 0;
    tr := Crowds(first, p, 0, |op.role| + 1, CACHE_SIZE);
    OthersOfCrowd(searches, 0, CACHE_SIZE, 0, 0);
    RunCachesOk(tr, |tr| - 1);
    CrowdedOut(CacheOf(Last(tr), 0), |op.role| + 1, op.role);
  }

  /** Then the other binding is found, and the call returns with its write still under way. */
  lemma ReturnedCanCommit(p: Policy, a: Binding, b: Binding, n: nat)
    requires TwoBindings(p, a, b) && n >= CACHE_SIZE
    ensures !ReturnedAreDone(p, n)
  {
    var w, wo, m := OneMemberApart(p, a, b);
    var op := Add(w.role, m);
    var q := ReplaceBinding(p, Some(wo), With(wo, m));
    var r := RequestOf(StateOf(p), 0, op, q);
    var tr := SendsAndForgets(p, op, Some(wo), q);
    var tr' := ReturnsOnOther(tr, p, op, r, Some(w));
    var i := |tr'| - 1;
    var e := FreshEtag(tr'[i]);
    var tr'' := Then(tr', p, Deliver(r, e));
    assert tr''[i] == tr'[i] && HasReturned(tr'', i, 0);
    assert tr''[i].log == [] && tr''[i + 1].log == [r] && tr''[i + 1].log[0].call == 0;
    assert !NotFrom(tr''[i + 1].log, |tr''[i].log|, 0);
  }

  lemma ReturnsOnOther(tr: seq<State>, p: Policy, op: Op, r: SetRequest, found: Option<Binding>) returns (tr': seq<State>)
    requires RunFrom(tr, p) && Last(tr).history == [p] && Last(tr).log == [] && Last(tr).sent == {r}
    requires Last(tr).calls == map[0 := Call(op, 0, 0, Writing(1, r))] && OtherSearches(Last(tr), 0) == CACHE_SIZE
    requires forall e :: e in CacheOf(Last(tr), 0) ==> e.role != op.role
    requires Finds(p, op.role, None, found) && EditFor(op, p, found).NoChange?
    ensures RunFrom(tr', p)
    ensures var s := Last(tr');
            && s.history == [p] && s.log == [] && s.sent == {r}
            && 0 in s.calls && s.calls[0].phase.Returned? && OtherSearches(s, 0) == CACHE_SIZE
  {
    tr' := Then(tr, p, ReceiveFault(0, Http(CONFLICT), false));
    tr' := Then(tr', p, ServeRead(0));
    OthersNext(Last(tr).searches, Search(0, Some(0)), 0, 0, 0);
    tr' := Then(tr', p, Decide(0, found));
  }

  /** After its own commit the call looks at the other binding, and writes again. */
  lemma ConflictCanRepeat(p: Policy, a: Binding, b: Binding)
    requires TwoBindings(p, a, b)
    ensures !ConflictsHeal(p)
  {
    var x := FreshString(a.members + b.members);
    var op := Add(a.role, x);
    var tr := Begin(p);
    tr := Commits(tr, p, 0, op, Some(a), ReplaceBinding(p, Some(a), With(a, x)));
    tr := Then(tr, p, ReceiveFault(0, Http(CONFLICT), false));
    tr := Then(tr, p, ServeRead(0));
    var s := Last(tr);
    assert KnowsOwnCommit(s, 0, 0) && Enabled(s, Decide(0, Some(b)));
    assert !DecidesToReturn(s, 0, Some(b));
    assert s in tr && !ConflictHeals(s, 0, 0);
  }

  // ---------- Exactly when ----------

  lemma NotUnique(p: Policy) returns (a: Binding, b: Binding)
    requires !UniqueUnconditional(p.bindings)
    ensures TwoBindings(p, a, b)
  {
    a, b :| a in p.bindings && b in p.bindings && a.role == b.role && a.condition == None == b.condition && a != b;
  }

  /** Every normal return of a removal, in every run from a policy, had its goal held, exactly
      when the policy has at most one unconditional binding for each role. */
  lemma RemovalsHoldIff(p: Policy)
    ensures RemovalsHold(p) <==> UniqueUnconditional(p.bindings)
  {
    if UniqueUnconditional(p.bindings) {
      forall tr: seq<State>, i: nat, c: CallId
        | RunFrom(tr, p) && i < |tr| && HasReturned(tr, i, c) && tr[i].calls[c].op.Remove?
        ensures GoalHeld(tr, i, c, tr[i].calls[c].op)
      {
        ReturnMeansGoalHeld(tr, i, c);
      }
    } else {
      var a, b := NotUnique(p);
      RemovalCanFail(p, a, b);
    }
  }

  /** The grants are the committed operations in every run from a policy exactly then, too. */
  lemma LogExplainsIff(p: Policy)
    ensures LogExplains(p) <==> UniqueUnconditional(p.bindings)
  {
    if UniqueUnconditional(p.bindings) {
      forall tr: seq<State>, s | RunFrom(tr, p) && s in tr ensures Explained(s, p) {
        var i :| 0 <= i < |tr| && tr[i] == s;
        RunGrows(tr, 0, i);
        GrantsAreCommittedEdits(tr, i);
      }
    } else {
      var a, b := NotUnique(p);
      LogCanMisexplain(p, a, b);
    }
  }

  /** No request of a returned call ever commits, in all runs from a policy in which the process
      makes at most n other searches by the return, exactly when n is below the cache's size, or
      else when the policy has at most one unconditional binding for each role. */
  lemma ReturnedAreDoneIff(p: Policy, n: nat)
    ensures ReturnedAreDone(p, n) <==> n < 128 || UniqueUnconditional(p.bindings)
  {
    if n < CACHE_SIZE || UniqueUnconditional(p.bindings) {
      forall tr: seq<State>, i: nat, j: nat, c: CallId
        | RunFrom(tr, p) && i <= j < |tr| && HasReturned(tr, i, c) && OtherSearches(tr[i], c) <= n
        ensures NotFrom(tr[j].log, |tr[i].log|, c)
      {
        ReturnedCallNeverCommitsAgain(tr, i, j, c);
      }
    } else {
      var a, b := NotUnique(p);
      ReturnedCanCommit(p, a, b, n);
    }
  }

  /** In particular, none does in a process that makes its calls one after another, or not too
      many at once, whatever the policy. */
  lemma ReturnedAreDoneOnEveryPolicy(p: Policy, n: nat)
    requires n < 128
    ensures ReturnedAreDone(p, n)
  {
    ReturnedAreDoneIff(p, n);
  }

  /** And a call heals from every conflict with itself without another write, in every run from
      a policy, exactly when it has at most one unconditional binding for each role. */
  lemma ConflictsHealIff(p: Policy)
    ensures ConflictsHeal(p) <==> UniqueUnconditional(p.bindings)
  {
    if UniqueUnconditional(p.bindings) {
      forall tr: seq<State>, s: State, c: CallId, k: nat, found: Option<Binding>
        | RunFrom(tr, p) && s in tr && KnowsOwnCommit(s, c, k) && Enabled(s, Decide(c, found))
        ensures DecidesToReturn(s, c, found)
      {
        var i :| 0 <= i < |tr| && tr[i] == s;
        SelfConflictHeals(tr, i, c, found, k);
      }
    } else {
      var a, b := NotUnique(p);
      ConflictCanRepeat(p, a, b);
    }
  }
}
