/** Differences of accumulated RPC counters, per method and status. */
module StatsDiff {
  import opened Wrappers

  datatype Status = Status(code: int)

  datatype MethodStats = MethodStats(rpcsStarted: int, result: map<Status, int>)

  type Stats = map<string, MethodStats>

  datatype Error = AssertionError

  /** Reading an absent counter of a stats message gives 0. */
  function Count(st: Stats, method_: string, status: Status): int {
    if method_ in st && status in st[method_].result then st[method_].result[status] else 0
  }

  function Started(st: Stats, method_: string): int {
    if method_ in st then st[method_].rpcsStarted else 0
  }

  /** One of the counters present in `after` is lower than it was. */
  ghost predicate Dropped(before: Stats, after: Stats) {
    exists m :: m in after && MethodDropped(before, after, m)
  }

  ghost predicate MethodDropped(before: Stats, after: Stats, m: string) {
    Started(after, m) < Started(before, m)
    || (m in after && exists s :: s in after[m].result && Count(after, m, s) < Count(before, m, s))
  }

  /** The differences, zero ones left out. */
  function MethodDiff(before: Stats, after: Stats, m: string): MethodStats
    requires m in after
  {
    MethodStats(Started(after, m) - Started(before, m),
                map s | s in after[m].result && Count(after, m, s) > Count(before, m, s)
                      :: Count(after, m, s) - Count(before, m, s))
  }

  function DiffOf(before: Stats, after: Stats): Stats {
    map m | m in after :: MethodDiff(before, after, m)
  }

  /** The inner loop of the diff: the completed RPCs of one method. */
  method DiffStatuses(before: Stats, after: Stats, m: string) returns (r: Result<map<Status, int>, Error>)
    requires m in after
    ensures r.Err? <==> exists s :: s in after[m].result && Count(after, m, s) < Count(before, m, s)
    ensures r.Ok? ==> r.value == MethodDiff(before, after, m).result
  {
    var result: map<Status, int> := map[];
    var statuses := after[m].result.Keys;
    while statuses != {}
      invariant statuses <= after[m].result.Keys
      invariant forall s :: s in after[m].result && s !in statuses ==> Count(after, m, s) >= Count(before, m, s)
      invariant result == map s | s in after[m].result.Keys - statuses && Count(after, m, s) > Count(before, m, s)
                                :: Count(after, m, s) - Count(before, m, s)
    {
      var s :| s in statuses;
      statuses := statuses - {s};
      var count := after[m].result[s] - Count(before, m, s);
      if count < 0 { return Err(AssertionError); }
      if count > 0 { result := result[s := count]; }
    }
    r := Ok(result);
  }

  /** `diffAccumulatedStatsPerMethod`: the dictionaries are gone through in any order. */
  method DiffAccumulatedStatsPerMethod(before: Stats, after: Stats) returns (r: Result<Stats, Error>)
    ensures r.Err? <==> Dropped(before, after)
    ensures r.Ok? ==> r.value == DiffOf(before, after)
  {
    var diff: Stats := map[];
    var methods := after.Keys;
    while methods != {}
      invariant methods <= after.Keys
      invariant diff == map m | m in after.Keys - methods :: MethodDiff(before, after, m)
      invariant forall m :: m in after && m !in methods ==> !MethodDropped(before, after, m)
    {
      var m :| m in methods;
      methods := methods - {m};
      var result := DiffStatuses(before, after, m);
      if result.Err? { return Err(AssertionError); }
      var started := after[m].rpcsStarted - Started(before, m);
      if started < 0 { return Err(AssertionError); }
      diff := diff[m := MethodStats(started, result.value)];
    }
    r := Ok(diff);
    assert diff == DiffOf(before, after);
  }

  /** What was there plus the difference is what is there now, for every counter. */
  lemma AfterIsBeforePlusDiff(before: Stats, after: Stats, m: string, s: Status)
    requires !Dropped(before, after) && m in after
    ensures s in after[m].result ==> Count(after, m, s) == Count(before, m, s) + Count(DiffOf(before, after), m, s)
    ensures Started(after, m) == Started(before, m) + Started(DiffOf(before, after), m)
    ensures Count(DiffOf(before, after), m, s) >= 0
  {
  }

  /** The difference lists the methods of `after`, each with the statuses that went up. */
  lemma DiffListsWhatWentUp(before: Stats, after: Stats, m: string, s: Status)
    ensures m in DiffOf(before, after) <==> m in after
    ensures m in after ==>
              (s in DiffOf(before, after)[m].result
               <==> s in after[m].result
                    && after[m].result[s] > if m in before && s in before[m].result then before[m].result[s] else 0)
  {
  }

  /** Counters that only grow, and never disappear. */
  ghost predicate Grows(before: Stats, after: Stats) {
    && before.Keys <= after.Keys
    && (forall m :: m in before ==> before[m].result.Keys <= after[m].result.Keys)
    && !Dropped(before, after)
    && forall m, s {:trigger Count(before, m, s)} :: Count(before, m, s) >= 0
  }

  /** Consecutive differences add up. */
  lemma DiffsTelescope(a: Stats, b: Stats, c: Stats, m: string, s: Status)
    requires Grows(a, b) && Grows(b, c)
    ensures Grows(a, c)
    ensures Count(DiffOf(a, c), m, s) == Count(DiffOf(a, b), m, s) + Count(DiffOf(b, c), m, s)
    ensures Started(DiffOf(a, c), m) == Started(DiffOf(a, b), m) + Started(DiffOf(b, c), m)
  {
  }

  /** Snapshots taken one after the other, of counters that only grow. */
  ghost predicate GrowingSnapshots(snaps: seq<Stats>) {
    forall i :: 0 <= i < |snaps| - 1 ==> Grows(snaps[i], snaps[i + 1])
  }

  /** The counter in the differences of neighbouring snapshots, added up. */
  function SumOfDiffs(snaps: seq<Stats>, m: string, s: Status): int {
    if |snaps| < 2 then 0
    else SumOfDiffs(snaps[..|snaps| - 1], m, s) + Count(DiffOf(snaps[|snaps| - 2], snaps[|snaps| - 1]), m, s)
  }

  function SumOfStarted(snaps: seq<Stats>, m: string): int {
    if |snaps| < 2 then 0
    else SumOfStarted(snaps[..|snaps| - 1], m) + Started(DiffOf(snaps[|snaps| - 2], snaps[|snaps| - 1]), m)
  }

  /** Over any number of snapshots the differences add up to that of the last and the first. */
  lemma {:induction false} SnapshotsTelescope(snaps: seq<Stats>, m: string, s: Status)
    requires snaps != [] && GrowingSnapshots(snaps)
    ensures var first, last := snaps[0], snaps[|snaps| - 1];
            && (|snaps| >= 2 ==> Grows(first, last))
            && SumOfDiffs(snaps, m, s) == Count(DiffOf(first, last), m, s)
            && SumOfStarted(snaps, m) == Started(DiffOf(first, last), m)
  {
    if |snaps| >= 2 {
      SnapshotsTelescope(snaps[..|snaps| - 1], m, s);
      if |snaps| > 2 { DiffsTelescope(snaps[0], snaps[|snaps| - 2], snaps[|snaps| - 1], m, s); }
    }
  }

  /** The verdict on the difference over the observed window. */
  predicate StatusCodesOk(diff: Stats, m: string, expected: Status, strayLimit: nat) {
    && Count(diff, m, expected) > 0
    && forall s :: m in diff && s in diff[m].result && s != expected ==> Count(diff, m, s) <= strayLimit
  }

  /** The check passes exactly when, in the window, the method completed RPCs with the
      expected status, and no other status more often than the limit allows. */
  lemma StatusCodesOkIff(before: Stats, after: Stats, m: string, expected: Status, strayLimit: nat)
    requires !Dropped(before, after)
    ensures StatusCodesOk(DiffOf(before, after), m, expected, strayLimit)
            <==> (&& m in after && expected in after[m].result && Count(after, m, expected) > Count(before, m, expected)
                  && forall s :: s in after[m].result && s != expected
                                 ==> Count(after, m, s) - Count(before, m, s) <= strayLimit)
  {
    var diff := DiffOf(before, after);
    if m in after {
      forall s | s in after[m].result
        ensures Count(diff, m, s) == Count(after, m, s) - Count(before, m, s)
      {
        AfterIsBeforePlusDiff(before, after, m, s);
      }
    }
  }
}
