/** The cache in front of `find_binding_for_role`: one for each process, of a fixed size, the
    entry used least recently being dropped.

    Policies are its keys by value.  A policy read again at the same revision is equal to the
    first one, so as long as its entry is there the search gives the same binding again. */
module IamCache {
  import opened Wrappers
  import opened IamPolicy

  const CACHE_SIZE: nat := 128

  datatype Entry = Entry(policy: Policy, role: string, answer: Option<Binding>)

  /** The entry used last comes first. */
  type Cache = seq<Entry>

  /** `found` is a possible answer of the cached search: the one in the cache, or, if there is
      none, any that the search itself can give. */
  predicate Answers(cache: Cache, p: Policy, role: string, found: Option<Binding>) {
    && Finds(p, role, None, found)
    && forall e :: e in cache && e.policy == p && e.role == role ==> e.answer == found
  }

  function Without(cache: Cache, e: Entry): (rest: Cache)
    ensures |rest| <= |cache|
    ensures forall x :: x in rest <==> x in cache && x != e
  {
    if cache == [] then []
    else if cache[0] == e then Without(cache[1..], e)
    else [cache[0]] + Without(cache[1..], e)
  }

  function Front(cache: Cache): Cache {
    if |cache| > CACHE_SIZE then cache[..CACHE_SIZE] else cache
  }

  /** A hit moves its entry to the front; a miss adds one there and may drop the last. */
  function Use(cache: Cache, e: Entry): Cache {
    Front([e] + Without(cache, e))
  }

  /** The entry is in the cache, behind at most n others. */
  ghost predicate Near(cache: Cache, e: Entry, n: nat) {
    exists k: nat :: k < |cache| && k <= n && cache[k] == e
  }

  lemma {:induction false} WithoutKeepsNear(cache: Cache, other: Entry, e: Entry, n: nat)
    requires Near(cache, e, n) && e != other
    ensures Near(Without(cache, other), e, n)
  {
    var k: nat :| k < |cache| && k <= n && cache[k] == e;
    if k > 0 {
      assert cache[1..][k - 1] == e;
      WithoutKeepsNear(cache[1..], other, e, n - 1);
      var rest := Without(cache[1..], other);
      var l: nat :| l < |rest| && l <= n - 1 && rest[l] == e;
      if cache[0] != other { assert ([cache[0]] + rest)[l + 1] == e; }
    } else {
      assert Without(cache, other)[0] == e;
    }
  }

  /** A use of another entry pushes an entry back by at most one place. */
  lemma UseKeepsNear(cache: Cache, other: Entry, e: Entry, n: nat)
    requires Near(cache, e, n) && n + 1 < CACHE_SIZE
    ensures Near(Use(cache, other), e, n + 1)
  {
    if e == other {
      UseIsNear(cache, e);
    } else {
      WithoutKeepsNear(cache, other, e, n);
      var rest := Without(cache, other);
      var k: nat :| k < |rest| && k <= n && rest[k] == e;
      assert ([other] + rest)[k + 1] == e;
      assert Use(cache, other)[k + 1] == e;
    }
  }

  lemma UseIsNear(cache: Cache, e: Entry)
    ensures Near(Use(cache, e), e, 0)
  {
    assert Use(cache, e)[0] == e;
  }

  // ---------- The cache is sound ----------

  /** Its entries are answers the search can give, one for each key, and not too many. */
  ghost predicate CacheOk(cache: Cache) {
    && |cache| <= CACHE_SIZE
    && (forall e :: e in cache ==> Finds(e.policy, e.role, None, e.answer))
    && forall e, f :: e in cache && f in cache && e.policy == f.policy && e.role == f.role ==> e == f
  }

  lemma UseKeepsOk(cache: Cache, p: Policy, role: string, found: Option<Binding>)
    requires CacheOk(cache) && Answers(cache, p, role, found)
    ensures CacheOk(Use(cache, Entry(p, role, found)))
  {
    var e := Entry(p, role, found);
    assert forall x :: x in Use(cache, e) ==> x == e || x in cache;
  }

  /** So a search always has an answer. */
  lemma SomeAnswer(cache: Cache, p: Policy, role: string) returns (found: Option<Binding>)
    requires CacheOk(cache)
    ensures Answers(cache, p, role, found)
  {
    if e :| e in cache && e.policy == p && e.role == role {
      found := e.answer;
    } else if b :| b in p.bindings && Matches(b, role, None) {
      found := Some(b);
    } else {
      found := None;
    }
  }
}
