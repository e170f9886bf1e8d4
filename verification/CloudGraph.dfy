/** Named resources that refer to each other, and deleting them in a list order.

    A delete of an absent resource changes nothing (a 404), and a delete of a resource that
    a live one still refers to is refused.  The main result says exactly what is left when a
    list of deletes has been gone through once. */
module CloudGraph {

  /** Live resources, each with the resources it refers to. */
  type Graph<!K> = map<K, set<K>>

  predicate Referred<K>(g: Graph<K>, k: K) {
    exists r :: r in g && k in g[r]
  }

  function Delete<K>(g: Graph<K>, k: K): Graph<K> {
    if k in g && !Referred(g, k) then g - {k} else g
  }

  function DeleteAll<K>(g: Graph<K>, ks: seq<K>): Graph<K> {
    if ks == [] then g else DeleteAll(Delete(g, ks[0]), ks[1..])
  }

  /** Referrers come first: no listed resource refers to itself or to an earlier one. */
  ghost predicate ReverseTopological<K>(g: Graph<K>, ks: seq<K>) {
    forall i, j :: 0 <= i <= j < |ks| && ks[j] in g ==> ks[i] !in g[ks[j]]
  }

  ghost predicate Path<K>(g: Graph<K>, p: seq<K>) {
    && p != []
    && (forall i :: 0 <= i < |p| ==> p[i] in g)
    && (forall i :: 0 <= i < |p| - 1 ==> p[i + 1] in g[p[i]])
  }

  ghost predicate PathTo<K>(g: Graph<K>, ks: seq<K>, p: seq<K>, k: K) {
    Path(g, p) && p[0] !in ks && p[|p| - 1] == k
  }

  /** `k` can be reached from a live resource that is not on the list. */
  ghost predicate Held<K(!new)>(g: Graph<K>, ks: seq<K>, k: K) {
    exists p :: PathTo(g, ks, p, k)
  }

  ghost predicate SubGraph<K>(h: Graph<K>, g: Graph<K>) {
    forall k :: k in h ==> k in g && h[k] == g[k]
  }

  lemma PathInSubGraph<K>(g: Graph<K>, k: K, ks: seq<K>, p: seq<K>, x: K)
    requires !Referred(g, k)
    requires PathTo(g, [k] + ks, p, x)
    ensures PathTo(g - {k}, ks, p, x)
  {
    forall i | 0 <= i < |p| ensures p[i] != k {
      if i > 0 { assert p[i - 1 + 1] in g[p[i - 1]]; }
    }
    assert p[0] !in [k] + ks;
    assert forall x :: x in ks ==> x in [k] + ks;
  }

  lemma HeldAfterDelete<K(!new)>(g: Graph<K>, ks: seq<K>, x: K)
    requires ks != [] && ReverseTopological(g, ks)
    ensures Held(g, ks, x) <==> Held(Delete(g, ks[0]), ks[1..], x)
  {
    var k, rest := ks[0], ks[1..];
    assert ks == [k] + rest;
    var h := Delete(g, k);
    if p :| PathTo(g, ks, p, x) {
      if k in g && !Referred(g, k) {
        PathInSubGraph(g, k, rest, p, x);
      }
      assert PathTo(h, rest, p, x);
    }
    if p :| PathTo(h, rest, p, x) {
      if p[0] != k {
        assert PathTo(g, ks, p, x);
      } else {
        var r :| r in g && k in g[r];
        assert r !in ks;
        assert PathTo(g, ks, [r] + p, x);
      }
    }
  }

  /** What is left after the deletes is exactly what an unlisted live resource can reach. */
  lemma {:induction false} DeleteAllExact<K(!new)>(g: Graph<K>, ks: seq<K>)
    requires ReverseTopological(g, ks)
    ensures SubGraph(DeleteAll(g, ks), g)
    ensures forall k :: k in DeleteAll(g, ks) <==> Held(g, ks, k)
  {
    if ks == [] {
      forall k ensures k in g <==> Held(g, ks, k) {
        if k in g { assert PathTo(g, ks, [k], k); }
      }
    } else {
      DeleteAllExact(Delete(g, ks[0]), ks[1..]);
      forall k ensures k in DeleteAll(g, ks) <==> Held(g, ks, k) {
        HeldAfterDelete(g, ks, k);
      }
    }
  }

  /** The same, one edge at a time: a live resource stays exactly when it is not listed or
      something that stays refers to it. */
  lemma StaysIff<K(!new)>(g: Graph<K>, ks: seq<K>, k: K)
    requires ReverseTopological(g, ks)
    ensures k in DeleteAll(g, ks) <==> k in g && (k !in ks || Referred(DeleteAll(g, ks), k))
    ensures SubGraph(DeleteAll(g, ks), g)
  {
    DeleteAllExact(g, ks);
    var h := DeleteAll(g, ks);
    if k in h {
      var p :| PathTo(g, ks, p, k);
      if k in ks {
        var r := p[|p| - 2];
        assert p[|p| - 2 + 1] in g[r];
        assert PathTo(g, ks, p[..|p| - 1], r);
        assert r in h && k in h[r];
      }
    } else if k in g {
      if k !in ks { assert PathTo(g, ks, [k], k); }
      if r :| r in h && k in h[r] {
        var p :| PathTo(g, ks, p, r);
        assert PathTo(g, ks, p + [k], k);
      }
    }
  }

  lemma {:induction false} DeleteAllAppend<K>(g: Graph<K>, a: seq<K>, b: seq<K>)
    ensures DeleteAll(g, a + b) == DeleteAll(DeleteAll(g, a), b)
  {
    if a == [] {
      assert a + b == b;
    } else {
      assert (a + b)[1..] == a[1..] + b;
      DeleteAllAppend(Delete(g, a[0]), a[1..], b);
    }
  }

  /** No unlisted live resource refers to a listed one. */
  ghost predicate Isolated<K>(g: Graph<K>, ks: seq<K>) {
    forall r, k :: r in g && r !in ks && k in ks ==> k !in g[r]
  }

  /** An isolated list goes away entirely and nothing else does. */
  lemma DeleteAllClears<K(!new)>(g: Graph<K>, ks: seq<K>)
    requires ReverseTopological(g, ks) && Isolated(g, ks)
    ensures DeleteAll(g, ks) == map k | k in g && k !in ks :: g[k]
  {
    DeleteAllExact(g, ks);
    forall k | k in g && k !in ks ensures k in DeleteAll(g, ks) {
      StaysIff(g, ks, k);
    }
    forall k | k in ks ensures k !in DeleteAll(g, ks) {
      if p :| PathTo(g, ks, p, k) {
        FirstListedIsReferred(g, ks, p);
      }
    }
  }

  lemma {:induction false} FirstListedIsReferred<K>(g: Graph<K>, ks: seq<K>, p: seq<K>)
    requires Path(g, p) && p[0] !in ks && p[|p| - 1] in ks
    ensures !Isolated(g, ks)
  {
    assert p[0 + 1] in g[p[0]];
    if p[1] !in ks {
      FirstListedIsReferred(g, ks, p[1..]);
    }
  }

  /** In an isolated reverse topological order no delete is ever refused. */
  lemma NoDeleteRefused<K(!new)>(g: Graph<K>, ks: seq<K>, i: nat)
    requires ReverseTopological(g, ks) && Isolated(g, ks) && i < |ks|
    ensures !Referred(DeleteAll(g, ks[..i]), ks[i])
  {
    var a := ks[..i];
    assert ReverseTopological(g, a);
    DeleteAllExact(g, a);
    var h := DeleteAll(g, a);
    if r :| r in h && ks[i] in h[r] {
      assert h[r] == g[r] && ks[i] in g[r] && ks[i] in ks;
      assert r in ks;
      var j :| 0 <= j < |ks| && ks[j] == r;
      assert j < i;
      assert a[j] == r;
      LaterNeverHolds(g, ks, i, r);
    }
  }

  /** A listed resource ahead of position `i` is gone by then. */
  lemma LaterNeverHolds<K(!new)>(g: Graph<K>, ks: seq<K>, i: nat, k: K)
    requires ReverseTopological(g, ks) && Isolated(g, ks) && i <= |ks| && k in ks[..i]
    ensures k !in DeleteAll(g, ks[..i])
  {
    var a := ks[..i];
    assert ReverseTopological(g, a);
    assert forall m :: 0 <= m < i ==> a[m] == ks[m] && a[m] in a;
    forall r, x | r in g && r !in a && x in a ensures x !in g[r] {
      var l :| 0 <= l < |a| && a[l] == x;
      assert a[l] == ks[l] && l < i;
      if r in ks {
        var j :| 0 <= j < |ks| && ks[j] == r;
        assert i <= j;
        assert ks[l] !in g[ks[j]];
      } else {
        assert x in ks && r !in ks;
      }
    }
    DeleteAllClears(g, a);
  }

  /** Going through listed leftovers again changes nothing. */
  lemma {:induction false} SecondPassIsNoop<K(!new)>(g: Graph<K>, ks: seq<K>, again: seq<K>)
    requires ReverseTopological(g, ks)
    requires forall k :: k in again ==> k in ks
    ensures DeleteAll(DeleteAll(g, ks), again) == DeleteAll(g, ks)
  {
    if again != [] {
      StaysIff(g, ks, again[0]);
      SecondPassIsNoop(g, ks, again[1..]);
    }
  }
}
