/** Small functions on numbers, strings and sequences that several modules use. */
module Helpers {
  function Min(a: int, b: int): int { if a <= b then a else b }

  function Max(a: int, b: int): int { if a <= b then b else a }

  predicate IsUpper(c: char) { 'A' <= c <= 'Z' }

  /** ASCII lower case. */
  function LowerChar(c: char): char { if IsUpper(c) then (c as int + 32) as char else c }

  /** Python's `t in s`. */
  predicate Contains(s: string, t: string) {
    t <= s || (s != "" && Contains(s[1..], t))
  }

  /** `t` stands somewhere in `s`, from place i on. */
  ghost predicate StandsAt(s: string, t: string, i: nat) {
    i + |t| <= |s| && s[i..i + |t|] == t
  }

  lemma StandsBehind(s: string, t: string, i: nat)
    requires s != ""
    ensures StandsAt(s[1..], t, i) <==> StandsAt(s, t, i + 1)
  {
    if i + 1 + |t| <= |s| { assert s[1..][i..i + |t|] == s[i + 1..i + 1 + |t|]; }
  }

  lemma {:induction false} WhereItStands(s: string, t: string) returns (i: nat)
    requires Contains(s, t)
    ensures StandsAt(s, t, i)
  {
    if t <= s {
      i := 0;
    } else {
      var j := WhereItStands(s[1..], t);
      StandsBehind(s, t, j);
      i := j + 1;
    }
  }

  lemma {:induction false} ContainsWhatStands(s: string, t: string, i: nat)
    requires StandsAt(s, t, i)
    ensures Contains(s, t)
  {
    if i == 0 {
      assert t == s[..|t|];
    } else if s != "" {
      StandsBehind(s, t, i - 1);
      ContainsWhatStands(s[1..], t, i - 1);
    }
  }

  lemma ContainsIff(s: string, t: string)
    ensures Contains(s, t) <==> exists i :: StandsAt(s, t, i)
  {
    if Contains(s, t) { var i := WhereItStands(s, t); }
    if i: nat :| StandsAt(s, t, i) { ContainsWhatStands(s, t, i); }
  }

  ghost predicate Distinct<T>(xs: seq<T>) {
    forall i, j :: 0 <= i < j < |xs| ==> xs[i] != xs[j]
  }

  /** `xs` lists the set in some order, each element once. */
  ghost predicate Lists<T>(xs: seq<T>, s: set<T>) {
    (forall x :: x in xs ==> x in s) && (forall x :: x in s ==> x in xs) && Distinct(xs)
  }
}
