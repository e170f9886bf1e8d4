/** Conversions between policies and the JSON dictionaries of the IAM API. */
module IamWire {
  import opened Helpers
  import opened Wrappers
  import opened IamPolicy

  type ExprDict = map<string, string>

  /** `None` is a key that is absent from the dictionary. */
  datatype BindingDict = BindingDict(role: Option<string>, members: Option<seq<string>>, condition: Option<ExprDict>)

  datatype PolicyDict = PolicyDict(bindings: Option<seq<BindingDict>>, etag: Option<string>, version: Option<int>)

  datatype WireError = KeyError(key: string) | TypeError

  const EXPR_FIELDS := {"expression", "title", "description", "location"}

  function GetOr(d: ExprDict, key: string, default: string): string {
    if key in d then d[key] else default
  }

  /** Keyword-argument construction: an unknown key or a missing `expression` is a TypeError. */
  function ExprFromResponse(d: ExprDict): Result<Expr, WireError> {
    if d.Keys <= EXPR_FIELDS && "expression" in d
    then Ok(Expr(d["expression"], GetOr(d, "title", ""), GetOr(d, "description", ""), GetOr(d, "location", "")))
    else Err(TypeError)
  }

  function ExprAsDict(e: Expr): ExprDict {
    map["expression" := e.expression, "title" := e.title, "description" := e.description, "location" := e.location]
  }

  function Elements<T>(xs: seq<T>): set<T> {
    set x | x in xs
  }

  function BindingFromResponse(d: BindingDict): Result<Binding, WireError> {
    if d.role.None? then Err(KeyError("role")) else
    var members := if d.members.Some? then Elements(d.members.value) else {};
    match d.condition
    case None => Ok(Binding(d.role.value, members, None))
    case Some(c) =>
      match ExprFromResponse(c)
      case Err(e) => Err(e)
      case Ok(expr) => Ok(Binding(d.role.value, members, Some(expr)))
  }

  function BindingsFromResponse(ds: seq<BindingDict>): Result<set<Binding>, WireError> {
    if ds == [] then Ok({}) else
    match BindingFromResponse(ds[0])
    case Err(e) => Err(e)
    case Ok(b) =>
      match BindingsFromResponse(ds[1..])
      case Err(e) => Err(e)
      case Ok(bs) => Ok({b} + bs)
  }

  function PolicyFromResponse(d: PolicyDict): Result<Policy, WireError> {
    match BindingsFromResponse(if d.bindings.Some? then d.bindings.value else [])
    case Err(e) => Err(e)
    case Ok(bs) => if d.etag.None? then Err(KeyError("etag")) else Ok(Policy(bs, d.etag.value, d.version))
  }

  ghost predicate BindingAsDict(b: Binding, d: BindingDict) {
    && d.role == Some(b.role)
    && d.members.Some? && Lists(d.members.value, b.members)
    && d.condition == match b.condition case None => None case Some(e) => Some(ExprAsDict(e))
  }

  ghost predicate BindingsAsDicts(order: seq<Binding>, ds: seq<BindingDict>) {
    |order| == |ds| && forall i :: 0 <= i < |ds| ==> BindingAsDict(order[i], ds[i])
  }

  /** `d` is one of the dictionaries `as_dict` can produce for `p`. */
  ghost predicate PolicyAsDict(p: Policy, d: PolicyDict) {
    && d.etag == Some(p.etag) && d.version == p.version && d.bindings.Some?
    && exists order :: Lists(order, p.bindings) && BindingsAsDicts(order, d.bindings.value)
  }

  lemma ListedElements<T>(xs: seq<T>, s: set<T>)
    requires Lists(xs, s)
    ensures Elements(xs) == s
  {
  }

  lemma ExprRoundTrip(e: Expr)
    ensures ExprFromResponse(ExprAsDict(e)) == Ok(e)
  {
  }

  lemma BindingRoundTrip(b: Binding, d: BindingDict)
    requires BindingAsDict(b, d)
    ensures BindingFromResponse(d) == Ok(b)
  {
    ListedElements(d.members.value, b.members);
  }

  lemma {:induction false} BindingsRoundTrip(order: seq<Binding>, ds: seq<BindingDict>)
    requires BindingsAsDicts(order, ds)
    ensures BindingsFromResponse(ds) == Ok(Elements(order))
  {
    if ds != [] {
      BindingRoundTrip(order[0], ds[0]);
      BindingsRoundTrip(order[1..], ds[1..]);
      assert Elements(order) == {order[0]} + Elements(order[1..]);
    } else {
      assert Elements(order) == {};
    }
  }

  /** Every dictionary a policy can be written as reads back as that policy. */
  lemma PolicyRoundTrip(p: Policy, d: PolicyDict)
    requires PolicyAsDict(p, d)
    ensures PolicyFromResponse(d) == Ok(p)
  {
    var order :| Lists(order, p.bindings) && BindingsAsDicts(order, d.bindings.value);
    BindingsRoundTrip(order, d.bindings.value);
    ListedElements(order, p.bindings);
  }

  lemma {:induction false} SomeListing<T>(s: set<T>) returns (xs: seq<T>)
    ensures Lists(xs, s)
  {
    if s == {} {
      xs := [];
    } else {
      var x :| x in s;
      var rest := SomeListing(s - {x});
      xs := [x] + rest;
      assert forall y :: y in rest ==> y in Elements(rest);
      assert Elements(xs) == {x} + Elements(rest);
    }
  }

  lemma {:induction false} SomeDicts(order: seq<Binding>) returns (ds: seq<BindingDict>)
    ensures BindingsAsDicts(order, ds)
  {
    if order == [] {
      ds := [];
    } else {
      var b := order[0];
      var members := SomeListing(b.members);
      var d := BindingDict(Some(b.role), Some(members),
                           match b.condition case None => None case Some(e) => Some(ExprAsDict(e)));
      var rest := SomeDicts(order[1..]);
      ds := [d] + rest;
    }
  }

  /** `as_dict` is defined on every policy, so the round trip is never vacuous. */
  lemma EveryPolicyHasADict(p: Policy) returns (d: PolicyDict)
    ensures PolicyAsDict(p, d) && PolicyFromResponse(d) == Ok(p)
  {
    var order := SomeListing(p.bindings);
    var ds := SomeDicts(order);
    d := PolicyDict(Some(ds), Some(p.etag), p.version);
    PolicyRoundTrip(p, d);
  }

  predicate BindingReadable(d: BindingDict) {
    d.role.Some?
    && (d.condition.Some? ==>
          d.condition.value.Keys <= {"expression", "title", "description", "location"} && "expression" in d.condition.value)
  }

  lemma {:induction false} BindingsReadableIff(ds: seq<BindingDict>)
    ensures BindingsFromResponse(ds).Ok? <==> forall d :: d in ds ==> BindingReadable(d)
  {
    if ds != [] {
      BindingsReadableIff(ds[1..]);
      assert ds == [ds[0]] + ds[1..];
      assert BindingFromResponse(ds[0]).Ok? <==> BindingReadable(ds[0]);
    }
  }

  /** The first unreadable binding is the one that is complained about. */
  lemma {:induction false} FirstUnreadable(ds: seq<BindingDict>, i: nat)
    requires i < |ds| && !BindingReadable(ds[i]) && forall j :: 0 <= j < i ==> BindingReadable(ds[j])
    ensures BindingsFromResponse(ds) == Err(if ds[i].role.None? then KeyError("role") else TypeError)
  {
    if i > 0 {
      assert ds[1..][i - 1] == ds[i] && forall j :: 0 <= j < i - 1 ==> ds[1..][j] == ds[j + 1];
      FirstUnreadable(ds[1..], i - 1);
      assert BindingReadable(ds[0]);
    }
  }

  /** Which error it is: the bindings come first, then the etag. */
  lemma ErrorsAre(d: PolicyDict, i: nat)
    requires d.bindings.Some? ==> i <= |d.bindings.value| && forall j :: 0 <= j < i ==> BindingReadable(d.bindings.value[j])
    ensures d.bindings.Some? && i < |d.bindings.value| && !BindingReadable(d.bindings.value[i]) ==>
              PolicyFromResponse(d) == Err(if d.bindings.value[i].role.None? then KeyError("role") else TypeError)
    ensures (d.bindings.Some? ==> i == |d.bindings.value|) && d.etag.None? ==> PolicyFromResponse(d) == Err(KeyError("etag"))
  {
    if d.bindings.Some? {
      var ds := d.bindings.value;
      if i < |ds| && !BindingReadable(ds[i]) { FirstUnreadable(ds, i); }
      if i == |ds| { BindingsReadableIff(ds); }
    }
  }

  /** A response is read, rather than raising, exactly when it has an etag and every
      binding has a role and, if any, a condition with known keys and an expression. */
  lemma PolicyReadableIff(d: PolicyDict)
    ensures PolicyFromResponse(d).Ok?
            <==> d.etag.Some? && (d.bindings.Some? ==> forall b :: b in d.bindings.value ==> BindingReadable(b))
  {
    BindingsReadableIff(if d.bindings.Some? then d.bindings.value else []);
  }

  // ---------- What a dictionary says, key by key ----------

  /** A key that is absent stands for the empty string. */
  predicate Says(d: ExprDict, key: string, text: string) {
    if key in d then d[key] == text else text == ""
  }

  /** `d` is an expression as the API may send it: an expression, and whichever of the other
      three keys, those left out being empty. */
  ghost predicate ExprSent(e: Expr, d: ExprDict) {
    && (forall key :: key in d ==> key in {"expression", "title", "description", "location"})
    && "expression" in d && d["expression"] == e.expression
    && Says(d, "title", e.title) && Says(d, "description", e.description) && Says(d, "location", e.location)
  }

  /** Members in any order, with repetitions, or absent if there are none. */
  ghost predicate BindingSent(b: Binding, d: BindingDict) {
    && d.role == Some(b.role)
    && (match d.members
        case None => b.members == {}
        case Some(ms) => forall m :: m in ms <==> m in b.members)
    && (match d.condition
        case None => b.condition == None
        case Some(c) => b.condition.Some? && ExprSent(b.condition.value, c))
  }

  ghost predicate BindingsSent(bindings: set<Binding>, ds: seq<BindingDict>) {
    && (forall b :: b in bindings ==> exists d :: d in ds && BindingSent(b, d))
    && (forall d :: d in ds ==> exists b :: b in bindings && BindingSent(b, d))
  }

  ghost predicate PolicySent(p: Policy, d: PolicyDict) {
    && d.etag == Some(p.etag) && d.version == p.version
    && (match d.bindings case None => p.bindings == {} case Some(ds) => BindingsSent(p.bindings, ds))
  }

  lemma ExprReadIff(e: Expr, d: ExprDict)
    ensures ExprFromResponse(d) == Ok(e) <==> ExprSent(e, d)
  {
    assert d.Keys <= EXPR_FIELDS <==> forall key :: key in d ==> key in {"expression", "title", "description", "location"};
  }

  lemma BindingReadIff(b: Binding, d: BindingDict)
    ensures BindingFromResponse(d) == Ok(b) <==> BindingSent(b, d)
  {
    if d.members.Some? {
      assert b.members == Elements(d.members.value) <==> forall m :: m in d.members.value <==> m in b.members;
    }
    if d.condition.Some? && b.condition.Some? { ExprReadIff(b.condition.value, d.condition.value); }
    if d.condition.Some? && ExprFromResponse(d.condition.value).Ok? {
      ExprReadIff(ExprFromResponse(d.condition.value).value, d.condition.value);
    }
  }

  lemma BindingsReadIff(bindings: set<Binding>, ds: seq<BindingDict>)
    ensures BindingsFromResponse(ds) == Ok(bindings) <==> BindingsSent(bindings, ds)
  {
    AllRead(ds);
    forall b, d ensures BindingFromResponse(d) == Ok(b) <==> BindingSent(b, d) { BindingReadIff(b, d); }
    if BindingsSent(bindings, ds) {
      forall d | d in ds ensures BindingFromResponse(d).Ok? && BindingFromResponse(d).value in bindings {
        var b :| b in bindings && BindingSent(b, d);
      }
      var read := BindingsFromResponse(ds).value;
      forall b | b in bindings ensures b in read {
        var d :| d in ds && BindingSent(b, d);
        assert BindingFromResponse(d) == Ok(b);
      }
      assert read == bindings;
    }
    if BindingsFromResponse(ds) == Ok(bindings) {
      forall d | d in ds ensures exists b :: b in bindings && BindingSent(b, d) {
        assert BindingSent(BindingFromResponse(d).value, d);
      }
    }
  }

  lemma {:induction false} AllRead(ds: seq<BindingDict>)
    ensures BindingsFromResponse(ds).Ok? <==> forall d :: d in ds ==> BindingFromResponse(d).Ok?
    ensures BindingsFromResponse(ds).Ok? ==>
              BindingsFromResponse(ds).value == set d | d in ds :: BindingFromResponse(d).value
  {
    if ds != [] {
      AllRead(ds[1..]);
      assert ds == [ds[0]] + ds[1..];
    }
  }

  /** A response is read as a policy exactly when it is that policy as the API may send it:
      etag and version, every binding, in any order and number, and nothing else. */
  lemma PolicyReadIff(p: Policy, d: PolicyDict)
    ensures PolicyFromResponse(d) == Ok(p) <==> PolicySent(p, d)
  {
    var ds := if d.bindings.Some? then d.bindings.value else [];
    BindingsReadIff(p.bindings, ds);
    if BindingsFromResponse(ds).Ok? { BindingsReadIff(BindingsFromResponse(ds).value, ds); }
  }

  /** What is written has all four keys. */
  lemma ExprWritten(e: Expr)
    ensures ExprSent(e, ExprAsDict(e)) && ExprAsDict(e).Keys == {"expression", "title", "description", "location"}
  {
  }
}
