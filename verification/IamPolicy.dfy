/** IAM policies and the two edits the framework makes to them.

    A policy is a set of bindings; what it means is the set of (role, condition, member)
    grants it contains.  `find_binding_for_role` picks *any* binding of the role, so every
    statement here holds for whichever binding was picked. */
module IamPolicy {
  import opened Wrappers

  datatype Expr = Expr(expression: string, title: string, description: string, location: string)

  datatype Binding = Binding(role: string, members: set<string>, condition: Option<Expr>)

  datatype Policy = Policy(bindings: set<Binding>, etag: string, version: Option<int>)

  datatype Grant = Grant(role: string, condition: Option<Expr>, member: string)

  datatype Op = Add(role: string, member: string) | Remove(role: string, member: string)

  /** What a policy update decides after reading the policy. */
  datatype Edit = NoChange | Write(policy: Policy)

  function Grants(bindings: set<Binding>): set<Grant> {
    set b, m | b in bindings && m in b.members :: Grant(b.role, b.condition, m)
  }

  /** The single grant an operation is about: unconditional, for its role and member. */
  function Target(op: Op): Grant {
    Grant(op.role, None, op.member)
  }

  predicate Goal(op: Op, bindings: set<Binding>) {
    if op.Add? then Target(op) in Grants(bindings) else Target(op) !in Grants(bindings)
  }

  /** The specification of one edit, on the set of grants. */
  function ApplyOp(grants: set<Grant>, op: Op): set<Grant> {
    if op.Add? then grants + {Target(op)} else grants - {Target(op)}
  }

  predicate Matches(b: Binding, role: string, condition: Option<Expr>) {
    b.role == role && b.condition == condition
  }

  /** `found` is a possible answer of `find_binding_for_role`. */
  predicate Finds(p: Policy, role: string, condition: Option<Expr>, found: Option<Binding>) {
    match found
    case Some(b) => b in p.bindings && Matches(b, role, condition)
    case None => forall b :: b in p.bindings ==> !Matches(b, role, condition)
  }

  function ReplaceBinding(p: Policy, binding: Option<Binding>, newBinding: Binding): Policy {
    var rest := match binding case Some(b) => p.bindings - {b} case None => p.bindings;
    p.(bindings := rest + {newBinding})
  }

  function AddEdit(p: Policy, role: string, member: string, found: Option<Binding>): Edit {
    match found
    case None => Write(ReplaceBinding(p, found, Binding(role, {member}, None)))
    case Some(b) =>
      if member in b.members then NoChange
      else Write(ReplaceBinding(p, found, b.(members := b.members + {member})))
  }

  function RemoveEdit(p: Policy, member: string, found: Option<Binding>): Edit {
    match found
    case None => NoChange
    case Some(b) =>
      if member !in b.members then NoChange
      else Write(ReplaceBinding(p, found, b.(members := b.members - {member})))
  }

  function EditFor(op: Op, p: Policy, found: Option<Binding>): Edit {
    match op
    case Add(role, member) => AddEdit(p, role, member, found)
    case Remove(role, member) => RemoveEdit(p, member, found)
  }

  function After(p: Policy, e: Edit): Policy {
    if e.Write? then e.policy else p
  }

  /** At most one binding for each (role, condition). */
  ghost predicate UniqueBindings(bindings: set<Binding>) {
    forall b, b' :: b in bindings && b' in bindings && b.role == b'.role && b.condition == b'.condition ==> b == b'
  }

  /** At most one unconditional binding for each role. */
  ghost predicate UniqueUnconditional(bindings: set<Binding>) {
    forall b, b' :: b in bindings && b' in bindings && b.role == b'.role && b.condition == None == b'.condition ==> b == b'
  }

  // ---------- An edit, seen on grants ----------

  /** Adding is exact on every policy: one grant appears and nothing else changes, and the
      call is skipped only when the grant is already there. */
  lemma AddChangesOneGrant(p: Policy, role: string, member: string, found: Option<Binding>)
    requires Finds(p, role, None, found)
    ensures var e := AddEdit(p, role, member, found);
            && Grants(After(p, e).bindings) == ApplyOp(Grants(p.bindings), Add(role, member))
            && Goal(Add(role, member), After(p, e).bindings)
            && (e.Write? ==> e.policy.etag == p.etag && e.policy.version == p.version)
  {
  }

  /** Removing never takes away another grant, whatever the policy. */
  lemma RemoveTouchesOnlyItsGrant(p: Policy, role: string, member: string, found: Option<Binding>)
    requires Finds(p, role, None, found)
    ensures var e := RemoveEdit(p, member, found);
            && Grants(p.bindings) - {Grant(role, None, member)} <= Grants(After(p, e).bindings) <= Grants(p.bindings)
            && (e.Write? ==> e.policy.etag == p.etag && e.policy.version == p.version)
  {
  }

  /** For one answer of the search: the member is out afterwards exactly when no other
      unconditional binding of the role holds it. */
  lemma RemoveMeetsGoalIff(p: Policy, role: string, member: string, found: Option<Binding>)
    requires Finds(p, role, None, found)
    ensures Goal(Remove(role, member), After(p, RemoveEdit(p, member, found)).bindings)
            <==> forall b :: b in p.bindings && Matches(b, role, None) && member in b.members ==> found == Some(b)
  {
  }

  /** Whichever binding the search returns, revoking works exactly when the binding that
      holds the member (if there is one) is the role's only unconditional binding. */
  lemma RemoveAlwaysMeetsGoalIff(p: Policy, role: string, member: string)
    ensures (forall found :: Finds(p, role, None, found)
               ==> Goal(Remove(role, member), After(p, RemoveEdit(p, member, found)).bindings))
            <==> (forall b, b' :: (b in p.bindings && b' in p.bindings && Matches(b, role, None)
                                   && Matches(b', role, None) && member in b.members) ==> b == b')
  {
    if b, b' :| b in p.bindings && b' in p.bindings && Matches(b, role, None) && Matches(b', role, None)
                && member in b.members && b != b' {
      assert Finds(p, role, None, Some(b'));
      RemoveMeetsGoalIff(p, role, member, Some(b'));
    } else {
      forall found | Finds(p, role, None, found)
        ensures Goal(Remove(role, member), After(p, RemoveEdit(p, member, found)).bindings)
      {
        RemoveMeetsGoalIff(p, role, member, found);
      }
    }
  }

  /** A policy with two unconditional bindings of one role on which a revocation that
      returns normally leaves the member in place. */
  lemma RemoveCanMissDuplicateBinding()
    ensures var p := Policy({Binding("r", {"m"}, None), Binding("r", {"n"}, None)}, "e", None);
            var found := Some(Binding("r", {"n"}, None));
            && Finds(p, "r", None, found)
            && RemoveEdit(p, "m", found) == NoChange
            && Grant("r", None, "m") in Grants(p.bindings)
  {
  }

  /** With one unconditional binding per role both edits are exactly their specification,
      and a call is skipped exactly when its goal already holds. */
  lemma EditIsExact(op: Op, p: Policy, found: Option<Binding>)
    requires UniqueUnconditional(p.bindings)
    requires Finds(p, op.role, None, found)
    ensures Grants(After(p, EditFor(op, p, found)).bindings) == ApplyOp(Grants(p.bindings), op)
    ensures EditFor(op, p, found).NoChange? <==> Goal(op, p.bindings)
    ensures Goal(op, After(p, EditFor(op, p, found)).bindings)
  {
  }

  /** Conditional bindings and the bindings of other roles are the very same bindings. */
  lemma OtherBindingsUntouched(op: Op, p: Policy, found: Option<Binding>, b: Binding)
    requires Finds(p, op.role, None, found)
    requires !Matches(b, op.role, None)
    ensures b in p.bindings <==> b in After(p, EditFor(op, p, found)).bindings
  {
  }

  lemma UniquenessPreserved(op: Op, p: Policy, found: Option<Binding>)
    requires Finds(p, op.role, None, found)
    ensures UniqueBindings(p.bindings) ==> UniqueBindings(After(p, EditFor(op, p, found)).bindings)
    ensures UniqueUnconditional(p.bindings) ==> UniqueUnconditional(After(p, EditFor(op, p, found)).bindings)
  {
  }
}
