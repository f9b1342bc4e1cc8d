/**
 * `PunditOverwrite`: the controller side of authorization. `authorize!` and
 * `policy_scope!` record that authorization ran and turn a falsy policy
 * answer into not-authorized; `get_assoc_policy` stores an association's
 * permission; the remaining helpers invert association lists, collect the
 * roles to ask an associated policy with, and project stored permissions.
 */
module PunditOverwrite {
  import opened Types
  import opened RubyArray
  import opened PermissionSets
  import PunditSelectors
  import PunditAssociations

  /**
   * The controller's authorization state. `permissions` is
   * `@pundit_permissions` (Deny while it is nil), `permittedAssociations` is
   * `@permitted_associations` (None while it is nil).
   */
  class Controller {
    var policyAuthorized: bool
    var policyScoped: bool
    var permissions: Verdict<PermissionSet>
    var permittedAssociations: Option<map<Sym, PermissionSet>>

    /** A controller before any authorization: every instance variable is nil. */
    constructor ()
      ensures !policyAuthorized && !policyScoped
      ensures permissions == Deny && permittedAssociations == None
    {
      policyAuthorized := false;
      policyScoped := false;
      permissions := Deny;
      permittedAssociations := None;
    }

    /**
     * `authorize!(resource, query:)`, given what the policy's
     * `resolve_query(query)` answered (or raised). The authorized flag is set
     * first; the answer is stored before it is checked; a falsy answer raises
     * not-authorized, any other is returned unchanged.
     */
    method Authorize(answer: Result<Verdict<PermissionSet>>) returns (r: Result<Verdict<PermissionSet>>)
      modifies this
      ensures policyAuthorized
      ensures answer.Err? ==> r == answer && permissions == old(permissions)
      ensures answer.Ok? ==> permissions == answer.value
      ensures answer.Ok? && answer.value.Deny? ==> r == Err(NotAuthorized)
      ensures answer.Ok? && !answer.value.Deny? ==> r == answer
      ensures policyScoped == old(policyScoped) && permittedAssociations == old(permittedAssociations)
    {
      policyAuthorized := true;
      if answer.Err? {
        return Err(answer.error);
      }
      permissions := answer.value;
      if permissions.Deny? {
        return Err(NotAuthorized);
      }
      return Ok(permissions);
    }

    /**
     * `policy_scope!(resource, query:)`, given what the policy's
     * `resolve_scope(query)` answered (or raised): a falsy scope raises
     * not-authorized, `true` gives the resource itself, any other scope is
     * returned.
     */
    method PolicyScope<T>(resource: T, answer: Result<Verdict<T>>) returns (r: Result<T>)
      modifies this
      ensures policyScoped
      ensures r == Scope(resource, answer)
      ensures policyAuthorized == old(policyAuthorized) && permissions == old(permissions)
      ensures permittedAssociations == old(permittedAssociations)
    {
      policyScoped := true;
      if answer.Err? {
        return Err(answer.error);
      }
      var scope := answer.value;
      if scope.Deny? {
        return Err(NotAuthorized);
      }
      if scope.Allow? {
        return Ok(resource);
      }
      return Ok(scope.value);
    }

    /**
     * `get_assoc_policy(constant, association, roles, query, actions)`, given
     * the associated policy's `resolve_as_association(roles, actions)`: a falsy
     * answer raises not-authorized and stores nothing; `true` stores the empty
     * permission, any other answer is stored as it is, under the association's
     * name. The constant is returned.
     */
    method GetAssocPolicy(constant: ClassName, association: Sym, answer: Verdict<PermissionSet>) returns (r: Result<ClassName>)
      modifies this
      ensures answer.Deny? ==> r == Err(NotAuthorized) && permittedAssociations == old(permittedAssociations)
      ensures !answer.Deny? && old(permittedAssociations).None? ==> r == Err(NoMethodError) && permittedAssociations == None
      ensures !answer.Deny? && old(permittedAssociations).Some? ==>
        r == Ok(constant) && permittedAssociations == Some(old(permittedAssociations).value[association := Stored(answer)])
      ensures policyAuthorized == old(policyAuthorized) && policyScoped == old(policyScoped) && permissions == old(permissions)
    {
      if answer.Deny? {
        return Err(NotAuthorized);
      }
      if permittedAssociations.None? {
        return Err(NoMethodError);
      }
      if answer.Allow? {
        permittedAssociations := Some(permittedAssociations.value[association := EmptyPermissionSet]);
        return Ok(constant);
      }
      permittedAssociations := Some(permittedAssociations.value[association := answer.value]);
      return Ok(constant);
    }

    /** `show_attributes`, `create_associations`, ...: `@pundit_permissions[kind][a]`. */
    function Fields(kind: Kind, a: Action): (r: Result<Option<seq<Sym>>>)
      reads this
      ensures r.Ok? <==> permissions.Granted?
      ensures r.Ok? ==> r.value == Find(KindEntries(permissions.value, kind), a)
    {
      PunditSelectors.PermittedFields(permissions, kind, a)
    }

    /** `associated_<a>_attributes`: every stored association mapped to its `attributes[a]`. */
    function AssociatedAttributes(a: Action): (r: map<Sym, Option<seq<Sym>>>)
      reads this
      ensures permittedAssociations.None? ==> r == map[]
      ensures permittedAssociations.Some? ==> r.Keys == permittedAssociations.value.Keys
      ensures permittedAssociations.Some? ==> forall k :: k in r ==> r[k] == Find(permittedAssociations.value[k].attributes, a)
    {
      PunditSelectors.AssociationFields(permittedAssociations, Attributes, a)
    }
  }

  /** What `policy_scope!` answers for a given `resolve_scope` result. */
  function Scope<T>(resource: T, answer: Result<Verdict<T>>): (r: Result<T>)
    ensures answer.Err? ==> r == Err(answer.error)
    ensures answer == Ok(Deny) ==> r == Err(NotAuthorized)
    ensures answer == Ok(Allow) ==> r == Ok(resource)
    ensures answer.Ok? && answer.value.Granted? ==> r == Ok(answer.value.value)
  {
    match answer
    case Err(e) => Err(e)
    case Ok(Deny) => Err(NotAuthorized)
    case Ok(Allow) => Ok(resource)
    case Ok(Granted(scope)) => Ok(scope)
  }

  /** What `get_assoc_policy` stores for a truthy answer: `true` becomes the empty permission. */
  function Stored(answer: Verdict<PermissionSet>): (r: PermissionSet)
    ensures answer.Granted? ==> r == answer.value
    ensures !answer.Granted? ==> forall kind, a :: Find(KindEntries(r, kind), a).None?
  {
    match answer
    case Granted(p) => p
    case _ => EmptyPermissionSet
  }

  /** After a successful `authorize!`, the selectors answer from the permission it returned. */
  method AuthorizeThenSelect(c: Controller, p: PermissionSet, kind: Kind, a: Action)
    returns (r: Result<Verdict<PermissionSet>>, fields: Result<Option<seq<Sym>>>)
    modifies c
    ensures r == Ok(Granted(p))
    ensures fields == Ok(Find(KindEntries(p, kind), a))
    ensures c.policyAuthorized && c.permissions == Granted(p)
  {
    r := c.Authorize(Ok(Granted(p)));
    fields := c.Fields(kind, a);
  }

  // ---------------------------------------------------------------------------
  // format_association_list, Set version

  function SetOf(pa: map<Sym, set<Action>>, x: Sym): set<Action>
  {
    if x in pa then pa[x] else {}
  }

  /** One entry of the inner loop: `permitted_actions[ass].add(key)` for every `ass` of the list. */
  function AddActionSet(pa: map<Sym, set<Action>>, key: Action, list: seq<Sym>): (r: map<Sym, set<Action>>)
    ensures forall x :: x in r <==> x in pa || x in list
    ensures forall x :: x in r ==> r[x] == SetOf(pa, x) + (if x in list then {key} else {})
    decreases |list|
  {
    if list == [] then pa
    else
      var init := list[..|list| - 1];
      var p := AddActionSet(pa, key, init);
      var x := list[|list| - 1];
      assert forall y :: y in list <==> y in init || y == x;
      p[x := SetOf(p, x) + {key}]
  }

  /** `format_association_list(assoc)` of the controller: association -> the set of actions that grant it. */
  function FormatAssociationSets(h: Entries): (r: map<Sym, set<Action>>)
    ensures forall x :: x in r ==> r[x] != {}
    decreases |h|
  {
    if h == [] then map[] else AddActionSet(FormatAssociationSets(h[..|h| - 1]), h[|h| - 1].0, h[|h| - 1].1)
  }

  lemma {:induction false} AddActionSetAgrees(ps: map<Sym, set<Action>>, pa: map<Sym, seq<Action>>, key: Action, list: seq<Sym>, x: Sym)
    requires x in ps <==> x in pa
    requires forall a :: a in SetOf(ps, x) <==> a in PunditAssociations.ActionsOf(pa, x)
    ensures x in AddActionSet(ps, key, list) <==> x in PunditAssociations.AddAction(pa, key, list)
    ensures forall a :: a in SetOf(AddActionSet(ps, key, list), x) <==> a in PunditAssociations.ActionsOf(PunditAssociations.AddAction(pa, key, list), x)
    decreases |list|
  {
    if list != [] {
      var init := list[..|list| - 1];
      AddActionSetAgrees(ps, pa, key, init, x);
      var s := AddActionSet(ps, key, init);
      var q := PunditAssociations.AddAction(pa, key, init);
      if x == list[|list| - 1] {
        assert SetOf(AddActionSet(ps, key, list), x) == SetOf(s, x) + {key};
        assert PunditAssociations.ActionsOf(PunditAssociations.AddAction(pa, key, list), x) == Union(PunditAssociations.ActionsOf(q, x), [key]);
      } else {
        assert SetOf(AddActionSet(ps, key, list), x) == SetOf(s, x);
        assert PunditAssociations.ActionsOf(PunditAssociations.AddAction(pa, key, list), x) == PunditAssociations.ActionsOf(q, x);
      }
    }
  }

  /**
   * The Set version and the ordered version of the inversion agree: the same
   * associations get an entry, and each entry holds the same actions, so the
   * set is exactly the actions whose list names the association.
   */
  lemma {:induction false} FormatAssociationSetsAgree(h: Entries, x: Sym)
    ensures x in FormatAssociationSets(h) <==> x in PunditAssociations.FormatAssociationList(h)
    ensures forall a :: a in SetOf(FormatAssociationSets(h), x) <==> a in PunditAssociations.ActionsOf(PunditAssociations.FormatAssociationList(h), x)
    decreases |h|
  {
    if h != [] {
      var init := h[..|h| - 1];
      FormatAssociationSetsAgree(init, x);
      AddActionSetAgrees(FormatAssociationSets(init), PunditAssociations.FormatAssociationList(init), h[|h| - 1].0, h[|h| - 1].1, x);
    }
  }

  /** Membership in the set, stated against the declaration itself. */
  lemma FormatAssociationSetsSpec(h: Entries, x: Sym, a: Action)
    ensures a in SetOf(FormatAssociationSets(h), x) <==> exists i :: 0 <= i < |h| && h[i].0 == a && x in h[i].1
  {
    FormatAssociationSetsAgree(h, x);
    PunditAssociations.FormatAssociationListSpec(h, x);
    assert a in PunditAssociations.Granting(h, x) <==> exists i :: 0 <= i < |h| && h[i].0 == a && x in h[i].1;
  }

  /** The nested loops as written: `permitted_actions[ass] = Set.new unless present?; permitted_actions[ass].add(key)`. */
  method FormatAssociationSetsLoop(h: Entries) returns (pa: map<Sym, set<Action>>)
    ensures pa == FormatAssociationSets(h)
  {
    pa := map[];
    for i := 0 to |h|
      invariant pa == FormatAssociationSets(h[..i])
    {
      assert h[..i + 1][..i] == h[..i];
      var (key, associations) := h[i];
      for j := 0 to |associations|
        invariant pa == AddActionSet(FormatAssociationSets(h[..i]), key, associations[..j])
      {
        assert associations[..j + 1][..j] == associations[..j];
        var ass := associations[j];
        if ass !in pa || pa[ass] == {} {
          pa := pa[ass := {}];
        }
        pa := pa[ass := pa[ass] + {key}];
      }
      assert associations[..|associations|] == associations;
    }
    assert h[..|h|] == h;
  }

  // ---------------------------------------------------------------------------
  // build_association_roles

  /** The role lists the current roles declare for `association`, concatenated in role order. */
  function DeclaredRoles(current: seq<RoleName>, roleAssociations: map<RoleName, map<Sym, seq<RoleName>>>, association: Sym): seq<RoleName>
    requires forall role :: role in current ==> role in roleAssociations && association in roleAssociations[role]
    decreases |current|
  {
    if current == [] then []
    else
      var init := current[..|current| - 1];
      var role := current[|current| - 1];
      assert forall r :: r in init ==> r in current;
      DeclaredRoles(init, roleAssociations, association) + roleAssociations[role][association]
  }

  /**
   * `build_association_roles(current_roles, role_associations, association)`:
   * `associated_roles |= role_associations[role][association]` over the
   * current roles. A role with no entry raises NoMethodError (`nil[...]`); a
   * role whose entry lacks the association raises TypeError (`[] | nil`).
   */
  function BuildAssociationRoles(current: seq<RoleName>, roleAssociations: map<RoleName, map<Sym, seq<RoleName>>>, association: Sym): (r: Result<seq<RoleName>>)
    ensures r.Ok? ==> forall x {:trigger x in r.value} :: x in r.value <==>
      exists role :: role in current && role in roleAssociations && association in roleAssociations[role] && x in roleAssociations[role][association]
    ensures r.Err? ==> r.error == NoMethodError || r.error == TypeError
    decreases |current|
  {
    if current == [] then Ok([])
    else
      var acc :- BuildAssociationRoles(current[..|current| - 1], roleAssociations, association);
      var role := current[|current| - 1];
      if role !in roleAssociations then Err(NoMethodError)
      else if association !in roleAssociations[role] then Err(TypeError)
      else
        var r := Union(acc, roleAssociations[role][association]);
        assert forall x :: x in current <==> x in current[..|current| - 1] || x == role;
        Ok(r)
  }

  /**
   * The union over roles is the ordered-unique concatenation of the declared
   * lists, and the call succeeds exactly when every current role declares the
   * association.
   */
  lemma {:induction false} BuildAssociationRolesSpec(current: seq<RoleName>, roleAssociations: map<RoleName, map<Sym, seq<RoleName>>>, association: Sym)
    ensures BuildAssociationRoles(current, roleAssociations, association).Ok? <==>
      forall role :: role in current ==> role in roleAssociations && association in roleAssociations[role]
    ensures BuildAssociationRoles(current, roleAssociations, association).Ok? ==>
      BuildAssociationRoles(current, roleAssociations, association).value == Dedup(DeclaredRoles(current, roleAssociations, association))
    decreases |current|
  {
    if current != [] {
      var init := current[..|current| - 1];
      var role := current[|current| - 1];
      BuildAssociationRolesSpec(init, roleAssociations, association);
      assert forall x :: x in current <==> x in init || x == role;
      var r := BuildAssociationRoles(current, roleAssociations, association);
      if r.Ok? {
        assert forall x :: x in init ==> x in current;
        DedupAppend(DeclaredRoles(init, roleAssociations, association), roleAssociations[role][association]);
      }
    }
  }

  /** The loop as written. */
  method BuildAssociationRolesLoop(current: seq<RoleName>, roleAssociations: map<RoleName, map<Sym, seq<RoleName>>>, association: Sym) returns (r: Result<seq<RoleName>>)
    ensures r == BuildAssociationRoles(current, roleAssociations, association)
  {
    var associatedRoles: seq<RoleName> := [];
    for i := 0 to |current|
      invariant BuildAssociationRoles(current[..i], roleAssociations, association) == Ok(associatedRoles)
    {
      assert current[..i + 1][..i] == current[..i];
      var role := current[i];
      if role !in roleAssociations {
        BuildFailsOnward(current, roleAssociations, association, i + 1);
        return Err(NoMethodError);
      }
      if association !in roleAssociations[role] {
        BuildFailsOnward(current, roleAssociations, association, i + 1);
        return Err(TypeError);
      }
      associatedRoles := Union(associatedRoles, roleAssociations[role][association]);
    }
    assert current[..|current|] == current;
    return Ok(associatedRoles);
  }

  /** Once a prefix fails, the whole call fails with the same error. */
  lemma {:induction false} BuildFailsOnward(current: seq<RoleName>, roleAssociations: map<RoleName, map<Sym, seq<RoleName>>>, association: Sym, i: nat)
    requires i <= |current|
    requires BuildAssociationRoles(current[..i], roleAssociations, association).Err?
    ensures BuildAssociationRoles(current, roleAssociations, association) == BuildAssociationRoles(current[..i], roleAssociations, association)
    decreases |current| - i
  {
    if i < |current| {
      assert current[..i + 1][..i] == current[..i];
      BuildFailsOnward(current, roleAssociations, association, i + 1);
    } else {
      assert current[..i] == current;
    }
  }

  /**
   * The first current role that does not declare the association decides the
   * error: NoMethodError when the role has no entry at all, TypeError when its
   * entry lacks the association.
   */
  lemma BuildFirstFailure(current: seq<RoleName>, roleAssociations: map<RoleName, map<Sym, seq<RoleName>>>, association: Sym, i: nat)
    requires i < |current|
    requires forall role :: role in current[..i] ==> role in roleAssociations && association in roleAssociations[role]
    requires !(current[i] in roleAssociations && association in roleAssociations[current[i]])
    ensures BuildAssociationRoles(current, roleAssociations, association) ==
      if current[i] !in roleAssociations then Err(NoMethodError) else Err(TypeError)
  {
    BuildAssociationRolesSpec(current[..i], roleAssociations, association);
    assert current[..i + 1][..i] == current[..i];
    assert current[..i + 1][i] == current[i];
    BuildFailsOnward(current, roleAssociations, association, i + 1);
  }
}
