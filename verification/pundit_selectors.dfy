/**
 * `PunditSelectors`: read-only projections of what authorization stored on
 * the controller. The `permitted_*` selectors index the primary permission
 * Hash; the `association_*` selectors project every stored association
 * permission onto one action of one option type.
 */
module PunditSelectors {
  import opened Types
  import opened PermissionSets

  /**
   * `permitted_<a>_attributes` / `permitted_<a>_associations`:
   * `@pundit_permissions[kind][a]`, nil when the action has no entry. Before a
   * permission Hash is stored (nil or false), or when the stored answer is
   * `true`, the index raises NoMethodError.
   */
  function PermittedFields(stored: Verdict<PermissionSet>, kind: Kind, a: Action): (r: Result<Option<seq<Sym>>>)
    ensures r.Ok? <==> stored.Granted?
    ensures r.Err? ==> r.error == NoMethodError
    ensures r.Ok? ==> (r.value.None? <==> forall i :: 0 <= i < |KindEntries(stored.value, kind)| ==> KindEntries(stored.value, kind)[i].0 != a)
    ensures r.Ok? && r.value.Some? ==> (a, r.value.value) in KindEntries(stored.value, kind)
  {
    match stored
    case Granted(p) => Ok(Find(KindEntries(p, kind), a))
    case _ => Err(NoMethodError)
  }

  /**
   * `association_<a>_<kind>`: `{}` when no association table is stored;
   * otherwise every stored association mapped to its own `[kind][a]`, nil
   * when that action has no entry.
   */
  function AssociationFields(table: Option<map<Sym, PermissionSet>>, kind: Kind, a: Action): (r: map<Sym, Option<seq<Sym>>>)
    ensures table.None? ==> r == map[]
    ensures table.Some? ==> r.Keys == table.value.Keys
    ensures table.Some? ==> forall k :: k in r ==>
      (r[k].None? <==> forall i :: 0 <= i < |KindEntries(table.value[k], kind)| ==> KindEntries(table.value[k], kind)[i].0 != a)
  {
    if table.None? then map[]
    else map k | k in table.value :: Find(KindEntries(table.value[k], kind), a)
  }

  /** Each association's projection is what `permitted_<a>_<kind>` answers once that association's permission is the primary one. */
  lemma AssociationFieldsAgree(table: map<Sym, PermissionSet>, kind: Kind, a: Action, k: Sym)
    requires k in table
    ensures k in AssociationFields(Some(table), kind, a)
    ensures PermittedFields(Granted(table[k]), kind, a) == Ok(AssociationFields(Some(table), kind, a)[k])
  {
  }

  /** The `association_*` selectors as written: `associated_stuff[role] = ...` for every stored entry. */
  method AssociationFieldsLoop(table: Option<map<Sym, PermissionSet>>, kind: Kind, a: Action) returns (stuff: map<Sym, Option<seq<Sym>>>)
    ensures stuff == AssociationFields(table, kind, a)
  {
    if table.None? {
      return map[];
    }
    var permissions := table.value;
    stuff := map[];
    var todo := permissions.Keys;
    while todo != {}
      invariant todo <= permissions.Keys
      invariant stuff.Keys == permissions.Keys - todo
      invariant forall k :: k in stuff ==> stuff[k] == Find(KindEntries(permissions[k], kind), a)
      decreases todo
    {
      var role :| role in todo;
      stuff := stuff[role := Find(KindEntries(permissions[role], kind), a)];
      todo := todo - {role};
    }
  }
}
