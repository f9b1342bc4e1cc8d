/**
 * The permission Hash the newest `Policy::Base` hands to the controller:
 * `{attributes: {...}, associations: {...}, roles: {for_current_model: [...],
 * for_associated_models: {...}}}`. The controller walks its action Hashes in
 * insertion order, so they are kept as ordered entry lists here.
 */
module PermissionSets {
  import opened Types

  /** An insertion-ordered Ruby Hash from action to field list. */
  type Entries = seq<(Action, seq<Sym>)>

  /** The `:roles` entry: absent (`{}`), or the roles used for this model and per association. */
  datatype RoleInfo = NoRoleInfo | RoleInfo(forCurrentModel: seq<RoleName>, forAssociatedModels: map<Sym, seq<RoleName>>)

  datatype PermissionSet = PermissionSet(attributes: Entries, associations: Entries, roles: RoleInfo)

  /** `{attributes: {}, associations: {}, roles: {}}`. */
  const EmptyPermissionSet := PermissionSet([], [], NoRoleInfo)

  /** `h[a]`: the value stored under `a`, or nil. */
  function Find(h: Entries, a: Action): (r: Option<seq<Sym>>)
    ensures r.None? <==> forall i :: 0 <= i < |h| ==> h[i].0 != a
    ensures r.Some? ==> exists i :: 0 <= i < |h| && h[i] == (a, r.value)
  {
    if h == [] then None
    else if h[0].0 == a then Some(h[0].1)
    else
      var r := Find(h[1..], a);
      assert forall i :: 1 <= i < |h| ==> h[i] == h[1..][i - 1];
      r
  }

  /** The action Hash of one option type. */
  function KindEntries(p: PermissionSet, kind: Kind): Entries
  {
    match kind
    case Attributes => p.attributes
    case Associations => p.associations
  }
}
