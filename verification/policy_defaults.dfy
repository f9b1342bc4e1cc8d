/**
 * The constant defaults every policy inherits: the five operation queries deny,
 * no associated roles are preset, and the restricted-field lists keep the
 * primary key and the timestamps out of every write.
 */
module PolicyDefaults {
  import opened Types

  /** The five Pundit operation queries a policy answers by default. */
  datatype Operation = Index | ShowQuery | CreateQuery | UpdateQuery | Destroy

  /** `index?`, `show?`, `create?`, `update?` and `destroy?`: each answers `false`. */
  function OperationDefault(op: Operation): (allowed: bool)
    ensures !allowed
  {
    false
  }

  /** DEFAULT_ASSOCIATED_ROLES */
  const DefaultAssociatedRoles: seq<RoleName> := []

  /** The primary key and the two timestamps. */
  const Timestamps: seq<Sym> := ["id", "created_at", "updated_at"]

  /** The eight RESTRICTED_<ACTION>_<TYPE> constants. */
  const DefaultRestrictions: Restrictions :=
    Restrictions(
      showAttributes := [], saveAttributes := Timestamps,
      createAttributes := Timestamps, updateAttributes := Timestamps,
      showAssociations := [], saveAssociations := [],
      createAssociations := [], updateAssociations := [])

  /**
   * A subclass redefining one RESTRICTED_<ACTION>_<TYPE> constant: that list is
   * replaced, every other list is inherited, and the parent's value is untouched.
   */
  function Redefine(parent: Restrictions, action: Action, kind: Kind, list: seq<Sym>): (child: Restrictions)
    requires !action.Other?
    ensures Restricted(child, action, kind) == Some(list)
    ensures forall a, k :: (a, k) != (action, kind) ==> Restricted(child, a, k) == Restricted(parent, a, k)
  {
    match (action, kind)
    case (Show, Attributes) => parent.(showAttributes := list)
    case (Save, Attributes) => parent.(saveAttributes := list)
    case (Create, Attributes) => parent.(createAttributes := list)
    case (Update, Attributes) => parent.(updateAttributes := list)
    case (Show, Associations) => parent.(showAssociations := list)
    case (Save, Associations) => parent.(saveAssociations := list)
    case (Create, Associations) => parent.(createAssociations := list)
    case (Update, Associations) => parent.(updateAssociations := list)
  }

  /**
   * The default lists: nothing is hidden from `show` or from any association
   * action, and the three write actions hide exactly the timestamps.
   */
  lemma DefaultRestrictionLists(action: Action, kind: Kind)
    requires !action.Other?
    ensures kind == Associations ==> Restricted(DefaultRestrictions, action, kind) == Some([])
    ensures action == Show ==> Restricted(DefaultRestrictions, action, kind) == Some([])
    ensures kind == Attributes && action != Show ==> Restricted(DefaultRestrictions, action, kind) == Some(Timestamps)
  {
  }
}
