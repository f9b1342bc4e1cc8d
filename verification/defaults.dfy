/**
 * The method form of the policy defaults (the `Defaults` mixin and the
 * matching methods of `Policy::Base`): the fallback authorization predicate,
 * the guest predicate, and the `restricted_<action>_<type>` methods.
 */
module Defaults {
  import opened Types
  import PolicyDefaults

  /** `default_authorization?`: the predicate of a role declared without its own. */
  function DefaultAuthorization(): (allowed: bool)
    ensures !allowed
  {
    false
  }

  /** `user_guest?`: the predicate of the built-in guest role. */
  function UserGuest<U>(user: Option<U>): (guest: bool)
    ensures guest <==> user == None
  {
    user.None?
  }

  /** The eight `restricted_<action>_<type>` methods. */
  const RestrictedMethods: Restrictions :=
    Restrictions(
      showAttributes := [], saveAttributes := ["id", "created_at", "updated_at"],
      createAttributes := ["id", "created_at", "updated_at"],
      updateAttributes := ["id", "created_at", "updated_at"],
      showAssociations := [], saveAssociations := [],
      createAssociations := [], updateAssociations := [])

  /** The method form answers exactly what the constant form declares. */
  lemma MethodsMatchConstants(action: Action, kind: Kind)
    ensures Restricted(RestrictedMethods, action, kind) == Restricted(PolicyDefaults.DefaultRestrictions, action, kind)
  {
  }
}
