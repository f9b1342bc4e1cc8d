/**
 * The class-level half of the `Role` mixin: `role` validates a declaration and
 * registers a role class under the classified role name, and the
 * `permitted_*_for` writers store a role's raw declaration in the policy's
 * `permissions_hash`, which is created on first write.
 */
module RoleRegistry {
  import opened Types

  /** The first argument of `role`: a Symbol, a String, or some other object. */
  datatype RoleId = SymbolId(name: string) | StringId(name: string) | OtherId

  /** `"#{value}"`: how a role option reads once interpolated into a string. */
  function Interpolate(v: OptVal): string
  {
    match v
    case Text(s) => s
    case Flag(b) => if b then "true" else "false"
    case Nil => ""
  }

  predicate WordChar(c: char)
  {
    ('a' <= c <= 'z') || ('A' <= c <= 'Z') || ('0' <= c <= '9') || c == '_'
  }

  /** Whether `const_set` accepts a name: an upper-case letter followed by word characters. */
  predicate ConstantName(n: string)
  {
    |n| > 0 && 'A' <= n[0] <= 'Z' && forall i :: 1 <= i < |n| ==> WordChar(n[i])
  }

  /** `opts.slice(*keys)`: the entries whose key is listed. */
  function Slice<V>(opts: map<string, V>, keys: set<string>): (r: map<string, V>)
    ensures r.Keys == opts.Keys * keys
    ensures forall k :: k in r ==> r[k] == opts[k]
  {
    map k | k in opts && k in keys :: opts[k]
  }

  /** `_role_default_keys`. */
  const RoleKeys: set<string> := {"authorize_with", "disable_merge"}

  /**
   * What `role(role, opts)` registers, or why it refuses: the options must
   * name `:authorize_with`, the role must be a Symbol or String, and its
   * classified name must be a valid constant name. The role class answers to
   * the predicate `<authorize_with>?` and remembers `:disable_merge`.
   */
  function Declaration(classify: string -> string, role: RoleId, opts: map<string, OptVal>): (r: Result<(ClassName, RoleClass)>)
    ensures r.Err? ==> r.error == ArgumentError
    ensures r.Ok? <==> "authorize_with" in opts && !role.OtherId? && ConstantName(classify(role.name))
    ensures r.Ok? ==> r.value.0 == classify(role.name)
    ensures r.Ok? ==> r.value.1.authorizeWith == Interpolate(opts["authorize_with"]) + "?"
    ensures r.Ok? ==> r.value.1.disableMerge == if "disable_merge" in opts then opts["disable_merge"] else Nil
  {
    var options := Slice(opts, RoleKeys);
    if "authorize_with" !in Slice(options, {"authorize_with"}) then Err(ArgumentError)
    else if role.OtherId? then Err(ArgumentError)
    else
      var name := classify(role.name);
      if !ConstantName(name) then Err(ArgumentError)
      else
        var disableMerge := if "disable_merge" in options then options["disable_merge"] else Nil;
        Ok((name, RoleClass(Interpolate(options["authorize_with"]) + "?", disableMerge)))
  }

  /** Options other than `:authorize_with` and `:disable_merge` have no effect on a declaration. */
  lemma OnlyRoleKeysRetained(classify: string -> string, role: RoleId, opts: map<string, OptVal>, extra: map<string, OptVal>)
    requires extra.Keys !! RoleKeys
    ensures Declaration(classify, role, opts + extra) == Declaration(classify, role, Slice(opts, RoleKeys))
  {
    assert Slice(opts + extra, RoleKeys) == Slice(Slice(opts, RoleKeys), RoleKeys);
  }

  /** `role :guest, authorize_with: :user_guest`, as every policy inherits it. */
  lemma GuestDeclaration(classify: string -> string)
    requires classify("guest") == "Guest"
    ensures Declaration(classify, SymbolId("guest"), map["authorize_with" := Text("user_guest")]) ==
      Ok(("Guest", RoleClass("user_guest?", Nil)))
  {
    var opts := map["authorize_with" := Text("user_guest")];
    assert Slice(opts, RoleKeys) == opts;
    assert Slice(opts, {"authorize_with"}) == opts;
    assert ConstantName("Guest") by {
      assert forall i :: 1 <= i < 5 ==> "Guest"[i] in "uest";
    }
    assert "user_guest" + "?" == "user_guest?";
  }

  /** What `permitted_for` stores: only the `:attributes` and `:associations` values. */
  function ForEntry(opts: map<string, Spec>): (o: RoleOptions)
    ensures o.HashOptions?
    ensures o.attributes == (if "attributes" in opts then opts["attributes"] else Absent)
    ensures o.associations == (if "associations" in opts then opts["associations"] else Absent)
  {
    var options := Slice(opts, {"attributes", "associations"});
    HashOptions(
      if "attributes" in options then options["attributes"] else Absent,
      if "associations" in options then options["associations"] else Absent)
  }

  /** `slice(:show, :create, :update, :save)` of a declaration Hash, in that order. */
  function SliceActions(decl: map<Action, Value>): (entries: seq<(Action, Value)>)
    ensures forall e :: e in entries ==> !e.0.Other? && e.0 in decl && decl[e.0] == e.1
    ensures forall a :: a in decl && !a.Other? ==> (a, decl[a]) in entries
    ensures forall i, j :: 0 <= i < j < |entries| ==> entries[i].0 != entries[j].0
  {
    (if Show in decl then [(Show, decl[Show])] else [])
    + (if Create in decl then [(Create, decl[Create])] else [])
    + (if Update in decl then [(Update, decl[Update])] else [])
    + (if Save in decl then [(Save, decl[Save])] else [])
  }

  /** `@permissions_hash`, read as empty while it is still nil. */
  function Table(h: Option<map<RoleName, RoleOptions>>): map<RoleName, RoleOptions>
  {
    if h.None? then map[] else h.value
  }

  /**
   * The per-policy registry: the role classes set as constants on the policy,
   * and the raw declarations kept per role name.
   */
  class Registry {
    var permissionsHash: Option<map<RoleName, RoleOptions>>
    var roleClasses: map<ClassName, RoleClass>
    /** ActiveSupport's `String#classify`, a parameter of the model. */
    const classify: string -> string

    /** A policy class that has declared nothing yet: `@permissions_hash` is nil. */
    constructor (classify: string -> string)
      ensures this.classify == classify
      ensures permissionsHash == None && roleClasses == map[]
    {
      this.classify := classify;
      permissionsHash := None;
      roleClasses := map[];
    }

    /** `role(role, opts)`: validates, then sets (or replaces) the role class constant. */
    method Role(role: RoleId, opts: map<string, OptVal>) returns (outcome: Outcome)
      modifies this
      ensures outcome.Fail? <==> Declaration(classify, role, opts).Err?
      ensures outcome.Fail? ==> outcome.error == ArgumentError && roleClasses == old(roleClasses)
      ensures outcome.Pass? ==>
        roleClasses == old(roleClasses)[Declaration(classify, role, opts).value.0 := Declaration(classify, role, opts).value.1]
      ensures permissionsHash == old(permissionsHash)
    {
      var declared := Declaration(classify, role, opts);
      if declared.Err? {
        return Fail(declared.error);
      }
      var (name, cls) := declared.value;
      roleClasses := roleClasses[name := cls];
      return Pass;
    }

    /** `permitted_for(role, opts)`: replaces the role's entry with the sliced options. */
    method PermittedFor(role: RoleName, opts: map<string, Spec>)
      modifies this
      ensures permissionsHash == Some(Table(old(permissionsHash))[role := ForEntry(opts)])
      ensures roleClasses == old(roleClasses)
    {
      if permissionsHash.None? {
        permissionsHash := Some(map[]);
      }
      permissionsHash := Some(permissionsHash.value[role := ForEntry(opts)]);
    }

    /** `permitted_attr_for(role, attr)`: replaces the whole entry; earlier associations are lost. */
    method PermittedAttrFor(role: RoleName, attr: map<Action, Value>)
      modifies this
      ensures permissionsHash == Some(Table(old(permissionsHash))[role := HashOptions(Explicit(SliceActions(attr)), Absent)])
      ensures roleClasses == old(roleClasses)
    {
      if permissionsHash.None? {
        permissionsHash := Some(map[]);
      }
      permissionsHash := Some(permissionsHash.value[role := HashOptions(Explicit(SliceActions(attr)), Absent)]);
    }

    /** `permitted_assoc_for(role, assoc)`: replaces the whole entry; earlier attributes are lost. */
    method PermittedAssocFor(role: RoleName, assoc: map<Action, Value>)
      modifies this
      ensures permissionsHash == Some(Table(old(permissionsHash))[role := HashOptions(Absent, Explicit(SliceActions(assoc)))])
      ensures roleClasses == old(roleClasses)
    {
      if permissionsHash.None? {
        permissionsHash := Some(map[]);
      }
      permissionsHash := Some(permissionsHash.value[role := HashOptions(Absent, Explicit(SliceActions(assoc)))]);
    }
  }

  /**
   * Two writers for one role: the later write replaces the whole entry, so
   * declaring attributes and then associations keeps only the associations.
   * Every other role's entry is left as it was.
   */
  method AttrThenAssoc(registry: Registry, role: RoleName, attr: map<Action, Value>, assoc: map<Action, Value>)
    modifies registry
    ensures registry.permissionsHash.Some?
    ensures role in registry.permissionsHash.value
    ensures registry.permissionsHash.value[role] == HashOptions(Absent, Explicit(SliceActions(assoc)))
    ensures forall other :: other != role ==>
      (other in registry.permissionsHash.value <==> other in Table(old(registry.permissionsHash))) &&
      (other in registry.permissionsHash.value ==> registry.permissionsHash.value[other] == Table(old(registry.permissionsHash))[other])
  {
    registry.PermittedAttrFor(role, attr);
    registry.PermittedAssocFor(role, assoc);
  }
}
