/**
 * The application-policy generation of `Role`: the same declaration parsing as
 * `Role::Base`, but `remove_restricted` walks the four default keys when it is
 * handed an empty map, so a role declared with nothing (or with nothing that
 * writes) still answers `show`, `create`, `update` and `save` with `[]`.
 * `role` also accepts `:extends`, and refuses an option Hash with none of its
 * keys before asking for `:authorize_with`.
 */
module LegacyRole {
  import opened Types
  import opened RubyArray
  import RoleBase
  import RoleRegistry

  /** `_role_default_keys` of this generation. */
  const LegacyRoleKeys: set<string> := {"authorize_with", "extends", "disable_merge"}

  /**
   * `role(role, opts)`: the sliced options must not be empty and must hold
   * `:authorize_with`, the role must be a Symbol or String, and the classified
   * name must be a valid constant name.
   */
  function Declaration(classify: string -> string, role: RoleRegistry.RoleId, opts: map<string, OptVal>): (r: Result<(ClassName, RoleClass)>)
    ensures r.Err? ==> r.error == ArgumentError
    ensures opts.Keys !! LegacyRoleKeys ==> r == Err(ArgumentError)
  {
    var options := RoleRegistry.Slice(opts, LegacyRoleKeys);
    if options == map[] then Err(ArgumentError)
    else if RoleRegistry.Slice(options, {"authorize_with"}) == map[] then Err(ArgumentError)
    else if role.OtherId? then Err(ArgumentError)
    else
      var name := classify(role.name);
      if !RoleRegistry.ConstantName(name) then Err(ArgumentError)
      else
        var disableMerge := if "disable_merge" in options then options["disable_merge"] else Nil;
        Ok((name, RoleClass(RoleRegistry.Interpolate(options["authorize_with"]) + "?", disableMerge)))
  }

  /**
   * The extra emptiness check changes nothing: every declaration is accepted
   * or refused exactly as the newer `role` does, and registers the same class.
   */
  lemma DeclarationAgrees(classify: string -> string, role: RoleRegistry.RoleId, opts: map<string, OptVal>)
    ensures Declaration(classify, role, opts) == RoleRegistry.Declaration(classify, role, opts)
  {
    var options := RoleRegistry.Slice(opts, LegacyRoleKeys);
    if "authorize_with" in opts {
      assert "authorize_with" in options;
      assert "authorize_with" in RoleRegistry.Slice(options, {"authorize_with"});
    } else {
      assert RoleRegistry.Slice(options, {"authorize_with"}) == map[];
    }
  }

  /** `registry.role(role, opts)` under this generation's validation. */
  method Role(registry: RoleRegistry.Registry, role: RoleRegistry.RoleId, opts: map<string, OptVal>) returns (outcome: Outcome)
    modifies registry
    ensures outcome.Fail? <==> Declaration(registry.classify, role, opts).Err?
    ensures outcome.Fail? ==> outcome.error == ArgumentError && registry.roleClasses == old(registry.roleClasses)
    ensures outcome.Pass? ==> (registry.roleClasses ==
      old(registry.roleClasses)[Declaration(registry.classify, role, opts).value.0 := Declaration(registry.classify, role, opts).value.1])
    ensures registry.permissionsHash == old(registry.permissionsHash)
  {
    var declared := Declaration(registry.classify, role, opts);
    if declared.Err? {
      return Fail(declared.error);
    }
    var (name, cls) := declared.value;
    registry.roleClasses := registry.roleClasses[name := cls];
    return Pass;
  }

  /** `_default_option_keys`: `{show: [], create: [], update: [], save: []}`. */
  const DefaultKeys: FieldMap := map[Show := [], Create := [], Update := [], Save := []]

  /**
   * `remove_restricted(obj, type)`: as in `Role::Base`, except that a blank
   * `obj` is replaced by the four default keys first.
   */
  function RemoveRestricted(r: Restrictions, kind: Kind, obj: FieldMap): (res: Result<FieldMap>)
    ensures obj == map[] ==> res == Ok(DefaultKeys)
    ensures obj != map[] ==> res == RoleBase.RemoveRestricted(r, kind, obj)
  {
    var iterateThrough := if obj == map[] then DefaultKeys else obj;
    var res := RoleBase.RemoveRestricted(r, kind, iterateThrough);
    assert obj == map[] ==> res.value == DefaultKeys;
    res
  }

  /** `handle_default_options(option, type)`: the implied keys, restricted. */
  function HandleDefault(ctx: Context, kind: Kind, option: Sym): (r: Result<FieldMap>)
    ensures !RoleBase.Implicit(option) ==> r == Err(ArgumentError)
    ensures r.Ok? ==> Show in r.value
  {
    var parsed :- RoleBase.DefaultParsed(ctx.schema, kind, option);
    RemoveRestricted(ctx.restrictions, kind, parsed)
  }

  /** An implicit declaration always names `:show`, so the default keys never come in. */
  lemma HandleDefaultAgrees(ctx: Context, kind: Kind, option: Sym)
    ensures HandleDefault(ctx, kind, option) == RoleBase.HandleDefault(ctx, kind, option)
  {
    var parsed := RoleBase.DefaultParsed(ctx.schema, kind, option);
    if parsed.Ok? {
      assert Show in parsed.value;
    }
  }

  /** `init_options(options, type)`: a blank declaration grants nothing, and a Hash is parsed, then restricted. */
  function InitSpec(ctx: Context, kind: Kind, options: Spec): (r: Result<FieldMap>)
    ensures !RoleBase.Present(options) ==> r == Ok(map[])
    ensures RoleBase.Present(options) && options.Malformed? ==> r == Err(ArgumentError)
  {
    if !RoleBase.Present(options) then Ok(map[])
    else
      match options
      case Implicit(option) => HandleDefault(ctx, kind, option)
      case Explicit(entries) =>
        var parsed :- RoleBase.ParseFrom(ctx.schema, kind, entries, map[]);
        RemoveRestricted(ctx.restrictions, kind, parsed)
      case _ => Err(ArgumentError)
  }

  /** `permitted`: without stored options both types get the four default keys. */
  function Permitted(ctx: Context, options: RoleOptions): (r: Result<Grant>)
    ensures options.NoOptions? ==> r == Ok(Grant(DefaultKeys, DefaultKeys))
    ensures options.SymbolOptions? ==>
      (r.Ok? <==> HandleDefault(ctx, Attributes, options.option).Ok? && HandleDefault(ctx, Associations, options.option).Ok?)
    ensures options.SymbolOptions? && r.Ok? ==>
      Ok(r.value.attributes) == HandleDefault(ctx, Attributes, options.option) &&
      Ok(r.value.associations) == HandleDefault(ctx, Associations, options.option)
    ensures options.HashOptions? ==>
      (r.Ok? <==> InitSpec(ctx, Attributes, options.attributes).Ok? && InitSpec(ctx, Associations, options.associations).Ok?)
    ensures options.HashOptions? && r.Ok? ==>
      Ok(r.value.attributes) == InitSpec(ctx, Attributes, options.attributes) &&
      Ok(r.value.associations) == InitSpec(ctx, Associations, options.associations)
  {
    match options
    case NoOptions =>
      var attributes := RemoveRestricted(ctx.restrictions, Attributes, map[]);
      var associations := RemoveRestricted(ctx.restrictions, Associations, map[]);
      Ok(Grant(attributes.value, associations.value))
    case SymbolOptions(option) =>
      var attributes :- HandleDefault(ctx, Attributes, option);
      var associations :- HandleDefault(ctx, Associations, option);
      Ok(Grant(attributes, associations))
    case HashOptions(attrOpts, assocOpts) =>
      var attributes :- InitSpec(ctx, Attributes, attrOpts);
      var associations :- InitSpec(ctx, Associations, assocOpts);
      Ok(Grant(attributes, associations))
  }

  /** Entries whose values are all Symbols other than `:all` write nothing. */
  lemma {:induction false} SymbolsWriteNothing(schema: Schema, kind: Kind, entries: seq<(Action, Value)>)
    requires forall e :: e in entries ==> e.1.SymV? && e.1.name != "all"
    ensures RoleBase.ParseFrom(schema, kind, entries, map[]) == Ok(map[])
    decreases |entries|
  {
    if entries != [] {
      assert entries[0] in entries;
      assert forall e :: e in entries[1..] ==> e in entries;
      SymbolsWriteNothing(schema, kind, entries[1..]);
    }
  }

  /**
   * A present Hash that writes nothing still yields the four default keys,
   * each `[]`; `Role::Base` answers `{}` for the same declaration.
   */
  lemma EmptyParseFills(ctx: Context, kind: Kind, entries: seq<(Action, Value)>)
    requires entries != []
    requires forall e :: e in entries ==> e.1.SymV? && e.1.name != "all"
    ensures InitSpec(ctx, kind, Explicit(entries)) == Ok(DefaultKeys)
    ensures RoleBase.InitSpec(ctx, kind, Explicit(entries)) == Ok(map[])
  {
    SymbolsWriteNothing(ctx.schema, kind, entries);
  }

  /** Whenever a Hash parses to a non-empty map, both generations grant the same. */
  lemma InitAgrees(ctx: Context, kind: Kind, entries: seq<(Action, Value)>)
    requires RoleBase.ParseFrom(ctx.schema, kind, entries, map[]) != Ok(map[])
    ensures InitSpec(ctx, kind, Explicit(entries)) == RoleBase.InitSpec(ctx, kind, Explicit(entries))
  {
  }

  // ---------------------------------------------------------------------------
  // The loops as written

  /** `remove_restricted`: swaps in the default keys for a blank map, then restricts key by key. */
  method RemoveRestrictedLoop(r: Restrictions, kind: Kind, obj: FieldMap) returns (res: Result<FieldMap>)
    ensures res == RemoveRestricted(r, kind, obj)
  {
    var iterateThrough := obj;
    if obj == map[] {
      iterateThrough := DefaultKeys;
    }
    res := RoleBase.RemoveRestrictedLoop(r, kind, iterateThrough);
  }

  /** `init_options`: the shared parse loop, then this generation's `remove_restricted`. */
  method InitOptions(ctx: Context, kind: Kind, options: Spec) returns (r: Result<FieldMap>)
    ensures r == InitSpec(ctx, kind, options)
  {
    if !RoleBase.Present(options) {
      return Ok(map[]);
    }
    if options.Implicit? {
      return HandleDefault(ctx, kind, options.option);
    }
    if !options.Explicit? {
      return Err(ArgumentError);
    }
    var parsed := RoleBase.ParseOptions(ctx.schema, kind, options.entries);
    if parsed.Err? {
      return Err(parsed.error);
    }
    r := RemoveRestrictedLoop(ctx.restrictions, kind, parsed.value);
  }
}
