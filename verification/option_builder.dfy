/**
 * `Role::OptionBuilder`, the newest grant builder: it turns one role's
 * `attributes:` and `associations:` declarations into a map from action to
 * permitted field list. `:save` stands for both `:create` and `:update`, `:all`
 * takes the model's full list minus the RESTRICTED_<ACTION>_<TYPE> constant,
 * and a literal Array is unioned in as written.
 */
module OptionBuilder {
  import opened Types
  import opened RubyArray
  import PolicyDefaults

  /** `get_all(type)`: the model's column or association names; a policy without a model raises ArgumentError. */
  function GetAll(schema: Schema, kind: Kind): (r: Result<seq<Sym>>)
    ensures r.Ok? <==> FullList(schema, kind).Some?
    ensures r.Ok? ==> r.value == FullList(schema, kind).value
    ensures r.Err? ==> r.error == ArgumentError
  {
    match FullList(schema, kind)
    case None => Err(ArgumentError)
    case Some(all) => Ok(all)
  }

  /**
   * `remove_restricted(action, type)`: the full list minus the restricted list,
   * in the full list's order. The full list is fetched first; an action without
   * a RESTRICTED_ constant raises NameError.
   */
  function RemoveRestricted(ctx: Context, action: Action, kind: Kind): (r: Result<seq<Sym>>)
    ensures FullList(ctx.schema, kind).None? ==> r == Err(ArgumentError)
    ensures FullList(ctx.schema, kind).Some? && action.Other? ==> r == Err(NameError)
    ensures r.Ok? <==> FullList(ctx.schema, kind).Some? && !action.Other?
    ensures r.Ok? ==> r.value == Minus(FullList(ctx.schema, kind).value, Restricted(ctx.restrictions, action, kind).value)
  {
    var all :- GetAll(ctx.schema, kind);
    match Restricted(ctx.restrictions, action, kind)
    case None => Err(NameError)
    case Some(restricted) =>
      if restricted != [] then Ok(Minus(all, restricted))
      else MinusNothing(all); Ok(all)
  }

  /** The actions a declared key writes: `:save` writes `:create` and `:update`. */
  function Targets(key: Action): seq<Action>
  {
    if key == Save then [Create, Update] else [key]
  }

  /** Whether an entry's value writes anything: an Array or the symbol `:all`. */
  predicate Writes(value: Value)
  {
    value.ListV? || value == SymV("all")
  }

  /** `parsed_options[action] = remove_restricted(action, type)` for each action in turn. */
  function SetAll(ctx: Context, kind: Kind, m: FieldMap, actions: seq<Action>): (r: Result<FieldMap>)
    ensures r.Ok? <==> forall a :: a in actions ==> RemoveRestricted(ctx, a, kind).Ok?
    ensures r.Ok? ==> r.value.Keys == m.Keys + set a | a in actions
    ensures r.Ok? ==> forall a :: a in actions ==> Ok(r.value[a]) == RemoveRestricted(ctx, a, kind)
    ensures r.Ok? ==> forall a :: a in m && a !in actions ==> r.value[a] == m[a]
    decreases |actions|
  {
    if actions == [] then Ok(m)
    else
      var list :- RemoveRestricted(ctx, actions[0], kind);
      SetAll(ctx, kind, m[actions[0] := list], actions[1..])
  }

  /** `parsed_options[action] |= value` for each action in turn, starting from `[]` when unset. */
  function AddList(m: FieldMap, actions: seq<Action>, items: seq<Sym>): (r: FieldMap)
    ensures r.Keys == m.Keys + set a | a in actions
    ensures forall a :: a in m && a !in actions ==> r[a] == m[a]
    decreases |actions|
  {
    if actions == [] then m
    else
      var a0 := actions[0];
      AddList(m[a0 := Union(Get(m, a0), items)], actions[1..], items)
  }

  /** Every targeted action ends with its earlier list `|` the declared items, even when targeted twice. */
  lemma {:induction false} AddListValues(m: FieldMap, actions: seq<Action>, items: seq<Sym>)
    ensures forall a :: a in actions ==> AddList(m, actions, items)[a] == Union(Get(m, a), items)
    decreases |actions|
  {
    if actions != [] {
      var a0 := actions[0];
      var u := Union(Get(m, a0), items);
      var m' := m[a0 := u];
      AddListValues(m', actions[1..], items);
      DedupNoDup(Get(m, a0) + items);
      UnionAbsorb(u, items);
      forall a | a in actions
        ensures AddList(m, actions, items)[a] == Union(Get(m, a), items)
      {
        if a != a0 {
          assert a in actions[1..];
          assert Get(m', a) == Get(m, a);
        } else if a0 in actions[1..] {
          assert Get(m', a0) == u;
        }
      }
    }
  }

  /** One iteration of `init_options`' loop over the declaration Hash. */
  function Step(ctx: Context, kind: Kind, m: FieldMap, entry: (Action, Value)): (r: Result<FieldMap>)
    ensures entry.1.OtherV? ==> r == Err(ArgumentError)
    ensures entry.1.SymV? && entry.1.name != "all" ==> r == Ok(m)
    ensures entry.1.ListV? ==> r == Ok(AddList(m, Targets(entry.0), entry.1.items))
    ensures entry.1 == SymV("all") ==> r == SetAll(ctx, kind, m, Targets(entry.0))
  {
    match entry.1
    case OtherV => Err(ArgumentError)
    case SymV(s) => if s == "all" then SetAll(ctx, kind, m, Targets(entry.0)) else Ok(m)
    case ListV(items) => Ok(AddList(m, Targets(entry.0), items))
  }

  /** `init_options`' loop, from the map `m` built so far, over the remaining entries. */
  function ParseFrom(ctx: Context, kind: Kind, entries: seq<(Action, Value)>, m: FieldMap): (r: Result<FieldMap>)
    ensures r.Ok? ==> m.Keys <= r.value.Keys
    ensures r.Ok? ==> forall i :: 0 <= i < |entries| ==> !entries[i].1.OtherV?
    decreases |entries|
  {
    if entries == [] then Ok(m)
    else
      var m' :- Step(ctx, kind, m, entries[0]);
      ParseFrom(ctx, kind, entries[1..], m')
  }

  /** `init_options(options, type)`: only a Hash may be parsed. */
  function InitSpec(ctx: Context, kind: Kind, options: Spec): (r: Result<FieldMap>)
    ensures !options.Explicit? ==> r == Err(ArgumentError)
    ensures options == Explicit([]) ==> r == Ok(map[])
  {
    match options
    case Explicit(entries) => ParseFrom(ctx, kind, entries, map[])
    case _ => Err(ArgumentError)
  }

  /** The actions an implicit declaration names, or None when the symbol is not one of the four allowed. */
  function ImplicitActions(option: Sym): (r: Option<seq<Action>>)
    ensures r.Some? <==> option in ["show_all", "save_all", "create_all", "update_all"]
    ensures option == "create_all" ==> r == Some([Show, Create])
    ensures option == "update_all" ==> r == Some([Show, Update])
  {
    assert option == "create_all" ==> option[..|option| - 4] == "create";
    assert option == "update_all" ==> option[..|option| - 4] == "update";
    if option == "show_all" then Some([Show])
    else if option == "save_all" then Some([Show, Create, Update])
    else if option == "create_all" || option == "update_all" then
      Some([Show, ActionNamed(option[..|option| - 4])])
    else None
  }

  /**
   * `handle_default_options(option, type)`: `:show_all` grants `:show`,
   * `:save_all` grants `:show`, `:create` and `:update`, `:create_all` and
   * `:update_all` grant `:show` and the named action; each list is the full
   * list minus that action's restriction.
   */
  function HandleDefault(ctx: Context, kind: Kind, option: Sym): (r: Result<FieldMap>)
    ensures option !in ["show_all", "save_all", "create_all", "update_all"] ==> r == Err(ArgumentError)
    ensures r.Ok? && option == "show_all" ==> r.value.Keys == {Show}
    ensures r.Ok? && option == "save_all" ==> r.value.Keys == {Show, Create, Update}
    ensures r.Ok? && option == "create_all" ==> r.value.Keys == {Show, Create}
    ensures r.Ok? && option == "update_all" ==> r.value.Keys == {Show, Update}
    ensures r.Ok? ==> forall a :: a in r.value ==> Ok(r.value[a]) == RemoveRestricted(ctx, a, kind)
    ensures option in ["show_all", "save_all", "create_all", "update_all"] ==>
      (r.Ok? <==> FullList(ctx.schema, kind).Some?)
  {
    match ImplicitActions(option)
    case None => Err(ArgumentError)
    case Some(actions) => SetAll(ctx, kind, map[], actions)
  }

  /**
   * `permitted_options(opts, type)`: nil or false grants nothing, a Symbol is an
   * implicit declaration, anything else must be a Hash.
   */
  function PermittedOptions(ctx: Context, kind: Kind, opts: Spec): (r: Result<FieldMap>)
    ensures opts.Absent? ==> r == Ok(map[])
    ensures opts.Malformed? ==> r == Err(ArgumentError)
    ensures opts.Implicit? ==> r == HandleDefault(ctx, kind, opts.option)
    ensures opts.Explicit? ==> r == ParseFrom(ctx, kind, opts.entries, map[])
  {
    match opts
    case Absent => Ok(map[])
    case Implicit(option) => HandleDefault(ctx, kind, option)
    case _ => InitSpec(ctx, kind, opts)
  }

  /** `permitted`: the attributes grant and the associations grant, each built from its own declaration. */
  function Permitted(ctx: Context, attrOpts: Spec, assocOpts: Spec): (r: Result<Grant>)
    ensures r.Ok? <==> PermittedOptions(ctx, Attributes, attrOpts).Ok? && PermittedOptions(ctx, Associations, assocOpts).Ok?
    ensures r.Ok? ==> Ok(r.value.attributes) == PermittedOptions(ctx, Attributes, attrOpts)
    ensures r.Ok? ==> Ok(r.value.associations) == PermittedOptions(ctx, Associations, assocOpts)
  {
    var attributes :- PermittedOptions(ctx, Attributes, attrOpts);
    var associations :- PermittedOptions(ctx, Associations, assocOpts);
    Ok(Grant(attributes, associations))
  }

  // ---------------------------------------------------------------------------
  // The loops as written

  /** `actions.each { |action| parsed_options[action] = remove_restricted(action, type) }`. */
  method OverwriteAll(ctx: Context, kind: Kind, m: FieldMap, actions: seq<Action>) returns (r: Result<FieldMap>)
    ensures r == SetAll(ctx, kind, m, actions)
  {
    var parsed := m;
    var j := 0;
    while j < |actions|
      invariant 0 <= j <= |actions|
      invariant SetAll(ctx, kind, parsed, actions[j..]) == SetAll(ctx, kind, m, actions)
    {
      assert actions[j..][1..] == actions[j + 1..];
      var list := RemoveRestricted(ctx, actions[j], kind);
      if list.Err? {
        return Err(list.error);
      }
      parsed := parsed[actions[j] := list.value];
      j := j + 1;
    }
    return Ok(parsed);
  }

  /** `actions.each { |action| parsed_options[action] |= value }`, starting from `[]` when unset. */
  method UnionInto(m: FieldMap, actions: seq<Action>, items: seq<Sym>) returns (r: FieldMap)
    ensures r == AddList(m, actions, items)
  {
    r := m;
    var j := 0;
    while j < |actions|
      invariant 0 <= j <= |actions|
      invariant AddList(r, actions[j..], items) == AddList(m, actions, items)
    {
      assert actions[j..][1..] == actions[j + 1..];
      r := r[actions[j] := Union(Get(r, actions[j]), items)];
      j := j + 1;
    }
  }

  /** `init_options`: walks the declaration Hash, overwriting on `:all` and unioning Arrays in. */
  method InitOptions(ctx: Context, kind: Kind, options: Spec) returns (r: Result<FieldMap>)
    ensures r == InitSpec(ctx, kind, options)
  {
    if !options.Explicit? {
      return Err(ArgumentError);
    }
    var entries := options.entries;
    var parsed: FieldMap := map[];
    var i := 0;
    while i < |entries|
      invariant 0 <= i <= |entries|
      invariant ParseFrom(ctx, kind, entries, map[]) == ParseFrom(ctx, kind, entries[i..], parsed)
    {
      assert entries[i..][1..] == entries[i + 1..];
      var (key, value) := entries[i];
      match value {
        case OtherV =>
          return Err(ArgumentError);
        case SymV(s) =>
          if s == "all" {
            var next := OverwriteAll(ctx, kind, parsed, Targets(key));
            if next.Err? {
              return next;
            }
            parsed := next.value;
          }
        case ListV(items) =>
          parsed := UnionInto(parsed, Targets(key), items);
      }
      i := i + 1;
    }
    return Ok(parsed);
  }

  /** `handle_default_options`: checks the symbol, then fills each implied action in turn. */
  method HandleDefaultOptions(ctx: Context, kind: Kind, option: Sym) returns (r: Result<FieldMap>)
    ensures r == HandleDefault(ctx, kind, option)
  {
    if option !in ["show_all", "save_all", "create_all", "update_all"] {
      return Err(ArgumentError);
    }
    var actions: seq<Action>;
    if option == "show_all" {
      actions := [Show];
    } else if option == "save_all" {
      actions := [Show, Create, Update];
    } else {
      actions := [Show, ActionNamed(option[..|option| - 4])];
    }
    r := OverwriteAll(ctx, kind, map[], actions);
  }

  // ---------------------------------------------------------------------------
  // Properties of a declaration

  /** The action keys a sequence of entries writes: every target of an Array or `:all` entry. */
  function WrittenKeys(entries: seq<(Action, Value)>): (w: set<Action>)
    ensures Save !in w
    ensures forall e :: e in entries && Writes(e.1) ==> (set a | a in Targets(e.0)) <= w
    decreases |entries|
  {
    if entries == [] then {}
    else
      (if Writes(entries[0].1) then set a | a in Targets(entries[0].0) else {}) + WrittenKeys(entries[1..])
  }

  /** Processing one more entry is one more `Step` on what the earlier entries built. */
  lemma {:induction false} ParseSnoc(ctx: Context, kind: Kind, entries: seq<(Action, Value)>, m: FieldMap, e: (Action, Value))
    ensures ParseFrom(ctx, kind, entries + [e], m) ==
      match ParseFrom(ctx, kind, entries, m)
      case Err(error) => Err(error)
      case Ok(built) => Step(ctx, kind, built, e)
    decreases |entries|
  {
    if entries == [] {
      assert entries + [e] == [e];
      assert [e][1..] == [];
    } else {
      assert (entries + [e])[1..] == entries[1..] + [e];
      match Step(ctx, kind, m, entries[0])
      case Err(_) =>
      case Ok(m') => ParseSnoc(ctx, kind, entries[1..], m', e);
    }
  }

  /**
   * A successful parse has exactly the keys written by its Array and `:all`
   * entries; in particular `:save` never survives as a key of its own.
   */
  lemma {:induction false} ParseKeys(ctx: Context, kind: Kind, entries: seq<(Action, Value)>, m: FieldMap)
    ensures ParseFrom(ctx, kind, entries, m).Ok? ==>
      ParseFrom(ctx, kind, entries, m).value.Keys == m.Keys + WrittenKeys(entries)
    decreases |entries|
  {
    if entries != [] {
      match Step(ctx, kind, m, entries[0])
      case Err(_) =>
      case Ok(m') => ParseKeys(ctx, kind, entries[1..], m');
    }
  }

  /** A declaration whose Hash holds a value that is neither Symbol nor Array is rejected. */
  lemma {:induction false} ParseRejectsOther(ctx: Context, kind: Kind, entries: seq<(Action, Value)>, m: FieldMap, i: nat)
    requires i < |entries| && entries[i].1.OtherV?
    ensures ParseFrom(ctx, kind, entries, m).Err?
    decreases i
  {
    if i > 0 {
      match Step(ctx, kind, m, entries[0])
      case Err(_) =>
      case Ok(m') => ParseRejectsOther(ctx, kind, entries[1..], m', i - 1);
    }
  }

  /**
   * `key: [..]` unions the items into each target's earlier list, so the list
   * stays free of duplicates, keeps every item, and no restriction filters it;
   * no other key changes. A `:save` key touches `:create` and `:update`, never `:show`.
   */
  lemma LiteralUnion(ctx: Context, kind: Kind, entries: seq<(Action, Value)>, key: Action, items: seq<Sym>)
    requires ParseFrom(ctx, kind, entries, map[]).Ok?
    ensures ParseFrom(ctx, kind, entries + [(key, ListV(items))], map[]).Ok?
    ensures var before := ParseFrom(ctx, kind, entries, map[]).value;
      var after := ParseFrom(ctx, kind, entries + [(key, ListV(items))], map[]).value;
      && (forall a :: a in Targets(key) ==>
            a in after && after[a] == Union(Get(before, a), items) && NoDup(after[a])
            && forall x :: x in items ==> x in after[a])
      && (forall a :: a in before && a !in Targets(key) ==> a in after && after[a] == before[a])
      && (key == Save ==> after.Keys == before.Keys + {Create, Update})
  {
    ParseSnoc(ctx, kind, entries, map[], (key, ListV(items)));
    var before := ParseFrom(ctx, kind, entries, map[]).value;
    AddListValues(before, Targets(key), items);
    forall a | a in Targets(key)
      ensures NoDup(Union(Get(before, a), items))
    {
      DedupNoDup(Get(before, a) + items);
    }
  }

  /**
   * `key: :all` sets each target to the full list minus that action's
   * restriction, whatever the earlier value was; no other key changes. It
   * fails without a model, or with a key that has no restriction constant.
   */
  lemma AllOverwrites(ctx: Context, kind: Kind, entries: seq<(Action, Value)>, key: Action)
    requires ParseFrom(ctx, kind, entries, map[]).Ok?
    ensures var r := ParseFrom(ctx, kind, entries + [(key, SymV("all"))], map[]);
      && (r.Ok? <==> FullList(ctx.schema, kind).Some? && !key.Other?)
      && (FullList(ctx.schema, kind).None? ==> r == Err(ArgumentError))
      && (r.Ok? ==> forall a :: a in Targets(key) ==>
            a in r.value && r.value[a] == Minus(FullList(ctx.schema, kind).value, Restricted(ctx.restrictions, a, kind).value))
      && (r.Ok? ==> forall a :: a in ParseFrom(ctx, kind, entries, map[]).value && a !in Targets(key) ==>
            a in r.value && r.value[a] == ParseFrom(ctx, kind, entries, map[]).value[a])
  {
    ParseSnoc(ctx, kind, entries, map[], (key, SymV("all")));
    assert key != Save ==> key in Targets(key);
    assert key == Save ==> Create in Targets(key);
  }

  /** A Symbol value other than `:all` adds no entry and changes nothing. */
  lemma SymbolIgnored(ctx: Context, kind: Kind, entries: seq<(Action, Value)>, key: Action, s: Sym)
    requires s != "all"
    ensures ParseFrom(ctx, kind, entries + [(key, SymV(s))], map[]) == ParseFrom(ctx, kind, entries, map[])
  {
    ParseSnoc(ctx, kind, entries, map[], (key, SymV(s)));
  }

  /** A policy's default restrictions, over a model whose columns are `attributes`, `names` and `id`. */
  function Example(): Context
  {
    Context(Schema(Some(["attributes", "names", "id"]), Some(["association"])), PolicyDefaults.DefaultRestrictions)
  }

  /** `:create_all` keeps every column for `:show` but drops `id` for `:create`. */
  lemma CreateAllExample()
    ensures HandleDefault(Example(), Attributes, "create_all") ==
      Ok(map[Show := ["attributes", "names", "id"], Create := ["attributes", "names"]])
  {
    var all := ["attributes", "names", "id"];
    MinusNothing(all);
    assert Minus(all, PolicyDefaults.Timestamps) == ["attributes", "names"] by {
      assert all == ["attributes", "names"] + ["id"];
      MinusAppend(["attributes", "names"], ["id"], PolicyDefaults.Timestamps);
    }
  }
}
