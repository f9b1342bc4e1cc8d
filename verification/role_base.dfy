/**
 * `Role::Base`, the grant builder of the generation that sits between the
 * legacy application policy and `OptionBuilder`: a declaration is parsed key by
 * key (`:all`, `[:all_minus, ...]`, a literal Array), and every parsed key is
 * then cut down by the policy's `restricted_<key>_<type>` method. `:save` stays
 * a key of its own here.
 */
module RoleBase {
  import opened Types
  import opened RubyArray

  /** `get_all_<type>`: the model's columns or associations; NoMethodError without a record or scope. */
  function GetAll(schema: Schema, kind: Kind): (r: Result<seq<Sym>>)
    ensures r.Ok? <==> FullList(schema, kind).Some?
    ensures r.Ok? ==> r.value == FullList(schema, kind).value
    ensures r.Err? ==> r.error == NoMethodError
  {
    match FullList(schema, kind)
    case None => Err(NoMethodError)
    case Some(all) => Ok(all)
  }

  /** ActiveSupport's `present?` on a per-type declaration: nil, false and empty values are blank. */
  predicate Present(options: Spec)
  {
    match options
    case Absent => false
    case Implicit(option) => option != ""
    case Explicit(entries) => entries != []
    case Malformed(blank) => !blank
  }

  /** Whether an Array value is an `[:all_minus, ...]` exclusion list. */
  predicate AllMinus(items: seq<Sym>)
  {
    items != [] && items[0] == "all_minus"
  }

  /**
   * One iteration of `init_options`' loop: `:all` stores the full list,
   * `[:all_minus, x...]` the full list without `x...`, any other Array itself;
   * another Symbol leaves the map alone and any other value is rejected.
   */
  function Step(schema: Schema, kind: Kind, m: FieldMap, entry: (Action, Value)): (r: Result<FieldMap>)
    ensures entry.1.OtherV? ==> r == Err(ArgumentError)
    ensures entry.1.SymV? && entry.1.name != "all" ==> r == Ok(m)
    ensures entry.1.ListV? && !AllMinus(entry.1.items) ==> r == Ok(m[entry.0 := entry.1.items])
    ensures (entry.1 == SymV("all") || (entry.1.ListV? && AllMinus(entry.1.items))) ==>
      (r.Ok? <==> FullList(schema, kind).Some?) && (r.Err? ==> r.error == NoMethodError)
    ensures r.Ok? && entry.1 == SymV("all") ==> r.value == m[entry.0 := FullList(schema, kind).value]
    ensures r.Ok? && entry.1.ListV? && AllMinus(entry.1.items) ==>
      r.value.Keys == m.Keys + {entry.0} &&
      forall x :: x in r.value[entry.0] <==> x in FullList(schema, kind).value && (x == "all_minus" || x !in entry.1.items)
  {
    match entry.1
    case OtherV => Err(ArgumentError)
    case SymV(s) =>
      if s == "all" then
        var all :- GetAll(schema, kind);
        Ok(m[entry.0 := all])
      else Ok(m)
    case ListV(items) =>
      if AllMinus(items) then
        var all :- GetAll(schema, kind);
        Ok(m[entry.0 := Minus(all, Minus(items, [items[0]]))])
      else Ok(m[entry.0 := items])
  }

  /** `init_options`' loop, from the map `m` built so far, over the remaining entries. */
  function ParseFrom(schema: Schema, kind: Kind, entries: seq<(Action, Value)>, m: FieldMap): (r: Result<FieldMap>)
    ensures r.Ok? ==> m.Keys <= r.value.Keys
    ensures r.Ok? ==> forall i :: 0 <= i < |entries| ==> !entries[i].1.OtherV?
    decreases |entries|
  {
    if entries == [] then Ok(m)
    else
      var m' :- Step(schema, kind, m, entries[0]);
      ParseFrom(schema, kind, entries[1..], m')
  }

  /**
   * `remove_restricted(obj, type)`: every key is kept and its list loses the
   * elements of that key's restricted list; a key without a `restricted_*`
   * method raises NoMethodError.
   */
  function RemoveRestricted(r: Restrictions, kind: Kind, m: FieldMap): (res: Result<FieldMap>)
    ensures res.Ok? <==> forall a :: a in m ==> !a.Other?
    ensures res.Err? ==> res.error == NoMethodError
    ensures res.Ok? ==> res.value.Keys == m.Keys
    ensures res.Ok? ==> forall a :: a in m ==> res.value[a] == Minus(m[a], Restricted(r, a, kind).value)
    ensures res.Ok? ==> forall a, x :: a in m ==>
      (x in res.value[a] <==> x in m[a] && x !in Restricted(r, a, kind).value)
    ensures res.Ok? ==> forall a :: a in m && Restricted(r, a, kind) == Some([]) ==> res.value[a] == m[a]
  {
    if exists a :: a in m && a.Other? then Err(NoMethodError)
    else
      forall a | a in m && Restricted(r, a, kind) == Some([]) ensures Minus(m[a], []) == m[a] {
        MinusNothing(m[a]);
      }
      Ok(map a | a in m :: Minus(m[a], Restricted(r, a, kind).value))
  }

  /** The allowed implicit options. */
  predicate Implicit(option: Sym)
  {
    option in ["show_all", "save_all", "create_all", "update_all"]
  }

  /**
   * `handle_default_options` before restriction: `:show_all` gives `:show`,
   * any other allowed option `:show` plus its name without `_all`, each with
   * the full list.
   */
  function DefaultParsed(schema: Schema, kind: Kind, option: Sym): (r: Result<FieldMap>)
    ensures !Implicit(option) ==> r == Err(ArgumentError)
    ensures Implicit(option) ==> (r.Ok? <==> FullList(schema, kind).Some?)
    ensures r.Err? && Implicit(option) ==> r.error == NoMethodError
    ensures r.Ok? && option == "show_all" ==> r.value.Keys == {Show}
    ensures r.Ok? && option == "save_all" ==> r.value.Keys == {Show, Save}
    ensures r.Ok? && option == "create_all" ==> r.value.Keys == {Show, Create}
    ensures r.Ok? && option == "update_all" ==> r.value.Keys == {Show, Update}
    ensures r.Ok? ==> forall a :: a in r.value ==> r.value[a] == FullList(schema, kind).value
  {
    if !Implicit(option) then Err(ArgumentError)
    else
      var all :- GetAll(schema, kind);
      if option == "show_all" then Ok(map[Show := all])
      else
        assert option == "save_all" ==> option[..|option| - 4] == "save";
        assert option == "create_all" ==> option[..|option| - 4] == "create";
        assert option == "update_all" ==> option[..|option| - 4] == "update";
        Ok(map[Show := all, ActionNamed(option[..|option| - 4]) := all])
  }

  /** `handle_default_options(option, type)`: the implied keys, each with the full list minus its restriction. */
  function HandleDefault(ctx: Context, kind: Kind, option: Sym): (r: Result<FieldMap>)
    ensures !Implicit(option) ==> r == Err(ArgumentError)
    ensures Implicit(option) ==> (r.Ok? <==> FullList(ctx.schema, kind).Some?)
    ensures r.Ok? && option == "save_all" ==> r.value.Keys == {Show, Save}
    ensures r.Ok? ==> forall a :: a in r.value ==>
      (!a.Other? && r.value[a] == Minus(FullList(ctx.schema, kind).value, Restricted(ctx.restrictions, a, kind).value))
  {
    var parsed :- DefaultParsed(ctx.schema, kind, option);
    RemoveRestricted(ctx.restrictions, kind, parsed)
  }

  /**
   * `init_options(options, type)`: a blank declaration grants nothing, a Symbol
   * is implicit, anything else must be a Hash, parsed and then restricted.
   */
  function InitSpec(ctx: Context, kind: Kind, options: Spec): (r: Result<FieldMap>)
    ensures !Present(options) ==> r == Ok(map[])
    ensures Present(options) && options.Implicit? ==> r == HandleDefault(ctx, kind, options.option)
    ensures Present(options) && options.Malformed? ==> r == Err(ArgumentError)
  {
    if !Present(options) then Ok(map[])
    else
      match options
      case Implicit(option) => HandleDefault(ctx, kind, option)
      case Explicit(entries) =>
        var parsed :- ParseFrom(ctx.schema, kind, entries, map[]);
        RemoveRestricted(ctx.restrictions, kind, parsed)
      case _ => Err(ArgumentError)
  }

  /**
   * `permitted`: no stored options grant nothing, a Symbol is expanded for
   * both types, and a Hash is built per type from its `:attributes` and
   * `:associations` values.
   */
  function Permitted(ctx: Context, options: RoleOptions): (r: Result<Grant>)
    ensures options.NoOptions? ==> r == Ok(Grant(map[], map[]))
    ensures options.SymbolOptions? ==>
      (r.Ok? <==> HandleDefault(ctx, Attributes, options.option).Ok? && HandleDefault(ctx, Associations, options.option).Ok?)
    ensures options.SymbolOptions? && r.Ok? ==>
      Ok(r.value.attributes) == HandleDefault(ctx, Attributes, options.option) &&
      Ok(r.value.associations) == HandleDefault(ctx, Associations, options.option)
    ensures options.HashOptions? ==>
      (r.Ok? <==> InitSpec(ctx, Attributes, options.attributes).Ok? && InitSpec(ctx, Associations, options.associations).Ok?)
    ensures options.HashOptions? && r.Ok? ==>
      Ok(r.value.attributes) == InitSpec(ctx, Attributes, options.attributes) &&
      Ok(r.value.associations) == InitSpec(ctx, Associations, options.associations)
  {
    match options
    case NoOptions => Ok(Grant(map[], map[]))
    case SymbolOptions(option) =>
      var attributes :- HandleDefault(ctx, Attributes, option);
      var associations :- HandleDefault(ctx, Associations, option);
      Ok(Grant(attributes, associations))
    case HashOptions(attrOpts, assocOpts) =>
      var attributes :- InitSpec(ctx, Attributes, attrOpts);
      var associations :- InitSpec(ctx, Associations, assocOpts);
      Ok(Grant(attributes, associations))
  }

  // ---------------------------------------------------------------------------
  // The loops as written

  /** `remove_restricted`: fills `permitted_obj_values` one key at a time. */
  method RemoveRestrictedLoop(r: Restrictions, kind: Kind, obj: FieldMap) returns (res: Result<FieldMap>)
    ensures res == RemoveRestricted(r, kind, obj)
  {
    var permitted: FieldMap := map[];
    var todo := obj.Keys;
    while todo != {}
      invariant todo <= obj.Keys
      invariant forall a :: a in obj.Keys - todo ==> !a.Other?
      invariant permitted == map a | a in obj.Keys - todo :: Minus(obj[a], Restricted(r, a, kind).value)
      decreases todo
    {
      var key :| key in todo;
      var restricted := Restricted(r, key, kind);
      if restricted.None? {
        return Err(NoMethodError);
      }
      permitted := permitted[key := Minus(obj[key], restricted.value)];
      todo := todo - {key};
    }
    assert obj.Keys - todo == obj.Keys;
    var expected := RemoveRestricted(r, kind, obj);
    assert permitted == expected.value;
    return Ok(permitted);
  }

  /** `init_options`' loop over the declaration Hash, before any restriction. */
  method ParseOptions(schema: Schema, kind: Kind, entries: seq<(Action, Value)>) returns (r: Result<FieldMap>)
    ensures r == ParseFrom(schema, kind, entries, map[])
  {
    var parsed: FieldMap := map[];
    var i := 0;
    while i < |entries|
      invariant 0 <= i <= |entries|
      invariant ParseFrom(schema, kind, entries, map[]) == ParseFrom(schema, kind, entries[i..], parsed)
    {
      assert entries[i..][1..] == entries[i + 1..];
      var (key, value) := entries[i];
      match value {
        case OtherV =>
          return Err(ArgumentError);
        case SymV(s) =>
          if s == "all" {
            var all := GetAll(schema, kind);
            if all.Err? {
              return Err(all.error);
            }
            parsed := parsed[key := all.value];
          }
        case ListV(items) =>
          if AllMinus(items) {
            var all := GetAll(schema, kind);
            if all.Err? {
              return Err(all.error);
            }
            parsed := parsed[key := Minus(all.value, Minus(items, [items[0]]))];
          } else {
            parsed := parsed[key := items];
          }
      }
      i := i + 1;
    }
    return Ok(parsed);
  }

  /** `init_options`: parses the Hash key by key, then restricts every parsed key. */
  method InitOptions(ctx: Context, kind: Kind, options: Spec) returns (r: Result<FieldMap>)
    ensures r == InitSpec(ctx, kind, options)
  {
    if !Present(options) {
      return Ok(map[]);
    }
    if options.Implicit? {
      return HandleDefault(ctx, kind, options.option);
    }
    if !options.Explicit? {
      return Err(ArgumentError);
    }
    var parsed := ParseOptions(ctx.schema, kind, options.entries);
    if parsed.Err? {
      return Err(parsed.error);
    }
    r := RemoveRestrictedLoop(ctx.restrictions, kind, parsed.value);
  }

  // ---------------------------------------------------------------------------
  // Properties of a declaration

  /** Processing one more entry is one more `Step` on what the earlier entries built. */
  lemma {:induction false} ParseSnoc(schema: Schema, kind: Kind, entries: seq<(Action, Value)>, m: FieldMap, e: (Action, Value))
    ensures ParseFrom(schema, kind, entries + [e], m) ==
      match ParseFrom(schema, kind, entries, m)
      case Err(error) => Err(error)
      case Ok(built) => Step(schema, kind, built, e)
    decreases |entries|
  {
    if entries == [] {
      assert entries + [e] == [e];
      assert [e][1..] == [];
    } else {
      assert (entries + [e])[1..] == entries[1..] + [e];
      match Step(schema, kind, m, entries[0])
      case Err(_) =>
      case Ok(m') => ParseSnoc(schema, kind, entries[1..], m', e);
    }
  }

  /**
   * The last word on a key wins: a later Array or `:all` entry replaces what
   * earlier entries stored for that key, and a restriction is then applied to
   * it whatever its origin, a literal Array included.
   */
  lemma LiteralRestricted(ctx: Context, kind: Kind, entries: seq<(Action, Value)>, key: Action, items: seq<Sym>)
    requires !AllMinus(items) && !key.Other?
    requires ParseFrom(ctx.schema, kind, entries, map[]).Ok?
    requires InitSpec(ctx, kind, Explicit(entries + [(key, ListV(items))])).Ok?
    ensures var r := InitSpec(ctx, kind, Explicit(entries + [(key, ListV(items))])).value;
      key in r && forall x :: x in r[key] <==> x in items && x !in Restricted(ctx.restrictions, key, kind).value
  {
    ParseSnoc(ctx.schema, kind, entries, map[], (key, ListV(items)));
  }

  /**
   * `[:all_minus, x...]` grants the full list without `x...` and without the
   * key's restricted list: both subtractions apply.
   */
  lemma AllMinusRestricted(ctx: Context, kind: Kind, entries: seq<(Action, Value)>, key: Action, excluded: seq<Sym>)
    requires ParseFrom(ctx.schema, kind, entries, map[]).Ok?
    requires InitSpec(ctx, kind, Explicit(entries + [(key, ListV(["all_minus"] + excluded))])).Ok?
    ensures FullList(ctx.schema, kind).Some?
    ensures var r := InitSpec(ctx, kind, Explicit(entries + [(key, ListV(["all_minus"] + excluded))])).value;
      key in r && forall x :: x in r[key] <==>
        x in FullList(ctx.schema, kind).value && (x == "all_minus" || x !in excluded) && x !in Restricted(ctx.restrictions, key, kind).value
  {
    var items := ["all_minus"] + excluded;
    assert AllMinus(items);
    ParseSnoc(ctx.schema, kind, entries, map[], (key, ListV(items)));
    forall x ensures x in items && x != "all_minus" <==> x in excluded && x != "all_minus" {
      assert x in items <==> x == "all_minus" || x in excluded;
    }
  }

  /** A Hash holding a value that is neither Symbol nor Array is rejected. */
  lemma {:induction false} ParseRejectsOther(schema: Schema, kind: Kind, entries: seq<(Action, Value)>, m: FieldMap, i: nat)
    requires i < |entries| && entries[i].1.OtherV?
    ensures ParseFrom(schema, kind, entries, m).Err?
    decreases i
  {
    if i > 0 {
      match Step(schema, kind, m, entries[0])
      case Err(_) =>
      case Ok(m') => ParseRejectsOther(schema, kind, entries[1..], m', i - 1);
    }
  }
}
