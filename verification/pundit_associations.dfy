/**
 * `PunditAssociations`: the walk over a requested association tree. The
 * grant's association Hash is inverted into association -> actions; requested
 * associations that no action grants are skipped; every granted one is
 * resolved through its own policy and stored in the permission table, and a
 * nested Hash is walked against the child's permission. Afterwards the
 * allowed tree is filtered per action, and the `<assoc>_attributes` entries
 * for nested writes are built.
 */
module PunditAssociations {
  import opened Types
  import opened RubyArray
  import opened PermissionSets

  /** A requested association: a Symbol, a Hash of `name => [nested requests]`, or any other object. */
  datatype Node = Name(name: Sym) | HashNode(entries: seq<Entry>) | OtherNode
  datatype Entry = Entry(key: Sym, children: seq<Node>)

  /** What `determine_save_permissions` appends: a field, or `{"<assoc>_attributes" => list}` (nil list when the type is missing). */
  datatype SaveAttr = Field(name: Sym) | Nested(key: string, value: Option<seq<SaveAttr>>)

  /**
   * What the walk consults outside this module: `String#classify`, the
   * constants `constantize` finds, each model class's association aliases
   * (`reflect_on_all_associations`, name -> class_name), and the child
   * policy's `resolve_as_association(roles, actions)`: falsy, `true`, or a
   * permission Hash.
   */
  datatype Env = Env(
    classify: Sym -> ClassName,
    constants: set<ClassName>,
    aliases: map<ClassName, map<Sym, ClassName>>,
    resolve: (ClassName, Option<seq<RoleName>>, seq<Action>) -> Verdict<PermissionSet>)

  /** `@pundit_permission_table`: association name -> the truthy answer its policy gave. */
  type Table = map<Sym, Verdict<PermissionSet>>

  // ---------------------------------------------------------------------------
  // format_association_list

  function ActionsOf(pa: map<Sym, seq<Action>>, x: Sym): seq<Action>
  {
    if x in pa then pa[x] else []
  }

  /** One entry of the inner loop: `permitted_actions[ass] |= [key]` for every `ass` of the list. */
  function AddAction(pa: map<Sym, seq<Action>>, key: Action, list: seq<Sym>): (r: map<Sym, seq<Action>>)
    ensures forall x :: x in r ==> x in pa || x in list
    ensures forall x :: x in list ==> x in r && key in r[x]
    decreases |list|
  {
    if list == [] then pa
    else
      assert forall x :: x in list <==> x in list[..|list| - 1] || x == list[|list| - 1];
      var p := AddAction(pa, key, list[..|list| - 1]);
      var x := list[|list| - 1];
      p[x := Union(ActionsOf(p, x), [key])]
  }

  /** `format_association_list(assoc)`: association -> the actions that grant it. */
  function FormatAssociationList(h: Entries): (r: map<Sym, seq<Action>>)
    ensures forall x :: x in r ==> r[x] != []
    decreases |h|
  {
    if h == [] then map[]
    else
      var prev := FormatAssociationList(h[..|h| - 1]);
      var r := AddAction(prev, h[|h| - 1].0, h[|h| - 1].1);
      assert forall x :: x in r ==> r[x] != [] by {
        forall x | x in r && x !in h[|h| - 1].1
          ensures r[x] != []
        {
          AddActionValues(prev, h[|h| - 1].0, h[|h| - 1].1, x);
        }
      }
      r
  }

  /** The actions whose list names `x`, in Hash order, repeats included. */
  function Granting(h: Entries, x: Sym): (g: seq<Action>)
    ensures forall a {:trigger a in g} :: a in g <==> exists i :: 0 <= i < |h| && h[i].0 == a && x in h[i].1
    decreases |h|
  {
    if h == [] then []
    else
      var init := h[..|h| - 1];
      var g := Granting(init, x) + (if x in h[|h| - 1].1 then [h[|h| - 1].0] else []);
      assert forall i :: 0 <= i < |init| ==> init[i] == h[i];
      g
  }

  lemma {:induction false} AddActionKeys(pa: map<Sym, seq<Action>>, key: Action, list: seq<Sym>, x: Sym)
    ensures x in AddAction(pa, key, list) <==> x in pa || x in list
    decreases |list|
  {
    if list != [] {
      AddActionKeys(pa, key, list[..|list| - 1], x);
      assert x in list <==> x in list[..|list| - 1] || x == list[|list| - 1];
    }
  }

  lemma {:induction false} AddActionValues(pa: map<Sym, seq<Action>>, key: Action, list: seq<Sym>, x: Sym)
    ensures ActionsOf(AddAction(pa, key, list), x) == if x in list then Union(ActionsOf(pa, x), [key]) else ActionsOf(pa, x)
    decreases |list|
  {
    if list != [] {
      var init := list[..|list| - 1];
      var y := list[|list| - 1];
      var p := AddAction(pa, key, init);
      AddActionValues(pa, key, init, x);
      assert AddAction(pa, key, list) == p[y := Union(ActionsOf(p, y), [key])];
      assert x in list <==> x in init || x == y;
      if x != y {
        assert ActionsOf(AddAction(pa, key, list), x) == ActionsOf(p, x);
      } else if x in init {
        var u := Union(ActionsOf(pa, x), [key]);
        assert ActionsOf(p, x) == u;
        DedupNoDup(ActionsOf(pa, x) + [key]);
        UnionAbsorb(u, [key]);
      } else {
        assert ActionsOf(p, x) == ActionsOf(pa, x);
      }
    }
  }

  /**
   * The inversion, stated independently of its loops: each association maps
   * to the actions whose list names it, in Hash order and each once.
   */
  lemma {:induction false} FormatAssociationListSpec(h: Entries, x: Sym)
    ensures ActionsOf(FormatAssociationList(h), x) == Dedup(Granting(h, x))
    decreases |h|
  {
    if h != [] {
      var init := h[..|h| - 1];
      var key, list := h[|h| - 1].0, h[|h| - 1].1;
      FormatAssociationListSpec(init, x);
      assert FormatAssociationList(h) == AddAction(FormatAssociationList(init), key, list);
      AddActionValues(FormatAssociationList(init), key, list, x);
      if x in list {
        assert Granting(h, x) == Granting(init, x) + [key];
        DedupAppend(Granting(init, x), [key]);
      } else {
        assert Granting(h, x) == Granting(init, x) + [];
        assert Granting(init, x) + [] == Granting(init, x);
      }
    }
  }

  /** An association has an entry exactly when some action's list names it. */
  lemma {:induction false} FormatAssociationListKeys(h: Entries, x: Sym)
    ensures x in FormatAssociationList(h) <==> Granting(h, x) != []
    decreases |h|
  {
    if h != [] {
      var init := h[..|h| - 1];
      FormatAssociationListKeys(init, x);
      AddActionKeys(FormatAssociationList(init), h[|h| - 1].0, h[|h| - 1].1, x);
      assert Granting(init, x) != [] ==> Granting(init, x)[0] in Granting(init, x);
    }
  }

  /** Each action list of the inversion repeats nothing. */
  lemma FormatAssociationListNoDup(h: Entries, x: Sym)
    requires x in FormatAssociationList(h)
    ensures NoDup(FormatAssociationList(h)[x])
  {
    assert FormatAssociationList(h)[x] == ActionsOf(FormatAssociationList(h), x);
    FormatAssociationListSpec(h, x);
    DedupNoDup(Granting(h, x));
  }

  // ---------------------------------------------------------------------------
  // get_assoc_constant and fetch_assoc_policy

  /**
   * `get_assoc_constant(record_class, assoc)`: the classified name when it is
   * a constant; otherwise the record class's alias for the association, which
   * must itself be a constant; otherwise NameError. A record class that cannot
   * report its associations raises NoMethodError.
   */
  function AssocConstant(env: Env, record: ClassName, assoc: Sym): (r: Result<ClassName>)
    ensures env.classify(assoc) in env.constants ==> r == Ok(env.classify(assoc))
    ensures r.Ok? ==> r.value in env.constants
    ensures env.classify(assoc) !in env.constants && record in env.aliases ==>
      (r.Ok? <==> assoc in env.aliases[record] && env.aliases[record][assoc] in env.constants)
    ensures r.Ok? && r.value != env.classify(assoc) ==> record in env.aliases && assoc in env.aliases[record] && r.value == env.aliases[record][assoc]
    ensures r.Err? ==> r.error == NameError || (r.error == NoMethodError && record !in env.aliases)
  {
    if env.classify(assoc) in env.constants then Ok(env.classify(assoc))
    else if record !in env.aliases then Err(NoMethodError)
    else if assoc !in env.aliases[record] then Err(NameError)
    else if env.aliases[record][assoc] in env.constants then Ok(env.aliases[record][assoc])
    else Err(NameError)
  }

  /** `pundit_permission[:roles][:for_associated_models][assoc]`: nil when the association has no entry. */
  function AssociatedRoles(p: PermissionSet, assoc: Sym): (r: Result<Option<seq<RoleName>>>)
    ensures r.Err? <==> p.roles.NoRoleInfo?
    ensures r.Err? ==> r.error == NoMethodError
    ensures r.Ok? ==> (r.value.Some? <==> assoc in p.roles.forAssociatedModels)
  {
    match p.roles
    case NoRoleInfo => Err(NoMethodError)
    case RoleInfo(_, associated) => Ok(if assoc in associated then Some(associated[assoc]) else None)
  }

  /**
   * `fetch_assoc_policy`: asks the child policy with the association's roles
   * and actions; a falsy answer raises not-authorized, any other (`true`
   * included) is stored under the association's name and nothing else in the
   * table changes.
   */
  function Fetch(env: Env, constant: ClassName, assoc: Sym, permission: PermissionSet, actions: seq<Action>, table: Table): (r: Result<Table>)
    ensures r.Ok? <==> AssociatedRoles(permission, assoc).Ok? && !env.resolve(constant, AssociatedRoles(permission, assoc).value, actions).Deny?
    ensures AssociatedRoles(permission, assoc).Ok? && env.resolve(constant, AssociatedRoles(permission, assoc).value, actions).Deny? ==> r == Err(NotAuthorized)
    ensures r.Ok? ==> assoc in r.value && r.value[assoc] == env.resolve(constant, AssociatedRoles(permission, assoc).value, actions)
    ensures r.Ok? ==> TableExtends(table, r.value, {assoc})
  {
    var roles :- AssociatedRoles(permission, assoc);
    var answer := env.resolve(constant, roles, actions);
    if answer.Deny? then Err(NotAuthorized) else Ok(table[assoc := answer])
  }

  /**
   * `t1` is `t0` after the walk wrote the names `keys`: exactly those are added
   * or overwritten, each holding a truthy answer, and every other entry is kept.
   */
  predicate TableExtends(t0: Table, t1: Table, keys: set<Sym>)
  {
    && t1.Keys == t0.Keys + keys
    && (forall k :: k in t0 && k !in keys ==> t1[k] == t0[k])
    && (forall k :: k in keys ==> !t1[k].Deny?)
  }

  lemma TableCompose(t0: Table, t1: Table, t2: Table, k1: set<Sym>, k2: set<Sym>)
    requires TableExtends(t0, t1, k1) && TableExtends(t1, t2, k2)
    ensures TableExtends(t0, t2, k1 + k2)
  {
  }

  // ---------------------------------------------------------------------------
  // handle_associations

  /** The state the walk builds: the permission table and the allowed tree. */
  datatype Walked = Walked(table: Table, allowed: seq<Node>)

  /**
   * The walk over one level of requests, against `permission`, whose
   * association Hash inverts to `granted`: each request in turn, stopping at
   * the first failure. It only appends to the allowed list and only adds
   * table entries.
   */
  function HandleNodes(env: Env, record: ClassName, nodes: seq<Node>, permission: PermissionSet, granted: map<Sym, seq<Action>>, acc: Walked): (r: Result<Walked>)
    ensures r.Ok? ==> acc.allowed <= r.value.allowed && acc.table.Keys <= r.value.table.Keys
    decreases nodes
  {
    if nodes == [] then Ok(acc)
    else
      var next :- HandleNode(env, record, nodes[0], permission, granted, acc);
      HandleNodes(env, record, nodes[1..], permission, granted, next)
  }

  /**
   * One request. A Symbol no action grants is skipped; a granted one is
   * resolved, stored and appended. A Hash is walked key by key. Anything
   * else raises ArgumentError.
   */
  function HandleNode(env: Env, record: ClassName, node: Node, permission: PermissionSet, granted: map<Sym, seq<Action>>, acc: Walked): (r: Result<Walked>)
    ensures node.Name? && node.name !in granted ==> r == Ok(acc)
    ensures node.OtherNode? ==> r == Err(ArgumentError)
    ensures r.Ok? && node.Name? && node.name in granted ==> r.value.allowed == acc.allowed + [node] && node.name in r.value.table
    ensures r.Ok? ==> acc.allowed <= r.value.allowed && acc.table.Keys <= r.value.table.Keys
    decreases node
  {
    match node
    case Name(assoc) =>
      if assoc !in granted then Ok(acc)
      else
        var constant :- AssocConstant(env, record, assoc);
        var table :- Fetch(env, constant, assoc, permission, granted[assoc], acc.table);
        Ok(Walked(table, acc.allowed + [Name(assoc)]))
    case HashNode(entries) => HandleEntries(env, record, entries, permission, granted, acc)
    case OtherNode => Err(ArgumentError)
  }

  /** The keys of one Hash request, in order. */
  function HandleEntries(env: Env, record: ClassName, entries: seq<Entry>, permission: PermissionSet, granted: map<Sym, seq<Action>>, acc: Walked): (r: Result<Walked>)
    ensures r.Ok? ==> acc.allowed <= r.value.allowed && acc.table.Keys <= r.value.table.Keys
    decreases entries
  {
    if entries == [] then Ok(acc)
    else
      var next :- HandleEntry(env, record, entries[0], permission, granted, acc);
      HandleEntries(env, record, entries[1..], permission, granted, next)
  }

  /**
   * One key of a Hash request: skipped, nested requests and all, when no
   * action grants it; otherwise resolved and stored, appended as
   * `{key => [...]}`, and its nested requests walked against the child's
   * stored permission into that list. A stored `true` has no
   * `[:associations]` to walk, so it raises NoMethodError.
   */
  function HandleEntry(env: Env, record: ClassName, entry: Entry, permission: PermissionSet, granted: map<Sym, seq<Action>>, acc: Walked): (r: Result<Walked>)
    ensures entry.key !in granted ==> r == Ok(acc)
    ensures entry.key in granted && AssocConstant(env, record, entry.key).Ok? && AssociatedRoles(permission, entry.key).Ok? ==>
      var answer := env.resolve(AssocConstant(env, record, entry.key).value, AssociatedRoles(permission, entry.key).value, granted[entry.key]);
      (answer.Deny? ==> r == Err(NotAuthorized)) && (answer.Allow? ==> r == Err(NoMethodError))
    ensures r.Ok? && entry.key in granted ==> entry.key in r.value.table && |r.value.allowed| == |acc.allowed| + 1
    ensures r.Ok? ==> acc.allowed <= r.value.allowed && acc.table.Keys <= r.value.table.Keys
    decreases entry
  {
    var key := entry.key;
    if key !in granted then Ok(acc)
    else
      var constant :- AssocConstant(env, record, key);
      var table :- Fetch(env, constant, key, permission, granted[key], acc.table);
      match table[key]
      case Granted(child) =>
        var nested :- HandleNodes(env, constant, entry.children, child, FormatAssociationList(child.associations), Walked(table, []));
        Ok(Walked(nested.table, acc.allowed + [HashNode([Entry(key, nested.allowed)])]))
      case _ => Err(NoMethodError)
  }

  /**
   * `handle_associations(record_class, requested, permission, [])` over the
   * current permission table. The allowed tree is the requested tree pruned
   * to what is granted, its top level is exactly the granted requests in
   * order, and the table gains exactly the names of the allowed tree, each
   * with a truthy answer, while every other entry is kept.
   */
  function HandleAssociations(env: Env, record: ClassName, requested: seq<Node>, permission: PermissionSet, table: Table): (r: Result<Walked>)
    ensures r.Ok? ==> r.value.allowed == PruneNodes(env, record, requested, permission, FormatAssociationList(permission.associations))
    ensures r.Ok? ==> TopKeys(r.value.allowed) == Kept(TopKeys(requested), FormatAssociationList(permission.associations))
    ensures r.Ok? ==> TableExtends(table, r.value.table, TreeKeys(r.value.allowed))
  {
    var granted := FormatAssociationList(permission.associations);
    var r := HandleNodes(env, record, requested, permission, granted, Walked(table, []));
    if r.Err? then r
    else
      assert r.value.allowed == PruneNodes(env, record, requested, permission, granted) && TableExtends(table, r.value.table, TreeKeys(r.value.allowed)) by {
        WalkNodes(env, record, requested, permission, granted, Walked(table, []));
        assert [] + PruneNodes(env, record, requested, permission, granted) == PruneNodes(env, record, requested, permission, granted);
      }
      assert TopKeys(r.value.allowed) == Kept(TopKeys(requested), granted) by {
        PruneTop(env, record, requested, permission, granted);
      }
      r
  }

  // ---------------------------------------------------------------------------
  // What the walk allows, stated without the table

  /**
   * The class and permission a granted key's nested requests are walked
   * against: its constant and its policy's answer, when that answer is a
   * permission Hash.
   */
  function ChildOf(env: Env, record: ClassName, permission: PermissionSet, granted: map<Sym, seq<Action>>, key: Sym): Option<(ClassName, PermissionSet)>
    requires key in granted
  {
    var constant := AssocConstant(env, record, key);
    var roles := AssociatedRoles(permission, key);
    if constant.Err? || roles.Err? then None
    else match env.resolve(constant.value, roles.value, granted[key])
      case Granted(child) => Some((constant.value, child))
      case _ => None
  }

  /**
   * The requests in order with every name and Hash key no action grants
   * dropped, nested requests included. A granted name stays as it is; a
   * granted Hash key becomes its own `{key => [...]}` holding its nested
   * requests pruned against its child's permission (none when there is no
   * such permission, where the walk fails).
   */
  function PruneNodes(env: Env, record: ClassName, nodes: seq<Node>, permission: PermissionSet, granted: map<Sym, seq<Action>>): seq<Node>
    decreases nodes
  {
    if nodes == [] then []
    else PruneNode(env, record, nodes[0], permission, granted) + PruneNodes(env, record, nodes[1..], permission, granted)
  }

  function PruneNode(env: Env, record: ClassName, node: Node, permission: PermissionSet, granted: map<Sym, seq<Action>>): seq<Node>
    decreases node
  {
    match node
    case Name(n) => if n in granted then [Name(n)] else []
    case HashNode(entries) => PruneEntries(env, record, entries, permission, granted)
    case OtherNode => []
  }

  function PruneEntries(env: Env, record: ClassName, entries: seq<Entry>, permission: PermissionSet, granted: map<Sym, seq<Action>>): seq<Node>
    decreases entries
  {
    if entries == [] then []
    else PruneEntry(env, record, entries[0], permission, granted) + PruneEntries(env, record, entries[1..], permission, granted)
  }

  function PruneEntry(env: Env, record: ClassName, entry: Entry, permission: PermissionSet, granted: map<Sym, seq<Action>>): seq<Node>
    decreases entry
  {
    if entry.key !in granted then []
    else
      var children :=
        match ChildOf(env, record, permission, granted, entry.key)
        case Some((constant, child)) => PruneNodes(env, constant, entry.children, child, FormatAssociationList(child.associations))
        case None => [];
      [HashNode([Entry(entry.key, children)])]
  }

  /** Every name and Hash key of a request tree, at any depth. */
  function TreeKeys(nodes: seq<Node>): set<Sym>
    decreases nodes
  {
    if nodes == [] then {} else NodeKeys(nodes[0]) + TreeKeys(nodes[1..])
  }

  function NodeKeys(node: Node): set<Sym>
    decreases node
  {
    match node
    case Name(n) => {n}
    case HashNode(entries) => EntriesKeys(entries)
    case OtherNode => {}
  }

  function EntriesKeys(entries: seq<Entry>): set<Sym>
    decreases entries
  {
    if entries == [] then {} else EntryKeySet(entries[0]) + EntriesKeys(entries[1..])
  }

  function EntryKeySet(entry: Entry): set<Sym>
    decreases entry
  {
    {entry.key} + TreeKeys(entry.children)
  }

  lemma {:induction false} TreeKeysAppend(a: seq<Node>, b: seq<Node>)
    ensures TreeKeys(a + b) == TreeKeys(a) + TreeKeys(b)
    decreases |a|
  {
    if a == [] {
      assert a + b == b;
    } else {
      assert (a + b)[0] == a[0];
      assert (a + b)[1..] == a[1..] + b;
      TreeKeysAppend(a[1..], b);
    }
  }

  /** The names and Hash keys of a request list's top level, in order. */
  function TopKeys(nodes: seq<Node>): seq<Sym>
    decreases nodes
  {
    if nodes == [] then [] else NodeTop(nodes[0]) + TopKeys(nodes[1..])
  }

  function NodeTop(node: Node): seq<Sym>
  {
    match node
    case Name(n) => [n]
    case HashNode(entries) => EntryKeys(entries)
    case OtherNode => []
  }

  function EntryKeys(entries: seq<Entry>): (keys: seq<Sym>)
    ensures |keys| == |entries| && forall i :: 0 <= i < |entries| ==> keys[i] == entries[i].key
  {
    if entries == [] then [] else [entries[0].key] + EntryKeys(entries[1..])
  }

  lemma {:induction false} TopKeysAppend(a: seq<Node>, b: seq<Node>)
    ensures TopKeys(a + b) == TopKeys(a) + TopKeys(b)
    decreases |a|
  {
    if a == [] {
      assert a + b == b;
    } else {
      assert (a + b)[0] == a[0];
      assert (a + b)[1..] == a[1..] + b;
      TopKeysAppend(a[1..], b);
      AppendAssoc(NodeTop(a[0]), TopKeys(a[1..]), TopKeys(b));
    }
  }

  lemma {:induction false} KeptAppend(a: seq<Sym>, b: seq<Sym>, granted: map<Sym, seq<Action>>)
    ensures Kept(a + b, granted) == Kept(a, granted) + Kept(b, granted)
    decreases |a|
  {
    if a == [] {
      assert a + b == b;
    } else {
      assert (a + b)[0] == a[0];
      assert (a + b)[1..] == a[1..] + b;
      KeptAppend(a[1..], b, granted);
      AppendAssoc(if a[0] in granted then [a[0]] else [], Kept(a[1..], granted), Kept(b, granted));
    }
  }

  /** The top level of the pruned tree is exactly the granted names and Hash keys, in request order. */
  lemma {:induction false} PruneTop(env: Env, record: ClassName, nodes: seq<Node>, permission: PermissionSet, granted: map<Sym, seq<Action>>)
    ensures TopKeys(PruneNodes(env, record, nodes, permission, granted)) == Kept(TopKeys(nodes), granted)
    decreases |nodes|
  {
    if nodes != [] {
      var head := PruneNode(env, record, nodes[0], permission, granted);
      var tail := PruneNodes(env, record, nodes[1..], permission, granted);
      PruneTop(env, record, nodes[1..], permission, granted);
      TopKeysAppend(head, tail);
      KeptAppend(NodeTop(nodes[0]), TopKeys(nodes[1..]), granted);
      match nodes[0] {
        case Name(n) =>
          assert [n][1..] == [];
          if n in granted {
            assert [Name(n)][1..] == [];
            assert TopKeys(head) == [n] + [];
          }
        case HashNode(entries) =>
          PruneEntriesTop(env, record, entries, permission, granted);
        case OtherNode =>
      }
    }
  }

  lemma {:induction false} PruneEntriesTop(env: Env, record: ClassName, entries: seq<Entry>, permission: PermissionSet, granted: map<Sym, seq<Action>>)
    ensures TopKeys(PruneEntries(env, record, entries, permission, granted)) == Kept(EntryKeys(entries), granted)
    decreases |entries|
  {
    if entries != [] {
      var head := PruneEntry(env, record, entries[0], permission, granted);
      var tail := PruneEntries(env, record, entries[1..], permission, granted);
      PruneEntriesTop(env, record, entries[1..], permission, granted);
      TopKeysAppend(head, tail);
      var keys := EntryKeys(entries);
      assert keys[1..] == EntryKeys(entries[1..]);
      assert keys[0] == entries[0].key;
      if entries[0].key in granted {
        assert head[1..] == [];
        assert TopKeys(head) == NodeTop(head[0]) + [];
        assert EntryKeys(head[0].entries) == [entries[0].key];
      }
    }
  }

  /**
   * The walk, over any nested requests: the allowed list gains exactly the
   * pruned requests, and the table gains exactly their names and keys at
   * every depth, each with a truthy answer, every other entry kept.
   */
  lemma {:induction false} WalkNodes(env: Env, record: ClassName, nodes: seq<Node>, permission: PermissionSet, granted: map<Sym, seq<Action>>, acc: Walked)
    requires HandleNodes(env, record, nodes, permission, granted, acc).Ok?
    ensures var w := HandleNodes(env, record, nodes, permission, granted, acc).value;
      var pruned := PruneNodes(env, record, nodes, permission, granted);
      w.allowed == acc.allowed + pruned && TableExtends(acc.table, w.table, TreeKeys(pruned))
    decreases nodes
  {
    if nodes == [] {
      assert acc.allowed + [] == acc.allowed;
    } else {
      var next := HandleNode(env, record, nodes[0], permission, granted, acc).value;
      var head := PruneNode(env, record, nodes[0], permission, granted);
      var tail := PruneNodes(env, record, nodes[1..], permission, granted);
      var w := HandleNodes(env, record, nodes, permission, granted, acc).value;
      WalkNode(env, record, nodes[0], permission, granted, acc);
      WalkNodes(env, record, nodes[1..], permission, granted, next);
      AppendAssoc(acc.allowed, head, tail);
      TreeKeysAppend(head, tail);
      TableCompose(acc.table, next.table, w.table, TreeKeys(head), TreeKeys(tail));
    }
  }

  lemma {:induction false} WalkNode(env: Env, record: ClassName, node: Node, permission: PermissionSet, granted: map<Sym, seq<Action>>, acc: Walked)
    requires HandleNode(env, record, node, permission, granted, acc).Ok?
    ensures var w := HandleNode(env, record, node, permission, granted, acc).value;
      var pruned := PruneNode(env, record, node, permission, granted);
      w.allowed == acc.allowed + pruned && TableExtends(acc.table, w.table, TreeKeys(pruned))
    decreases node
  {
    match node {
      case Name(n) =>
        if n in granted {
          assert [Name(n)][1..] == [];
          assert TreeKeys([Name(n)]) == {n};
        } else {
          assert acc.allowed + [] == acc.allowed;
        }
      case HashNode(entries) =>
        WalkEntries(env, record, entries, permission, granted, acc);
      case OtherNode =>
    }
  }

  lemma {:induction false} WalkEntries(env: Env, record: ClassName, entries: seq<Entry>, permission: PermissionSet, granted: map<Sym, seq<Action>>, acc: Walked)
    requires HandleEntries(env, record, entries, permission, granted, acc).Ok?
    ensures var w := HandleEntries(env, record, entries, permission, granted, acc).value;
      var pruned := PruneEntries(env, record, entries, permission, granted);
      w.allowed == acc.allowed + pruned && TableExtends(acc.table, w.table, TreeKeys(pruned))
    decreases entries
  {
    if entries == [] {
      assert acc.allowed + [] == acc.allowed;
    } else {
      var next := HandleEntry(env, record, entries[0], permission, granted, acc).value;
      var head := PruneEntry(env, record, entries[0], permission, granted);
      var tail := PruneEntries(env, record, entries[1..], permission, granted);
      var w := HandleEntries(env, record, entries, permission, granted, acc).value;
      WalkEntry(env, record, entries[0], permission, granted, acc);
      WalkEntries(env, record, entries[1..], permission, granted, next);
      AppendAssoc(acc.allowed, head, tail);
      TreeKeysAppend(head, tail);
      TableCompose(acc.table, next.table, w.table, TreeKeys(head), TreeKeys(tail));
    }
  }

  lemma {:induction false} WalkEntry(env: Env, record: ClassName, entry: Entry, permission: PermissionSet, granted: map<Sym, seq<Action>>, acc: Walked)
    requires HandleEntry(env, record, entry, permission, granted, acc).Ok?
    ensures var w := HandleEntry(env, record, entry, permission, granted, acc).value;
      var pruned := PruneEntry(env, record, entry, permission, granted);
      w.allowed == acc.allowed + pruned && TableExtends(acc.table, w.table, TreeKeys(pruned))
    decreases entry
  {
    var key := entry.key;
    if key !in granted {
      assert acc.allowed + [] == acc.allowed;
    } else {
      var constant := AssocConstant(env, record, key).value;
      var table := Fetch(env, constant, key, permission, granted[key], acc.table).value;
      var child := table[key].value;
      assert ChildOf(env, record, permission, granted, key) == Some((constant, child));
      var childGranted := FormatAssociationList(child.associations);
      var start := Walked(table, []);
      var nested := HandleNodes(env, constant, entry.children, child, childGranted, start).value;
      WalkNodes(env, constant, entry.children, child, childGranted, start);
      var children := PruneNodes(env, constant, entry.children, child, childGranted);
      assert nested.allowed == children;
      var node := HashNode([Entry(key, children)]);
      assert TreeKeys([node]) == {key} + TreeKeys(children) by {
        assert [node][1..] == [];
        assert [Entry(key, children)][1..] == [];
        assert TreeKeys([node]) == NodeKeys(node) + TreeKeys([]);
        assert NodeKeys(node) == EntryKeySet(Entry(key, children)) + EntriesKeys([]);
      }
      TableCompose(acc.table, table, nested.table, {key}, TreeKeys(children));
    }
  }

  /** A granted Hash key whose policy answers `true` stops the walk with NoMethodError, whatever it nests. */
  lemma TrueAnswerStops(env: Env, record: ClassName, key: Sym, children: seq<Node>, permission: PermissionSet, acc: Walked)
    requires key in FormatAssociationList(permission.associations)
    requires AssocConstant(env, record, key).Ok? && AssociatedRoles(permission, key).Ok?
    requires env.resolve(AssocConstant(env, record, key).value, AssociatedRoles(permission, key).value, FormatAssociationList(permission.associations)[key]) == Allow
    ensures HandleAssociations(env, record, [HashNode([Entry(key, children)])], permission, acc.table) == Err(NoMethodError)
  {
    var granted := FormatAssociationList(permission.associations);
    var es := [Entry(key, children)];
    assert HandleEntry(env, record, es[0], permission, granted, Walked(acc.table, [])) == Err(NoMethodError);
    SingleHash(env, record, es, permission, granted, Walked(acc.table, []));
  }

  /** The Symbol requests of a list, as nodes. */
  function NameList(names: seq<Sym>): (ns: seq<Node>)
    ensures |ns| == |names| && forall i :: 0 <= i < |names| ==> ns[i] == Name(names[i])
  {
    if names == [] then [] else [Name(names[0])] + NameList(names[1..])
  }

  /** The elements of a list, as a set. */
  function Elements(l: seq<Sym>): (e: set<Sym>)
    ensures forall x :: x in e <==> x in l
  {
    set x | x in l
  }

  /** The names some action grants, in request order. */
  function Kept(names: seq<Sym>, granted: map<Sym, seq<Action>>): (k: seq<Sym>)
    ensures forall x {:trigger x in k} :: x in k <==> x in names && x in granted
  {
    if names == [] then []
    else
      assert forall x :: x in names[1..] ==> x in names;
      (if names[0] in granted then [names[0]] else []) + Kept(names[1..], granted)
  }

  /** The table holds, under `n`, the answer of `n`'s own policy for `n`'s roles and granting actions. */
  predicate Answered(env: Env, record: ClassName, permission: PermissionSet, granted: map<Sym, seq<Action>>, n: Sym, table: Table)
    requires n in granted
  {
    && AssocConstant(env, record, n).Ok? && AssociatedRoles(permission, n).Ok? && n in table
    && table[n] == env.resolve(AssocConstant(env, record, n).value, AssociatedRoles(permission, n).value, granted[n])
  }

  /** A flat list of Symbol requests: the allowed list is exactly the granted requests, in order. */
  lemma {:induction false} WalkNamesAllowed(env: Env, record: ClassName, names: seq<Sym>, permission: PermissionSet, granted: map<Sym, seq<Action>>, acc: Walked)
    requires HandleNodes(env, record, NameList(names), permission, granted, acc).Ok?
    ensures HandleNodes(env, record, NameList(names), permission, granted, acc).value.allowed == acc.allowed + NameList(Kept(names, granted))
    decreases |names|
  {
    if names == [] {
      assert acc.allowed + NameList([]) == acc.allowed;
    } else {
      var n := names[0];
      var next := HandleNode(env, record, Name(n), permission, granted, acc).value;
      assert HandleNodes(env, record, NameList(names), permission, granted, acc) ==
        HandleNodes(env, record, NameList(names[1..]), permission, granted, next) by {
        assert NameList(names)[1..] == NameList(names[1..]);
      }
      WalkNamesAllowed(env, record, names[1..], permission, granted, next);
      var rest := NameList(Kept(names[1..], granted));
      if n in granted {
        assert acc.allowed + NameList(Kept(names, granted)) == next.allowed + rest by {
          assert Kept(names, granted) == [n] + Kept(names[1..], granted);
          assert NameList([n] + Kept(names[1..], granted)) == [Name(n)] + rest;
          AppendAssoc(acc.allowed, [Name(n)], rest);
        }
      } else {
        assert Kept(names, granted) == Kept(names[1..], granted);
      }
    }
  }

  /** The table gains exactly the granted names: an ungranted request leaves no entry. */
  lemma {:induction false} WalkNamesKeys(env: Env, record: ClassName, names: seq<Sym>, permission: PermissionSet, granted: map<Sym, seq<Action>>, acc: Walked)
    requires HandleNodes(env, record, NameList(names), permission, granted, acc).Ok?
    ensures HandleNodes(env, record, NameList(names), permission, granted, acc).value.table.Keys == acc.table.Keys + Elements(Kept(names, granted))
    decreases |names|
  {
    if names != [] {
      assert NameList(names)[1..] == NameList(names[1..]);
      var next := HandleNode(env, record, Name(names[0]), permission, granted, acc).value;
      WalkNamesKeys(env, record, names[1..], permission, granted, next);
    }
  }

  /** Every granted request ends up stored with its own policy's answer. */
  lemma {:induction false} WalkNamesValues(env: Env, record: ClassName, names: seq<Sym>, permission: PermissionSet, granted: map<Sym, seq<Action>>, acc: Walked, n: Sym)
    requires HandleNodes(env, record, NameList(names), permission, granted, acc).Ok?
    requires n in names && n in granted
    ensures Answered(env, record, permission, granted, n, HandleNodes(env, record, NameList(names), permission, granted, acc).value.table)
    decreases |names|
  {
    assert NameList(names)[1..] == NameList(names[1..]);
    var next := HandleNode(env, record, Name(names[0]), permission, granted, acc).value;
    if n == names[0] {
      WalkNamesKeep(env, record, names[1..], permission, granted, next, n);
    } else {
      WalkNamesValues(env, record, names[1..], permission, granted, next, n);
    }
  }

  /** A name stored earlier keeps its answer: every later write of it stores the same answer. */
  lemma {:induction false} WalkNamesKeep(env: Env, record: ClassName, names: seq<Sym>, permission: PermissionSet, granted: map<Sym, seq<Action>>, acc: Walked, n: Sym)
    requires HandleNodes(env, record, NameList(names), permission, granted, acc).Ok?
    requires n in granted && Answered(env, record, permission, granted, n, acc.table)
    ensures Answered(env, record, permission, granted, n, HandleNodes(env, record, NameList(names), permission, granted, acc).value.table)
    decreases |names|
  {
    if names != [] {
      assert NameList(names)[1..] == NameList(names[1..]);
      var next := HandleNode(env, record, Name(names[0]), permission, granted, acc).value;
      WalkNamesKeep(env, record, names[1..], permission, granted, next, n);
    }
  }

  /** A request that is neither Symbol nor Hash makes the whole walk fail. */
  lemma {:induction false} RejectsOther(env: Env, record: ClassName, nodes: seq<Node>, permission: PermissionSet, granted: map<Sym, seq<Action>>, acc: Walked, i: nat)
    requires i < |nodes| && nodes[i] == OtherNode
    ensures HandleNodes(env, record, nodes, permission, granted, acc).Err?
    ensures i == 0 ==> HandleNodes(env, record, nodes, permission, granted, acc) == Err(ArgumentError)
    decreases i
  {
    if i > 0 {
      assert nodes[1..][i - 1] == nodes[i];
      var next := HandleNode(env, record, nodes[0], permission, granted, acc);
      if next.Ok? {
        RejectsOther(env, record, nodes[1..], permission, granted, next.value, i - 1);
      }
    }
  }

  /** Walking the keys of `es1 + es2` is walking those of `es1`, then those of `es2`. */
  lemma {:induction false} HandleEntriesAppend(env: Env, record: ClassName, es1: seq<Entry>, es2: seq<Entry>, permission: PermissionSet, granted: map<Sym, seq<Action>>, acc: Walked)
    ensures HandleEntries(env, record, es1 + es2, permission, granted, acc) ==
      match HandleEntries(env, record, es1, permission, granted, acc)
      case Err(e) => Err(e)
      case Ok(w) => HandleEntries(env, record, es2, permission, granted, w)
    decreases |es1|
  {
    if es1 == [] {
      assert es1 + es2 == es2;
    } else {
      assert (es1 + es2)[1..] == es1[1..] + es2;
      assert (es1 + es2)[0] == es1[0];
      var next := HandleEntry(env, record, es1[0], permission, granted, acc);
      if next.Ok? {
        HandleEntriesAppend(env, record, es1[1..], es2, permission, granted, next.value);
      }
    }
  }

  /** A single Hash request walks as its keys do. */
  lemma SingleHash(env: Env, record: ClassName, es: seq<Entry>, permission: PermissionSet, granted: map<Sym, seq<Action>>, acc: Walked)
    ensures HandleNodes(env, record, [HashNode(es)], permission, granted, acc) == HandleEntries(env, record, es, permission, granted, acc)
  {
    assert [HashNode(es)][1..] == [];
  }

  /** Each key of a Hash request is processed independently: one Hash of two parts walks as two Hashes. */
  lemma HashSplit(env: Env, record: ClassName, es1: seq<Entry>, es2: seq<Entry>, permission: PermissionSet, granted: map<Sym, seq<Action>>, acc: Walked)
    ensures HandleNodes(env, record, [HashNode(es1 + es2)], permission, granted, acc) ==
      HandleNodes(env, record, [HashNode(es1), HashNode(es2)], permission, granted, acc)
  {
    HandleEntriesAppend(env, record, es1, es2, permission, granted, acc);
    SingleHash(env, record, es1 + es2, permission, granted, acc);
    assert [HashNode(es1), HashNode(es2)][1..] == [HashNode(es2)];
    var first := HandleEntries(env, record, es1, permission, granted, acc);
    if first.Ok? {
      SingleHash(env, record, es2, permission, granted, first.value);
    }
  }

  // ---------------------------------------------------------------------------
  // determine_permitted_associations

  /** `head` followed by the list `r` produced, or `r`'s error. */
  function Prepend<T>(head: seq<T>, r: Result<seq<T>>): (p: Result<seq<T>>)
    ensures p.Ok? <==> r.Ok?
    ensures p.Err? ==> p.error == r.error
  {
    match r
    case Err(e) => Err(e)
    case Ok(tail) => Ok(head + tail)
  }

  lemma PrependNothing<T>(r: Result<seq<T>>)
    ensures Prepend([], r) == r
  {
    if r.Ok? {
      assert [] + r.value == r.value;
    }
  }

  lemma PrependTwice<T>(p: seq<T>, head: seq<T>, r: Result<seq<T>>)
    ensures Prepend(p, Prepend(head, r)) == Prepend(p + head, r)
  {
    if r.Ok? {
      AppendAssoc(p, head, r.value);
    }
  }

  /** Whether `pundit_permission[:associations][type]` exists and includes `assoc`. */
  predicate PermitsAssoc(p: PermissionSet, kind: Action, assoc: Sym)
  {
    var l := Find(p.associations, kind);
    l.Some? && assoc in l.value
  }

  /**
   * `determine_permitted_associations(requested, permission, [], type)`: the
   * requests the type's association list includes, in order.
   */
  function DeterminePermitted(nodes: seq<Node>, permission: PermissionSet, table: Table, kind: Action): (r: Result<seq<Node>>)
    ensures r.Err? ==> r.error == NoMethodError
    decreases nodes
  {
    if nodes == [] then Ok([])
    else
      var head :- PermittedNode(nodes[0], permission, table, kind);
      Prepend(head, DeterminePermitted(nodes[1..], permission, table, kind))
  }

  /** One request: a listed Symbol is kept, a Hash is filtered key by key, anything else is ignored. */
  function PermittedNode(node: Node, permission: PermissionSet, table: Table, kind: Action): (r: Result<seq<Node>>)
    ensures r.Err? ==> r.error == NoMethodError
    decreases node
  {
    match node
    case Name(assoc) => Ok(if PermitsAssoc(permission, kind, assoc) then [Name(assoc)] else [])
    case HashNode(entries) => PermittedEntries(entries, permission, table, kind)
    case OtherNode => Ok([])
  }

  function PermittedEntries(entries: seq<Entry>, permission: PermissionSet, table: Table, kind: Action): (r: Result<seq<Node>>)
    ensures r.Err? ==> r.error == NoMethodError
    decreases entries
  {
    if entries == [] then Ok([])
    else
      var head :- PermittedEntry(entries[0], permission, table, kind);
      Prepend(head, PermittedEntries(entries[1..], permission, table, kind))
  }

  /**
   * One key of a Hash request: a listed key is kept as `{key => [...]}` with
   * its nested requests filtered against the key's stored permission; a kept
   * key with no stored permission Hash (none, or a stored `true`) raises
   * NoMethodError.
   */
  function PermittedEntry(entry: Entry, permission: PermissionSet, table: Table, kind: Action): (r: Result<seq<Node>>)
    ensures r.Err? ==> r.error == NoMethodError
    decreases entry
  {
    if !PermitsAssoc(permission, kind, entry.key) then Ok([])
    else if entry.key !in table || !table[entry.key].Granted? then Err(NoMethodError)
    else
      var child :- DeterminePermitted(entry.children, table[entry.key].value, table, kind);
      Ok([HashNode([Entry(entry.key, child)])])
  }

  /** The names a type's association list includes, in request order. */
  function PermittedNames(names: seq<Sym>, p: PermissionSet, kind: Action): (k: seq<Sym>)
    ensures forall x {:trigger x in k} :: x in k <==> x in names && PermitsAssoc(p, kind, x)
  {
    if names == [] then []
    else
      assert forall x :: x in names[1..] ==> x in names;
      (if PermitsAssoc(p, kind, names[0]) then [names[0]] else []) + PermittedNames(names[1..], p, kind)
  }

  /** A flat list of names is filtered, in order, to those the type grants. */
  lemma {:induction false} DeterminePermittedNames(names: seq<Sym>, p: PermissionSet, table: Table, kind: Action)
    ensures DeterminePermitted(NameList(names), p, table, kind) == Ok(NameList(PermittedNames(names, p, kind)))
    decreases |names|
  {
    if names != [] {
      assert NameList(names)[1..] == NameList(names[1..]);
      DeterminePermittedNames(names[1..], p, table, kind);
      var head := if PermitsAssoc(p, kind, names[0]) then [names[0]] else [];
      assert NameList(head + PermittedNames(names[1..], p, kind)) == NameList(head) + NameList(PermittedNames(names[1..], p, kind));
    }
  }

  lemma {:induction false} PermittedNamesAppend(a: seq<Sym>, b: seq<Sym>, p: PermissionSet, kind: Action)
    ensures PermittedNames(a + b, p, kind) == PermittedNames(a, p, kind) + PermittedNames(b, p, kind)
    decreases |a|
  {
    if a == [] {
      assert a + b == b;
    } else {
      assert (a + b)[0] == a[0];
      assert (a + b)[1..] == a[1..] + b;
      PermittedNamesAppend(a[1..], b, p, kind);
      AppendAssoc(if PermitsAssoc(p, kind, a[0]) then [a[0]] else [], PermittedNames(a[1..], p, kind), PermittedNames(b, p, kind));
    }
  }

  /**
   * Whatever the nesting, the top level of what a type permits is exactly
   * the top-level requests its association list includes, in order.
   */
  lemma {:induction false} PermittedTop(nodes: seq<Node>, p: PermissionSet, table: Table, kind: Action)
    requires DeterminePermitted(nodes, p, table, kind).Ok?
    ensures TopKeys(DeterminePermitted(nodes, p, table, kind).value) == PermittedNames(TopKeys(nodes), p, kind)
    decreases |nodes|
  {
    if nodes != [] {
      var head := PermittedNode(nodes[0], p, table, kind).value;
      var rest := DeterminePermitted(nodes[1..], p, table, kind).value;
      PermittedTop(nodes[1..], p, table, kind);
      TopKeysAppend(head, rest);
      PermittedNamesAppend(NodeTop(nodes[0]), TopKeys(nodes[1..]), p, kind);
      match nodes[0] {
        case Name(n) =>
          assert [n][1..] == [];
          if PermitsAssoc(p, kind, n) {
            assert [Name(n)][1..] == [];
            assert TopKeys(head) == [n] + [];
          }
        case HashNode(entries) =>
          PermittedEntriesTop(entries, p, table, kind);
        case OtherNode =>
      }
    }
  }

  lemma {:induction false} PermittedEntriesTop(entries: seq<Entry>, p: PermissionSet, table: Table, kind: Action)
    requires PermittedEntries(entries, p, table, kind).Ok?
    ensures TopKeys(PermittedEntries(entries, p, table, kind).value) == PermittedNames(EntryKeys(entries), p, kind)
    decreases |entries|
  {
    if entries != [] {
      var head := PermittedEntry(entries[0], p, table, kind).value;
      var rest := PermittedEntries(entries[1..], p, table, kind).value;
      PermittedEntriesTop(entries[1..], p, table, kind);
      TopKeysAppend(head, rest);
      var keys := EntryKeys(entries);
      assert keys[1..] == EntryKeys(entries[1..]);
      assert keys[0] == entries[0].key;
      if PermitsAssoc(p, kind, entries[0].key) {
        assert head[1..] == [];
        assert TopKeys(head) == NodeTop(head[0]) + [];
        assert EntryKeys(head[0].entries) == [entries[0].key];
      }
    }
  }

  /** Without a list for the type nothing is kept, however the requests are nested. */
  lemma {:induction false} NoListKeepsNothing(nodes: seq<Node>, p: PermissionSet, table: Table, kind: Action)
    requires Find(p.associations, kind).None?
    ensures DeterminePermitted(nodes, p, table, kind) == Ok([])
    decreases |nodes|
  {
    if nodes != [] {
      NoListKeepsNothing(nodes[1..], p, table, kind);
      NoListKeepsNode(nodes[0], p, table, kind);
      var none: seq<Node> := [];
      assert none + none == none;
    }
  }

  lemma NoListKeepsNode(node: Node, p: PermissionSet, table: Table, kind: Action)
    requires Find(p.associations, kind).None?
    ensures PermittedNode(node, p, table, kind) == Ok([])
  {
    if node.HashNode? {
      NoListSkipsEntries(node.entries, p, table, kind);
    }
  }

  lemma {:induction false} NoListSkipsEntries(entries: seq<Entry>, p: PermissionSet, table: Table, kind: Action)
    requires Find(p.associations, kind).None?
    ensures PermittedEntries(entries, p, table, kind) == Ok([])
    decreases |entries|
  {
    if entries != [] {
      NoListSkipsEntries(entries[1..], p, table, kind);
      var none: seq<Node> := [];
      assert none + none == none;
    }
  }

  /**
   * A request for `:assoc` against `associations: {show: [:assoc]}` is
   * permitted for show only: `{show: [:assoc], create: [], update: []}`.
   */
  lemma PermittedExample(table: Table)
    ensures var p := PermissionSet([(Show, ["assoc"])], [(Show, ["assoc"])], NoRoleInfo);
      && DeterminePermitted([Name("assoc")], p, table, Show) == Ok([Name("assoc")])
      && DeterminePermitted([Name("assoc")], p, table, Create) == Ok([])
      && DeterminePermitted([Name("assoc")], p, table, Update) == Ok([])
  {
    var p := PermissionSet([(Show, ["assoc"])], [(Show, ["assoc"])], NoRoleInfo);
    assert Find(p.associations, Show) == Some(["assoc"]);
    assert PermitsAssoc(p, Show, "assoc");
    assert [Name("assoc")][1..] == [];
    assert DeterminePermitted([], p, table, Show) == Ok([]);
    assert [Name("assoc")] + [] == [Name("assoc")];
    NoListKeepsNothing([Name("assoc")], p, table, Create);
    NoListKeepsNothing([Name("assoc")], p, table, Update);
  }

  // ---------------------------------------------------------------------------
  // determine_save_permissions

  function AsFields(l: Option<seq<Sym>>): (r: Option<seq<SaveAttr>>)
    ensures r.Some? <==> l.Some?
    ensures r.Some? ==> |r.value| == |l.value| && forall i :: 0 <= i < |l.value| ==> r.value[i] == Field(l.value[i])
  {
    if l.None? then None else Some(Fields(l.value))
  }

  function Fields(l: seq<Sym>): (r: seq<SaveAttr>)
    ensures |r| == |l| && forall i :: 0 <= i < |l| ==> r[i] == Field(l[i])
  {
    if l == [] then [] else [Field(l[0])] + Fields(l[1..])
  }

  /**
   * `determine_save_permissions(permitted, [], type)`: per permitted
   * association one `{"<name>_attributes" => attributes[type]}` entry, in
   * order.
   */
  function DetermineSave(nodes: seq<Node>, table: Table, kind: Action): (r: Result<seq<SaveAttr>>)
    ensures r.Err? ==> r.error == NoMethodError
    decreases nodes
  {
    if nodes == [] then Ok([])
    else
      var head :- SaveNode(nodes[0], table, kind);
      Prepend(head, DetermineSave(nodes[1..], table, kind))
  }

  /** One permitted association; a name with no stored permission Hash raises NoMethodError. */
  function SaveNode(node: Node, table: Table, kind: Action): (r: Result<seq<SaveAttr>>)
    ensures r.Err? ==> r.error == NoMethodError
    ensures node.Name? ==> (r.Err? <==> node.name !in table || !table[node.name].Granted?)
    decreases node
  {
    match node
    case Name(assoc) =>
      if assoc !in table || !table[assoc].Granted? then Err(NoMethodError)
      else Ok([Nested(assoc + "_attributes", AsFields(Find(table[assoc].value.attributes, kind)))])
    case HashNode(entries) => SaveEntries(entries, table, kind)
    case OtherNode => Ok([])
  }

  function SaveEntries(entries: seq<Entry>, table: Table, kind: Action): (r: Result<seq<SaveAttr>>)
    ensures r.Err? ==> r.error == NoMethodError
    decreases entries
  {
    if entries == [] then Ok([])
    else
      var head :- SaveEntry(entries[0], table, kind);
      Prepend(head, SaveEntries(entries[1..], table, kind))
  }

  /**
   * One key of a Hash: its `<key>_attributes` entry, with the entries of its
   * nested associations appended to the key's list; a key with no stored
   * permission Hash, or nested entries under a missing list, raise
   * NoMethodError.
   */
  function SaveEntry(entry: Entry, table: Table, kind: Action): (r: Result<seq<SaveAttr>>)
    ensures r.Err? ==> r.error == NoMethodError
    decreases entry
  {
    var key := entry.key;
    if key !in table || !table[key].Granted? then Err(NoMethodError)
    else
      var base := Find(table[key].value.attributes, kind);
      var nested :- DetermineSave(entry.children, table, kind);
      if nested == [] then Ok([Nested(key + "_attributes", AsFields(base))])
      else if base.None? then Err(NoMethodError)
      else Ok([Nested(key + "_attributes", Some(Fields(base.value) + nested))])
  }

  /**
   * For a flat list of stored names: exactly one `<name>_attributes` entry
   * per name, in order, holding that name's attribute list for the type; a
   * name with no stored permission Hash fails the whole call.
   */
  lemma {:induction false} SaveNames(names: seq<Sym>, table: Table, kind: Action)
    ensures var r := DetermineSave(NameList(names), table, kind);
      && (r.Ok? <==> forall n :: n in names ==> n in table && table[n].Granted?)
      && (r.Ok? ==> |r.value| == |names| && forall i :: 0 <= i < |names| ==>
            r.value[i] == Nested(names[i] + "_attributes", AsFields(Find(table[names[i]].value.attributes, kind))))
    decreases |names|
  {
    if names != [] {
      var n := names[0];
      assert NameList(names)[1..] == NameList(names[1..]);
      assert NameList(names)[0] == Name(n);
      SaveNames(names[1..], table, kind);
      var tail := DetermineSave(NameList(names[1..]), table, kind);
      var r := DetermineSave(NameList(names), table, kind);
      assert (forall m :: m in names ==> m in table && table[m].Granted?) <==> (n in table && table[n].Granted?) && forall m :: m in names[1..] ==> m in table && table[m].Granted? by {
        assert forall m :: m in names <==> m == n || m in names[1..];
      }
      if n in table && table[n].Granted? && tail.Ok? {
        var head := Nested(n + "_attributes", AsFields(Find(table[n].value.attributes, kind)));
        assert r == Ok([head] + tail.value);
        assert forall i :: 1 <= i < |names| ==> r.value[i] == tail.value[i - 1] && names[i] == names[1..][i - 1];
      }
    }
  }


  /** The key of each saved entry, in order. */
  function SaveKeys(attrs: seq<SaveAttr>): (keys: seq<string>)
    ensures |keys| == |attrs|
  {
    if attrs == [] then []
    else [if attrs[0].Nested? then attrs[0].key else attrs[0].name] + SaveKeys(attrs[1..])
  }

  /** `"#{name}_attributes"` for each name, in order. */
  function Suffixed(names: seq<Sym>): (keys: seq<string>)
    ensures |keys| == |names| && forall i :: 0 <= i < |names| ==> keys[i] == names[i] + "_attributes"
  {
    if names == [] then [] else [names[0] + "_attributes"] + Suffixed(names[1..])
  }

  lemma {:induction false} SaveKeysAppend(a: seq<SaveAttr>, b: seq<SaveAttr>)
    ensures SaveKeys(a + b) == SaveKeys(a) + SaveKeys(b)
    decreases |a|
  {
    if a == [] {
      assert a + b == b;
    } else {
      assert (a + b)[0] == a[0];
      assert (a + b)[1..] == a[1..] + b;
      SaveKeysAppend(a[1..], b);
    }
  }

  lemma SuffixedAppend(a: seq<Sym>, b: seq<Sym>)
    ensures Suffixed(a + b) == Suffixed(a) + Suffixed(b)
  {
  }

  /**
   * Whatever the nesting, the saved list holds one `<name>_attributes` entry
   * per top-level permitted association, in order.
   */
  lemma {:induction false} SaveTop(nodes: seq<Node>, table: Table, kind: Action)
    requires DetermineSave(nodes, table, kind).Ok?
    ensures SaveKeys(DetermineSave(nodes, table, kind).value) == Suffixed(TopKeys(nodes))
    decreases |nodes|
  {
    if nodes != [] {
      var head := SaveNode(nodes[0], table, kind).value;
      var rest := DetermineSave(nodes[1..], table, kind).value;
      SaveTop(nodes[1..], table, kind);
      SaveKeysAppend(head, rest);
      SuffixedAppend(NodeTop(nodes[0]), TopKeys(nodes[1..]));
      match nodes[0] {
        case Name(n) =>
          assert [n][1..] == [];
          assert head[1..] == [];
        case HashNode(entries) =>
          SaveEntriesTop(entries, table, kind);
        case OtherNode =>
      }
    }
  }

  lemma {:induction false} SaveEntriesTop(entries: seq<Entry>, table: Table, kind: Action)
    requires SaveEntries(entries, table, kind).Ok?
    ensures SaveKeys(SaveEntries(entries, table, kind).value) == Suffixed(EntryKeys(entries))
    decreases |entries|
  {
    if entries != [] {
      var head := SaveEntry(entries[0], table, kind).value;
      var rest := SaveEntries(entries[1..], table, kind).value;
      SaveEntriesTop(entries[1..], table, kind);
      SaveKeysAppend(head, rest);
      var keys := EntryKeys(entries);
      assert keys[1..] == EntryKeys(entries[1..]);
      assert head[1..] == [];
    }
  }

  // ---------------------------------------------------------------------------
  // authorize_associations!

  /** What the association step leaves behind: the table, the allowed tree and the show/create/update lists. */
  datatype Authorized = Authorized(walked: Walked, show: seq<Node>, create: seq<Node>, update: seq<Node>)

  /**
   * `authorize_associations!`: refuses to run before a primary permission
   * exists, walks the request tree, then filters the allowed tree per action.
   */
  function AuthorizeAssociations(env: Env, primaryResource: ClassName, primary: Verdict<PermissionSet>, requested: seq<Node>, table: Table): (r: Result<Authorized>)
    ensures primary.Deny? ==> r == Err(ArgumentError)
    ensures primary.Allow? ==> r == Err(NoMethodError)
    ensures r.Ok? ==> primary.Granted? && HandleAssociations(env, primaryResource, requested, primary.value, table) == Ok(r.value.walked)
    ensures primary.Granted? && HandleAssociations(env, primaryResource, requested, primary.value, table).Err? ==> r.Err?
    ensures r.Ok? ==> DeterminePermitted(r.value.walked.allowed, primary.value, r.value.walked.table, Show) == Ok(r.value.show)
    ensures r.Ok? ==> DeterminePermitted(r.value.walked.allowed, primary.value, r.value.walked.table, Create) == Ok(r.value.create)
    ensures r.Ok? ==> DeterminePermitted(r.value.walked.allowed, primary.value, r.value.walked.table, Update) == Ok(r.value.update)
  {
    match primary
    case Deny => Err(ArgumentError)
    case Allow => Err(NoMethodError)
    case Granted(p) =>
      var walked :- HandleAssociations(env, primaryResource, requested, p, table);
      var show :- DeterminePermitted(walked.allowed, p, walked.table, Show);
      var create :- DeterminePermitted(walked.allowed, p, walked.table, Create);
      var update :- DeterminePermitted(walked.allowed, p, walked.table, Update);
      Ok(Authorized(walked, show, create, update))
  }

  // ---------------------------------------------------------------------------
  // The loops as written

  /** `format_association_list`: the nested `each` loops filling `permitted_actions`. */
  method FormatAssociationListLoop(h: Entries) returns (pa: map<Sym, seq<Action>>)
    ensures pa == FormatAssociationList(h)
  {
    pa := map[];
    for i := 0 to |h|
      invariant pa == FormatAssociationList(h[..i])
    {
      assert h[..i + 1][..i] == h[..i];
      var (key, associations) := h[i];
      pa := AddActionLoop(pa, key, associations);
    }
    assert h[..|h|] == h;
  }

  lemma AddActionStep(pa: map<Sym, seq<Action>>, key: Action, list: seq<Sym>, j: nat)
    requires j < |list|
    ensures AddAction(pa, key, list[..j + 1]) ==
      AddAction(pa, key, list[..j])[list[j] := Union(ActionsOf(AddAction(pa, key, list[..j]), list[j]), [key])]
  {
    assert list[..j + 1][..j] == list[..j];
  }

  /** The inner loop of `format_association_list`: adds `key` to the actions of every association of `list`. */
  method AddActionLoop(pa: map<Sym, seq<Action>>, key: Action, list: seq<Sym>) returns (r: map<Sym, seq<Action>>)
    ensures r == AddAction(pa, key, list)
  {
    r := pa;
    for j := 0 to |list|
      invariant r == AddAction(pa, key, list[..j])
    {
      AddActionStep(pa, key, list, j);
      r := AddOne(r, key, list[j]);
    }
    assert list[..|list|] == list;
  }

  /** `permitted_actions[ass] = [] unless permitted_actions[ass].present?; permitted_actions[ass] |= [key]`. */
  method AddOne(pa: map<Sym, seq<Action>>, key: Action, ass: Sym) returns (r: map<Sym, seq<Action>>)
    ensures r == pa[ass := Union(ActionsOf(pa, ass), [key])]
  {
    r := pa;
    if ass !in r || r[ass] == [] {
      r := r[ass := []];
    }
    r := r[ass := Union(r[ass], [key])];
  }

  /** `determine_permitted_associations`: appends kept requests while recursing into kept Hash keys. */
  method DeterminePermittedLoop(nodes: seq<Node>, permission: PermissionSet, table: Table, kind: Action) returns (r: Result<seq<Node>>)
    ensures r == DeterminePermitted(nodes, permission, table, kind)
    decreases nodes
  {
    var permitted: seq<Node> := [];
    var i := 0;
    assert nodes[0..] == nodes;
    PrependNothing(DeterminePermitted(nodes, permission, table, kind));
    while i < |nodes|
      invariant 0 <= i <= |nodes|
      invariant DeterminePermitted(nodes, permission, table, kind) == Prepend(permitted, DeterminePermitted(nodes[i..], permission, table, kind))
    {
      assert nodes[i..][1..] == nodes[i + 1..];
      assert nodes[i..][0] == nodes[i];
      var head: seq<Node> := [];
      match nodes[i] {
        case Name(assoc) =>
          if PermitsAssoc(permission, kind, assoc) {
            head := [Name(assoc)];
          }
        case HashNode(entries) =>
          var kept := PermittedEntriesLoop(entries, permission, table, kind);
          if kept.Err? {
            return Err(kept.error);
          }
          head := kept.value;
        case OtherNode =>
      }
      PrependTwice(permitted, head, DeterminePermitted(nodes[i + 1..], permission, table, kind));
      permitted := permitted + head;
      i := i + 1;
    }
    assert nodes[|nodes|..] == [];
    assert permitted + [] == permitted;
    return Ok(permitted);
  }

  /** The inner `assoc.each` of `determine_permitted_associations`. */
  method PermittedEntriesLoop(entries: seq<Entry>, permission: PermissionSet, table: Table, kind: Action) returns (r: Result<seq<Node>>)
    ensures r == PermittedEntries(entries, permission, table, kind)
    decreases entries
  {
    var permitted: seq<Node> := [];
    var j := 0;
    assert entries[0..] == entries;
    PrependNothing(PermittedEntries(entries, permission, table, kind));
    while j < |entries|
      invariant 0 <= j <= |entries|
      invariant PermittedEntries(entries, permission, table, kind) == Prepend(permitted, PermittedEntries(entries[j..], permission, table, kind))
    {
      assert entries[j..][1..] == entries[j + 1..];
      assert entries[j..][0] == entries[j];
      var key := entries[j].key;
      var head: seq<Node> := [];
      if PermitsAssoc(permission, kind, key) {
        if key !in table || !table[key].Granted? {
          return Err(NoMethodError);
        }
        var child := DeterminePermittedLoop(entries[j].children, table[key].value, table, kind);
        if child.Err? {
          return Err(child.error);
        }
        head := [HashNode([Entry(key, child.value)])];
      }
      PrependTwice(permitted, head, PermittedEntries(entries[j + 1..], permission, table, kind));
      permitted := permitted + head;
      j := j + 1;
    }
    assert entries[|entries|..] == [];
    assert permitted + [] == permitted;
    return Ok(permitted);
  }

  /** `determine_save_permissions`: appends one `<name>_attributes` entry per permitted association. */
  method DetermineSaveLoop(nodes: seq<Node>, table: Table, kind: Action) returns (r: Result<seq<SaveAttr>>)
    ensures r == DetermineSave(nodes, table, kind)
    decreases nodes
  {
    var saved: seq<SaveAttr> := [];
    var i := 0;
    assert nodes[0..] == nodes;
    PrependNothing(DetermineSave(nodes, table, kind));
    while i < |nodes|
      invariant 0 <= i <= |nodes|
      invariant DetermineSave(nodes, table, kind) == Prepend(saved, DetermineSave(nodes[i..], table, kind))
    {
      assert nodes[i..][1..] == nodes[i + 1..];
      assert nodes[i..][0] == nodes[i];
      var head: seq<SaveAttr> := [];
      match nodes[i] {
        case Name(assoc) =>
          if assoc !in table || !table[assoc].Granted? {
            return Err(NoMethodError);
          }
          head := [Nested(assoc + "_attributes", AsFields(Find(table[assoc].value.attributes, kind)))];
        case HashNode(entries) =>
          var nested := SaveEntriesLoop(entries, table, kind);
          if nested.Err? {
            return Err(nested.error);
          }
          head := nested.value;
        case OtherNode =>
      }
      PrependTwice(saved, head, DetermineSave(nodes[i + 1..], table, kind));
      saved := saved + head;
      i := i + 1;
    }
    assert nodes[|nodes|..] == [];
    assert saved + [] == saved;
    return Ok(saved);
  }

  /** The inner `assoc.each` of `determine_save_permissions`: the key's entry, then its nested entries appended to its list. */
  method SaveEntriesLoop(entries: seq<Entry>, table: Table, kind: Action) returns (r: Result<seq<SaveAttr>>)
    ensures r == SaveEntries(entries, table, kind)
    decreases entries
  {
    var saved: seq<SaveAttr> := [];
    var j := 0;
    assert entries[0..] == entries;
    PrependNothing(SaveEntries(entries, table, kind));
    while j < |entries|
      invariant 0 <= j <= |entries|
      invariant SaveEntries(entries, table, kind) == Prepend(saved, SaveEntries(entries[j..], table, kind))
    {
      assert entries[j..][1..] == entries[j + 1..];
      assert entries[j..][0] == entries[j];
      var key := entries[j].key;
      if key !in table || !table[key].Granted? {
        return Err(NoMethodError);
      }
      var list := AsFields(Find(table[key].value.attributes, kind));
      var nested := DetermineSaveLoop(entries[j].children, table, kind);
      if nested.Err? {
        return Err(nested.error);
      }
      if nested.value != [] {
        if list.None? {
          return Err(NoMethodError);
        }
        list := Some(list.value + nested.value);
      }
      var head := [Nested(key + "_attributes", list)];
      PrependTwice(saved, head, SaveEntries(entries[j + 1..], table, kind));
      saved := saved + head;
      j := j + 1;
    }
    assert entries[|entries|..] == [];
    assert saved + [] == saved;
    return Ok(saved);
  }

  /**
   * The controller's association state: `@pundit_permission_table`, filled
   * by `fetch_assoc_policy` while `handle_associations` walks the requests.
   */
  class AssociationWalker {
    var permissionTable: Table
    const env: Env

    constructor (env: Env, table: Table)
      ensures this.env == env && permissionTable == table
    {
      this.env := env;
      permissionTable := table;
    }

    /** `handle_associations(record_class, requested, permission, [])`: returns what it appends. */
    method HandleAssociationsLoop(record: ClassName, requested: seq<Node>, permission: PermissionSet) returns (r: Result<seq<Node>>)
      modifies this
      ensures var spec := HandleAssociations(env, record, requested, permission, old(permissionTable));
        && (r.Ok? <==> spec.Ok?)
        && (r.Ok? ==> r.value == spec.value.allowed && permissionTable == spec.value.table)
        && (r.Err? ==> r.error == spec.error)
    {
      var granted := FormatAssociationListLoop(permission.associations);
      r := HandleNodesLoop(record, requested, permission, granted, []);
    }

    /** `handle_associations(record_class, nodes, permission, permitted)`, with `granted` already inverted. */
    method HandleNodesLoop(record: ClassName, nodes: seq<Node>, permission: PermissionSet, granted: map<Sym, seq<Action>>, permitted0: seq<Node>) returns (r: Result<seq<Node>>)
      modifies this
      ensures var spec := HandleNodes(env, record, nodes, permission, granted, Walked(old(permissionTable), permitted0));
        && (r.Ok? <==> spec.Ok?)
        && (r.Ok? ==> r.value == spec.value.allowed && permissionTable == spec.value.table)
        && (r.Err? ==> r.error == spec.error)
      decreases nodes
    {
      var permitted := permitted0;
      var i := 0;
      assert nodes[0..] == nodes;
      while i < |nodes|
        invariant 0 <= i <= |nodes|
        invariant HandleNodes(env, record, nodes, permission, granted, Walked(old(permissionTable), permitted0)) ==
          HandleNodes(env, record, nodes[i..], permission, granted, Walked(permissionTable, permitted))
      {
        assert nodes[i..][1..] == nodes[i + 1..];
        assert nodes[i..][0] == nodes[i];
        match nodes[i] {
          case Name(assoc) =>
            if assoc in granted {
              var constant := AssocConstant(env, record, assoc);
              if constant.Err? {
                return Err(constant.error);
              }
              var ok := FetchAssocPolicy(constant.value, assoc, permission, granted[assoc]);
              if ok.Fail? {
                return Err(ok.error);
              }
              permitted := permitted + [Name(assoc)];
            }
          case HashNode(entries) =>
            var next := HandleEntriesLoop(record, entries, permission, granted, permitted);
            if next.Err? {
              return Err(next.error);
            }
            permitted := next.value;
          case OtherNode =>
            return Err(ArgumentError);
        }
        i := i + 1;
      }
      assert nodes[|nodes|..] == [];
      return Ok(permitted);
    }

    /** The inner `assoc.each` of `handle_associations`, recursing into each granted key's nested requests. */
    method HandleEntriesLoop(record: ClassName, entries: seq<Entry>, permission: PermissionSet, granted: map<Sym, seq<Action>>, permitted0: seq<Node>) returns (r: Result<seq<Node>>)
      modifies this
      ensures var spec := HandleEntries(env, record, entries, permission, granted, Walked(old(permissionTable), permitted0));
        && (r.Ok? <==> spec.Ok?)
        && (r.Ok? ==> r.value == spec.value.allowed && permissionTable == spec.value.table)
        && (r.Err? ==> r.error == spec.error)
      decreases entries
    {
      var permitted := permitted0;
      var j := 0;
      assert entries[0..] == entries;
      while j < |entries|
        invariant 0 <= j <= |entries|
        invariant HandleEntries(env, record, entries, permission, granted, Walked(old(permissionTable), permitted0)) ==
          HandleEntries(env, record, entries[j..], permission, granted, Walked(permissionTable, permitted))
      {
        assert entries[j..][1..] == entries[j + 1..];
        assert entries[j..][0] == entries[j];
        var key := entries[j].key;
        if key in granted {
          var constant := AssocConstant(env, record, key);
          if constant.Err? {
            return Err(constant.error);
          }
          var ok := FetchAssocPolicy(constant.value, key, permission, granted[key]);
          if ok.Fail? {
            return Err(ok.error);
          }
          var answer := permissionTable[key];
          if !answer.Granted? {
            return Err(NoMethodError);
          }
          var child := answer.value;
          var childGranted := FormatAssociationListLoop(child.associations);
          var nested := HandleNodesLoop(constant.value, entries[j].children, child, childGranted, []);
          if nested.Err? {
            return Err(nested.error);
          }
          permitted := permitted + [HashNode([Entry(key, nested.value)])];
        }
        j := j + 1;
      }
      assert entries[|entries|..] == [];
      return Ok(permitted);
    }

    /** `fetch_assoc_policy`: stores the child policy's answer under the association's name. */
    method FetchAssocPolicy(constant: ClassName, assoc: Sym, permission: PermissionSet, actions: seq<Action>) returns (outcome: Outcome)
      modifies this
      ensures var spec := Fetch(env, constant, assoc, permission, actions, old(permissionTable));
        && (outcome.Pass? <==> spec.Ok?)
        && (outcome.Pass? ==> permissionTable == spec.value)
        && (outcome.Fail? ==> outcome.error == spec.error && permissionTable == old(permissionTable))
    {
      var roles := AssociatedRoles(permission, assoc);
      if roles.Err? {
        return Fail(roles.error);
      }
      var answer := env.resolve(constant, roles.value, actions);
      if answer.Deny? {
        return Fail(NotAuthorized);
      }
      permissionTable := permissionTable[assoc := answer];
      return Pass;
    }
  }
}
