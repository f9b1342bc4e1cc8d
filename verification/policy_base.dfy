/**
 * `Policy::Base#resolve_query`: a query answers `true`/`false` directly or
 * names candidate roles; a guest user is served by the guest role alone;
 * otherwise every satisfied candidate contributes its grant, one grant is
 * returned as it is, and several are merged key by key with `|`.
 */
module PolicyBase {
  import opened Types
  import opened RubyArray
  import RoleBase
  import Defaults
  import PolicyDefaults

  /** What `resolve_query` answers with the roles it used: none (guest), one name, or the merged list. */
  datatype RolesTag = NoRoles | One(name: RoleName) | Merged(names: seq<RoleName>)

  /** A permission Hash: `{attributes: ..., associations: ..., roles: ...}`. */
  datatype Permissions = Permissions(attributes: FieldMap, associations: FieldMap, roles: RolesTag)

  /** What the query method returns: a boolean, the list built by `allow(*roles)`, or some other object. */
  datatype QueryResult = Boolean(b: bool) | Candidates(roles: seq<RoleName>) | NonList

  /**
   * The policy as `resolve_query` sees it: the user, the class-level
   * `permissions_hash` and role constants, the answers of the policy's own
   * predicate methods, and what the role builders read from it.
   */
  datatype Policy = Policy(
    user: Option<string>,
    permissionsHash: Option<map<RoleName, RoleOptions>>,
    roleClasses: map<ClassName, RoleClass>,
    classify: string -> string,
    predicates: map<string, bool>,
    ctx: Context)

  /** `allow(*roles)`: the candidate list, exactly as given. */
  function AllowList(roles: seq<RoleName>): (q: QueryResult)
    ensures q.Candidates? && q.roles == roles
  {
    Candidates(roles)
  }

  /** The predicates every policy inherits, with their answers. */
  function Inherited(p: Policy, name: string): Option<bool>
  {
    if name == "user_guest?" then Some(Defaults.UserGuest(p.user))
    else if name == "default_authorization?" then Some(Defaults.DefaultAuthorization())
    else if name == "index?" then Some(PolicyDefaults.OperationDefault(PolicyDefaults.Index))
    else if name == "show?" then Some(PolicyDefaults.OperationDefault(PolicyDefaults.ShowQuery))
    else if name == "create?" then Some(PolicyDefaults.OperationDefault(PolicyDefaults.CreateQuery))
    else if name == "update?" then Some(PolicyDefaults.OperationDefault(PolicyDefaults.UpdateQuery))
    else if name == "destroy?" then Some(PolicyDefaults.OperationDefault(PolicyDefaults.Destroy))
    else None
  }

  /** `policy.send(name)`: the policy's own method wins over an inherited one; an unknown name raises NoMethodError. */
  function Call(p: Policy, name: string): (r: Result<bool>)
    ensures name in p.predicates ==> r == Ok(p.predicates[name])
    ensures name !in p.predicates && name == "user_guest?" ==> r == Ok(p.user.None?)
    ensures name !in p.predicates && name == "default_authorization?" ==> r == Ok(false)
    ensures name !in p.predicates && Inherited(p, name).None? ==> r == Err(NoMethodError)
  {
    if name in p.predicates then Ok(p.predicates[name])
    else match Inherited(p, name)
      case Some(b) => Ok(b)
      case None => Err(NoMethodError)
  }

  /** `test_condition`: the answer of the predicate the role class was declared with. */
  function TestCondition(p: Policy, cls: RoleClass): (r: Result<bool>)
    ensures cls.authorizeWith in p.predicates ==> r == Ok(p.predicates[cls.authorizeWith])
    ensures cls.authorizeWith == "user_guest?" && "user_guest?" !in p.predicates ==> (r == Ok(true) <==> p.user.None?)
  {
    Call(p, cls.authorizeWith)
  }

  /** `permissions_hash[role]`: a role with no entry has nil options. */
  function OptionsOf(table: map<RoleName, RoleOptions>, role: RoleName): RoleOptions
  {
    if role in table then table[role] else NoOptions
  }

  /** The role names of an insertion-ordered Hash, in order. */
  function Names(entries: seq<(RoleName, Grant)>): (names: seq<RoleName>)
    ensures |names| == |entries|
    ensures forall i :: 0 <= i < |entries| ==> names[i] == entries[i].0
  {
    if entries == [] then [] else Names(entries[..|entries| - 1]) + [entries[|entries| - 1].0]
  }

  /** The position of `name` in an insertion-ordered Hash that holds it. */
  function Find(entries: seq<(RoleName, Grant)>, name: RoleName): (i: nat)
    requires name in Names(entries)
    ensures i < |entries| && entries[i].0 == name
    decreases |entries|
  {
    if entries[|entries| - 1].0 == name then |entries| - 1
    else
      assert Names(entries) == Names(entries[..|entries| - 1]) + [entries[|entries| - 1].0];
      Find(entries[..|entries| - 1], name)
  }

  /** `current_roles[name] = grant`: an existing key keeps its position and takes the new value. */
  function Put(entries: seq<(RoleName, Grant)>, name: RoleName, g: Grant): (r: seq<(RoleName, Grant)>)
    ensures name in Names(entries) ==> Names(r) == Names(entries)
    ensures name !in Names(entries) ==> Names(r) == Names(entries) + [name]
    ensures forall i :: 0 <= i < |r| ==> r[i] == (name, g) || (i < |entries| && r[i] == entries[i])
  {
    if name in Names(entries) then
      var r := entries[Find(entries, name) := (name, g)];
      assert Names(r) == Names(entries);
      r
    else
      var r := entries + [(name, g)];
      assert Names(r) == Names(entries) + [name];
      r
  }

  /**
   * The scan of `resolve_query`: `:guest` is skipped; a candidate without a
   * role class raises NoMethodError, since the rescue builds its message from
   * `current_role[:role]` while `current_role` is still nil; one whose
   * predicate is missing re-raises NoMethodError; a satisfied candidate's
   * grant is stored under its name, so the names seen so far stay a prefix.
   */
  function Scan(p: Policy, table: map<RoleName, RoleOptions>, candidates: seq<RoleName>, current: seq<(RoleName, Grant)>): (r: Result<seq<(RoleName, Grant)>>)
    ensures r.Ok? ==> Names(current) <= Names(r.value)
    decreases |candidates|
  {
    if candidates == [] then Ok(current)
    else
      var role := candidates[0];
      if role == "guest" then Scan(p, table, candidates[1..], current)
      else if p.classify(role) !in p.roleClasses then Err(NoMethodError)
      else
        var satisfied :- TestCondition(p, p.roleClasses[p.classify(role)]);
        if satisfied then
          var g :- RoleBase.Permitted(p.ctx, OptionsOf(table, role));
          Scan(p, table, candidates[1..], Put(current, role, g))
        else Scan(p, table, candidates[1..], current)
  }

  /** Whether a candidate (other than `:guest`) has a role class whose predicate answers `true`. */
  predicate Satisfies(p: Policy, role: RoleName)
  {
    role != "guest" && p.classify(role) in p.roleClasses && TestCondition(p, p.roleClasses[p.classify(role)]) == Ok(true)
  }

  /** The satisfied candidates, in order, repeats included. */
  function Satisfied(p: Policy, candidates: seq<RoleName>): (s: seq<RoleName>)
    ensures forall r {:trigger r in s} :: r in s <==> r in candidates && Satisfies(p, r)
    decreases |candidates|
  {
    if candidates == [] then []
    else (if Satisfies(p, candidates[0]) then [candidates[0]] else []) + Satisfied(p, candidates[1..])
  }

  /**
   * `unique_merge` over the grants seen so far: the roles in order, and for
   * each type every action that any grant names, its lists unioned with `|`.
   */
  function MergeFold(roles: seq<(RoleName, Grant)>): (r: Permissions)
    ensures r.roles == Merged(Names(roles))
    decreases |roles|
  {
    if roles == [] then Permissions(map[], map[], Merged([]))
    else
      var prev := MergeFold(roles[..|roles| - 1]);
      var (name, g) := roles[|roles| - 1];
      Permissions(
        MergeActions(prev.attributes, g.attributes),
        MergeActions(prev.associations, g.associations),
        Merged(prev.roles.names + [name]))
  }

  /** `actions.each { |key, value| merged[key] ||= []; merged[key] |= value }`. */
  function MergeActions(merged: FieldMap, actions: FieldMap): (r: FieldMap)
    ensures r.Keys == merged.Keys + actions.Keys
  {
    map k | k in merged.Keys + actions.Keys :: if k in actions then Union(Get(merged, k), actions[k]) else merged[k]
  }

  /**
   * `resolve_query(query)`: a boolean answer passes through; otherwise a
   * guest user gets the guest grant (or `false` when `:guest` is not a
   * candidate), and any other user the merge of the satisfied candidates.
   */
  function Resolve(p: Policy, query: QueryResult): (r: Result<Verdict<Permissions>>)
    ensures query.Boolean? ==> r == Ok(if query.b then Allow else Deny)
    ensures !query.Boolean? && "Guest" !in p.roleClasses ==> r == Err(NameError)
    ensures !query.Boolean? && "Guest" in p.roleClasses && p.permissionsHash.None? ==> r == Err(NoMethodError)
    ensures (&& query.Candidates? && "Guest" in p.roleClasses && p.permissionsHash.Some?
             && TestCondition(p, p.roleClasses["Guest"]) == Ok(false) && query.roles != []
             && query.roles[0] != "guest" && p.classify(query.roles[0]) !in p.roleClasses)
      ==> r == Err(NoMethodError)
  {
    if query.Boolean? then Ok(if query.b then Allow else Deny)
    else if "Guest" !in p.roleClasses then Err(NameError)
    else if p.permissionsHash.None? then Err(NoMethodError)
    else
      var table := p.permissionsHash.value;
      var guest :- TestCondition(p, p.roleClasses["Guest"]);
      match query
      case NonList => Err(NoMethodError)
      case Candidates(roles) =>
        if guest then
          if "guest" in roles then
            var g :- RoleBase.Permitted(p.ctx, OptionsOf(table, "guest"));
            Ok(Granted(Permissions(g.attributes, g.associations, NoRoles)))
          else Ok(Deny)
        else
          var current :- Scan(p, table, roles, []);
          if |current| == 0 then Ok(Deny)
          else if |current| == 1 then
            Ok(Granted(Permissions(current[0].1.attributes, current[0].1.associations, One(current[0].0))))
          else Ok(Granted(MergeFold(current)))
  }

  // ---------------------------------------------------------------------------
  // The scan and the merge

  /**
   * A successful scan holds each satisfied candidate once, in the order it was
   * first satisfied, with the grant its options build.
   */
  lemma {:induction false} ScanNames(p: Policy, table: map<RoleName, RoleOptions>, candidates: seq<RoleName>, current: seq<(RoleName, Grant)>)
    requires NoDup(Names(current))
    requires Scan(p, table, candidates, current).Ok?
    ensures Names(Scan(p, table, candidates, current).value) == Dedup(Names(current) + Satisfied(p, candidates))
    decreases |candidates|
  {
    if candidates == [] {
      assert Names(current) + [] == Names(current);
      DedupOfNoDup(Names(current));
    } else {
      var role := candidates[0];
      var rest := candidates[1..];
      var n := Names(current);
      if !Satisfies(p, role) {
        if role == "guest" {
          ScanNames(p, table, rest, current);
        } else {
          ScanNames(p, table, rest, current);
        }
        assert Satisfied(p, candidates) == Satisfied(p, rest);
      } else {
        var g := RoleBase.Permitted(p.ctx, OptionsOf(table, role)).value;
        var next := Put(current, role, g);
        PutNoDup(current, role, g);
        ScanNames(p, table, rest, next);
        assert Satisfied(p, candidates) == [role] + Satisfied(p, rest);
        ScanStep(n, Names(next), role, Satisfied(p, rest));
      }
    }
  }

  lemma PutNoDup(current: seq<(RoleName, Grant)>, role: RoleName, g: Grant)
    requires NoDup(Names(current))
    ensures NoDup(Names(Put(current, role, g)))
    ensures Names(Put(current, role, g)) == Dedup(Names(current) + [role])
  {
    var n := Names(current);
    DedupNoDup(n + [role]);
    DedupSnoc(n, role);
    DedupOfNoDup(n);
    if role !in n {
      NoDupSnoc(n, role);
    }
  }

  lemma ScanStep(n: seq<RoleName>, next: seq<RoleName>, role: RoleName, rest: seq<RoleName>)
    requires next == Dedup(n + [role])
    ensures Dedup(next + rest) == Dedup(n + ([role] + rest))
  {
    DedupAppend(n + [role], rest);
    AppendAssoc(n, [role], rest);
  }

  /** Every entry of a successful scan holds the grant built from that role's stored options. */
  lemma {:induction false} ScanGrants(p: Policy, table: map<RoleName, RoleOptions>, candidates: seq<RoleName>, current: seq<(RoleName, Grant)>)
    requires forall i :: 0 <= i < |current| ==> RoleBase.Permitted(p.ctx, OptionsOf(table, current[i].0)) == Ok(current[i].1)
    requires Scan(p, table, candidates, current).Ok?
    ensures var r := Scan(p, table, candidates, current).value;
      forall i :: 0 <= i < |r| ==> RoleBase.Permitted(p.ctx, OptionsOf(table, r[i].0)) == Ok(r[i].1)
    decreases |candidates|
  {
    if candidates != [] {
      var role := candidates[0];
      if role != "guest" && TestCondition(p, p.roleClasses[p.classify(role)]) == Ok(true) {
        var g := RoleBase.Permitted(p.ctx, OptionsOf(table, role)).value;
        PutGrants(p, table, current, role, g);
        ScanGrants(p, table, candidates[1..], Put(current, role, g));
      } else {
        ScanGrants(p, table, candidates[1..], current);
      }
    }
  }

  lemma PutGrants(p: Policy, table: map<RoleName, RoleOptions>, current: seq<(RoleName, Grant)>, role: RoleName, g: Grant)
    requires forall i :: 0 <= i < |current| ==> RoleBase.Permitted(p.ctx, OptionsOf(table, current[i].0)) == Ok(current[i].1)
    requires RoleBase.Permitted(p.ctx, OptionsOf(table, role)) == Ok(g)
    ensures var r := Put(current, role, g);
      forall i :: 0 <= i < |r| ==> RoleBase.Permitted(p.ctx, OptionsOf(table, r[i].0)) == Ok(r[i].1)
  {
  }

  /** The keys a type's map has in any of the grants. */
  function KeysOf(roles: seq<(RoleName, Grant)>, kind: Kind): set<Action>
    decreases |roles|
  {
    if roles == [] then {} else KeysOf(roles[..|roles| - 1], kind) + KindMap(roles[|roles| - 1].1, kind).Keys
  }

  /** All the grants' lists for one action and type, concatenated in role order. */
  function Collected(roles: seq<(RoleName, Grant)>, kind: Kind, a: Action): seq<Sym>
    decreases |roles|
  {
    if roles == [] then [] else Collected(roles[..|roles| - 1], kind, a) + Get(KindMap(roles[|roles| - 1].1, kind), a)
  }

  function MergedMap(m: Permissions, kind: Kind): FieldMap
  {
    match kind
    case Attributes => m.attributes
    case Associations => m.associations
  }

  /**
   * The merge, stated independently of its loop: the roles in order; for each
   * type, exactly the actions some grant names; each list the first
   * occurrences of everything the grants list for it, in role order.
   */
  lemma {:induction false} MergeFoldSpec(roles: seq<(RoleName, Grant)>, kind: Kind, a: Action)
    ensures MergeFold(roles).roles == Merged(Names(roles))
    ensures MergedMap(MergeFold(roles), kind).Keys == KeysOf(roles, kind)
    ensures a in KeysOf(roles, kind) ==> MergedMap(MergeFold(roles), kind)[a] == Dedup(Collected(roles, kind, a))
    ensures a !in KeysOf(roles, kind) ==> Collected(roles, kind, a) == []
    decreases |roles|
  {
    if roles != [] {
      var init := roles[..|roles| - 1];
      MergeFoldSpec(init, kind, a);
      var m := MergedMap(MergeFold(init), kind);
      var n := KindMap(roles[|roles| - 1].1, kind);
      var c := Collected(init, kind, a);
      if a in n {
        if a in m {
          DedupAppend(c, n[a]);
        } else {
          assert c + n[a] == n[a];
        }
      } else if a in m {
        assert c + [] == c;
      }
    }
  }

  /** Merged lists repeat nothing and hold exactly what some satisfied role grants for that action. */
  lemma MergedContents(roles: seq<(RoleName, Grant)>, kind: Kind, a: Action, x: Sym)
    requires a in MergedMap(MergeFold(roles), kind)
    ensures NoDup(MergedMap(MergeFold(roles), kind)[a])
    ensures x in MergedMap(MergeFold(roles), kind)[a] <==> x in Collected(roles, kind, a)
  {
    MergeFoldSpec(roles, kind, a);
    DedupNoDup(Collected(roles, kind, a));
  }

  // ---------------------------------------------------------------------------
  // Consequences for `resolve_query`

  /**
   * With a guest user the result depends on `:guest` alone: its grant, with
   * no roles attached, when it is a candidate, and `false` otherwise.
   */
  lemma GuestExclusive(p: Policy, roles: seq<RoleName>)
    requires "Guest" in p.roleClasses && p.permissionsHash.Some?
    requires TestCondition(p, p.roleClasses["Guest"]) == Ok(true)
    ensures "guest" !in roles ==> Resolve(p, Candidates(roles)) == Ok(Deny)
    ensures "guest" in roles ==>
      var g := RoleBase.Permitted(p.ctx, OptionsOf(p.permissionsHash.value, "guest"));
      Resolve(p, Candidates(roles)) == if g.Err? then Err(g.error) else Ok(Granted(Permissions(g.value.attributes, g.value.associations, NoRoles)))
  {
  }

  /**
   * For any other user: no satisfied candidate means `false`; one means its
   * grant with its name; several mean the merge, whose roles are the
   * satisfied candidates, each once, in the order first satisfied.
   */
  lemma ResolveRoles(p: Policy, roles: seq<RoleName>)
    requires "Guest" in p.roleClasses && p.permissionsHash.Some?
    requires TestCondition(p, p.roleClasses["Guest"]) == Ok(false)
    requires Scan(p, p.permissionsHash.value, roles, []).Ok?
    ensures var s := Dedup(Satisfied(p, roles));
      var r := Resolve(p, Candidates(roles));
      && (s == [] ==> r == Ok(Deny))
      && (|s| == 1 ==> r.Ok? && r.value.Granted? && r.value.value.roles == One(s[0]))
      && (|s| >= 2 ==> r.Ok? && r.value.Granted? && r.value.value.roles == Merged(s))
    ensures var table := p.permissionsHash.value;
      var scan := Scan(p, table, roles, []).value;
      && Names(scan) == Dedup(Satisfied(p, roles))
      && (forall i :: 0 <= i < |scan| ==> RoleBase.Permitted(p.ctx, OptionsOf(table, scan[i].0)) == Ok(scan[i].1))
      && (|scan| >= 2 ==> Resolve(p, Candidates(roles)) == Ok(Granted(MergeFold(scan))))
  {
    var table := p.permissionsHash.value;
    ScanNames(p, table, roles, []);
    ScanGrants(p, table, roles, []);
    assert Names([]) + Satisfied(p, roles) == Satisfied(p, roles);
    var current := Scan(p, table, roles, []).value;
    var r := Resolve(p, Candidates(roles));
    if |current| == 0 {
      assert r == Ok(Deny);
    } else if |current| == 1 {
      assert r == Ok(Granted(Permissions(current[0].1.attributes, current[0].1.associations, One(current[0].0))));
    } else {
      assert r == Ok(Granted(MergeFold(current)));
      MergeFoldSpec(current, Attributes, Show);
    }
  }

  /** Scanning `a + b` is scanning `a`, then `b` from where that stopped. */
  lemma {:induction false} ScanAppend(p: Policy, table: map<RoleName, RoleOptions>, a: seq<RoleName>, b: seq<RoleName>, current: seq<(RoleName, Grant)>)
    ensures Scan(p, table, a + b, current) ==
      match Scan(p, table, a, current)
      case Err(e) => Err(e)
      case Ok(c) => Scan(p, table, b, c)
    decreases |a|
  {
    if a == [] {
      assert a + b == b;
    } else {
      assert (a + b)[0] == a[0];
      assert (a + b)[1..] == a[1..] + b;
      var role := a[0];
      if role == "guest" {
        ScanAppend(p, table, a[1..], b, current);
      } else if p.classify(role) in p.roleClasses {
        var satisfied := TestCondition(p, p.roleClasses[p.classify(role)]);
        if satisfied == Ok(true) {
          var g := RoleBase.Permitted(p.ctx, OptionsOf(table, role));
          if g.Ok? {
            ScanAppend(p, table, a[1..], b, Put(current, role, g.value));
          }
        } else if satisfied == Ok(false) {
          ScanAppend(p, table, a[1..], b, current);
        }
      }
    }
  }

  /**
   * For a user who is not a guest, a candidate with no role class that the
   * scan reaches makes `resolve_query` raise NoMethodError, whatever follows.
   */
  lemma UndefinedRoleFails(p: Policy, roles: seq<RoleName>, i: nat)
    requires "Guest" in p.roleClasses && p.permissionsHash.Some?
    requires TestCondition(p, p.roleClasses["Guest"]) == Ok(false)
    requires i < |roles| && roles[i] != "guest" && p.classify(roles[i]) !in p.roleClasses
    requires Scan(p, p.permissionsHash.value, roles[..i], []).Ok?
    ensures Resolve(p, Candidates(roles)) == Err(NoMethodError)
  {
    var table := p.permissionsHash.value;
    ScanAppend(p, table, roles[..i], roles[i..], []);
    assert roles[..i] + roles[i..] == roles;
    assert roles[i..][0] == roles[i];
  }

  /** A satisfied single role is returned with exactly the grant its options build. */
  lemma SingleRoleVerbatim(p: Policy, roles: seq<RoleName>)
    requires "Guest" in p.roleClasses && p.permissionsHash.Some?
    requires TestCondition(p, p.roleClasses["Guest"]) == Ok(false)
    requires Scan(p, p.permissionsHash.value, roles, []).Ok?
    requires |Dedup(Satisfied(p, roles))| == 1
    ensures var name := Dedup(Satisfied(p, roles))[0];
      var g := RoleBase.Permitted(p.ctx, OptionsOf(p.permissionsHash.value, name));
      g.Ok? && Resolve(p, Candidates(roles)) == Ok(Granted(Permissions(g.value.attributes, g.value.associations, One(name))))
  {
    var table := p.permissionsHash.value;
    ScanNames(p, table, roles, []);
    assert Names([]) + Satisfied(p, roles) == Satisfied(p, roles);
    ScanGrants(p, table, roles, []);
  }

  /**
   * Two roles declaring `show: [:basic, :attributes]` and
   * `show: [:enhanced, :attributes], create: [:enhanced, :attributes]` merge to
   * `show: [:basic, :attributes, :enhanced]` and `create: [:enhanced, :attributes]`.
   */
  lemma MergeExample()
    ensures var basic := Grant(map[Show := ["basic", "attributes"]], map[]);
      var enhanced := Grant(map[Show := ["enhanced", "attributes"], Create := ["enhanced", "attributes"]], map[]);
      MergeFold([("basic_role", basic), ("enhanced_role", enhanced)]).attributes ==
        map[Show := ["basic", "attributes", "enhanced"], Create := ["enhanced", "attributes"]]
  {
    var basic := Grant(map[Show := ["basic", "attributes"]], map[]);
    var enhanced := Grant(map[Show := ["enhanced", "attributes"], Create := ["enhanced", "attributes"]], map[]);
    var roles := [("basic_role", basic), ("enhanced_role", enhanced)];
    assert roles[..1] == [("basic_role", basic)];
    MergeExampleFirst(basic);
    MergeExampleSecond();
  }

  lemma MergeExampleFirst(basic: Grant)
    requires basic.attributes == map[Show := ["basic", "attributes"]]
    ensures MergeFold([("basic_role", basic)]).attributes == map[Show := ["basic", "attributes"]]
  {
    assert [("basic_role", basic)][..0] == [];
    UnionExampleBasic();
    MergeShowOnly(["basic", "attributes"], ["basic", "attributes"]);
  }

  lemma MergeShowOnly(shown: seq<Sym>, shownAfter: seq<Sym>)
    requires Union([], shown) == shownAfter
    ensures MergeActions(map[], map[Show := shown]) == map[Show := shownAfter]
  {
    var m := MergeActions(map[], map[Show := shown]);
    MergeAt(map[], map[Show := shown], Show);
    assert m.Keys == {Show};
    assert m == map[Show := shownAfter];
  }

  lemma UnionExampleBasic()
    ensures Union([], ["basic", "attributes"]) == ["basic", "attributes"]
  {
    assert [] + ["basic", "attributes"] == ["basic", "attributes"];
    assert ["basic", "attributes"][..1] == ["basic"];
    assert ["basic"][..0] == [];
    assert "attributes" != "basic";
  }

  lemma MergeExampleSecond()
    ensures MergeActions(map[Show := ["basic", "attributes"]], map[Show := ["enhanced", "attributes"], Create := ["enhanced", "attributes"]]) ==
      map[Show := ["basic", "attributes", "enhanced"], Create := ["enhanced", "attributes"]]
  {
    UnionExampleShow();
    UnionExampleCreate();
    MergeShowCreate(["basic", "attributes"], ["enhanced", "attributes"], ["basic", "attributes", "enhanced"], ["enhanced", "attributes"]);
  }

  lemma MergeShowCreate(shown: seq<Sym>, added: seq<Sym>, shownAfter: seq<Sym>, created: seq<Sym>)
    requires Union(shown, added) == shownAfter && Union([], added) == created
    ensures MergeActions(map[Show := shown], map[Show := added, Create := added]) == map[Show := shownAfter, Create := created]
  {
    var merged := map[Show := shown];
    var actions := map[Show := added, Create := added];
    var m := MergeActions(merged, actions);
    MergeAt(merged, actions, Show);
    MergeAt(merged, actions, Create);
    assert Get(merged, Create) == [];
    TwoKeys(m, Show, Create);
  }

  /** A map with exactly the keys `a` and `b` is the display of its two entries. */
  lemma TwoKeys(m: FieldMap, a: Action, b: Action)
    requires a != b && m.Keys == {a, b}
    ensures m == map[a := m[a], b := m[b]]
  {
  }

  lemma MergeAt(merged: FieldMap, actions: FieldMap, a: Action)
    requires a in actions
    ensures MergeActions(merged, actions)[a] == Union(Get(merged, a), actions[a])
  {
  }

  lemma UnionExampleShow()
    ensures Union(["basic", "attributes"], ["enhanced", "attributes"]) == ["basic", "attributes", "enhanced"]
  {
    var show := ["basic", "attributes"] + ["enhanced", "attributes"];
    assert show[..3] == ["basic", "attributes", "enhanced"];
    assert show[..3][..2] == ["basic", "attributes"];
    assert show[..3][..2][..1] == ["basic"];
    assert ["basic"][..0] == [];
    assert Dedup(["basic"]) == ["basic"];
    assert "attributes" != "basic";
    assert Dedup(["basic", "attributes"]) == ["basic", "attributes"];
    assert "enhanced" != "basic" && "enhanced" != "attributes";
    assert Dedup(show[..3]) == ["basic", "attributes", "enhanced"];
    assert show[3] == "attributes";
  }

  lemma UnionExampleCreate()
    ensures Union([], ["enhanced", "attributes"]) == ["enhanced", "attributes"]
  {
    assert [] + ["enhanced", "attributes"] == ["enhanced", "attributes"];
    assert ["enhanced", "attributes"][..1] == ["enhanced"];
    assert ["enhanced"][..0] == [];
    assert "attributes" != "enhanced";
  }

  // ---------------------------------------------------------------------------
  // The loops as written

  /** `actions.each`: unions each action's list into the merged map. */
  method MergeActionsLoop(merged: FieldMap, actions: FieldMap) returns (r: FieldMap)
    ensures r == MergeActions(merged, actions)
  {
    r := merged;
    var todo := actions.Keys;
    while todo != {}
      invariant todo <= actions.Keys
      invariant MergedExcept(merged, actions, todo, r)
      decreases todo
    {
      var key :| key in todo;
      MergedStep(merged, actions, todo, r, key);
      r := r[key := Union(Get(r, key), actions[key])];
      todo := todo - {key};
    }
    MergedDone(merged, actions, r);
  }

  /** The loop's state: every action outside `todo` merged, the rest as before. */
  predicate MergedExcept(merged: FieldMap, actions: FieldMap, todo: set<Action>, r: FieldMap)
  {
    && r.Keys == merged.Keys + (actions.Keys - todo)
    && forall k :: k in r ==> r[k] == if k in actions && k !in todo then Union(Get(merged, k), actions[k]) else merged[k]
  }

  lemma MergedStep(merged: FieldMap, actions: FieldMap, todo: set<Action>, r: FieldMap, key: Action)
    requires key in todo && todo <= actions.Keys
    requires MergedExcept(merged, actions, todo, r)
    ensures MergedExcept(merged, actions, todo - {key}, r[key := Union(Get(r, key), actions[key])])
  {
    assert Get(r, key) == Get(merged, key);
  }

  lemma MergedDone(merged: FieldMap, actions: FieldMap, r: FieldMap)
    requires MergedExcept(merged, actions, {}, r)
    ensures r == MergeActions(merged, actions)
  {
    assert r == MergeActions(merged, actions);
  }

  /** `unique_merge(roles)`: walks the satisfied roles in order, appending names and unioning lists. */
  method UniqueMerge(roles: seq<(RoleName, Grant)>) returns (merged: Permissions)
    ensures merged == MergeFold(roles)
  {
    merged := Permissions(map[], map[], Merged([]));
    var i := 0;
    while i < |roles|
      invariant 0 <= i <= |roles|
      invariant merged == MergeFold(roles[..i])
    {
      assert roles[..i + 1][..i] == roles[..i];
      var (name, option) := roles[i];
      var attributes := MergeActionsLoop(merged.attributes, option.attributes);
      var associations := MergeActionsLoop(merged.associations, option.associations);
      merged := Permissions(attributes, associations, Merged(merged.roles.names + [name]));
      i := i + 1;
    }
    assert roles[..i] == roles;
  }

  /** `resolve_query(query)` as written: the guest check, then the scan filling `current_roles`. */
  method ResolveQuery(p: Policy, query: QueryResult) returns (r: Result<Verdict<Permissions>>)
    ensures r == Resolve(p, query)
  {
    if query.Boolean? {
      return Ok(if query.b then Allow else Deny);
    }
    if "Guest" !in p.roleClasses {
      return Err(NameError);
    }
    if p.permissionsHash.None? {
      return Err(NoMethodError);
    }
    var table := p.permissionsHash.value;
    var guest := TestCondition(p, p.roleClasses["Guest"]);
    if guest.Err? {
      return Err(guest.error);
    }
    if query.NonList? {
      return Err(NoMethodError);
    }
    var candidates := query.roles;
    if guest.value {
      if "guest" in candidates {
        var g := RoleBase.Permitted(p.ctx, OptionsOf(table, "guest"));
        if g.Err? {
          return Err(g.error);
        }
        return Ok(Granted(Permissions(g.value.attributes, g.value.associations, NoRoles)));
      }
      return Ok(Deny);
    }
    var current: seq<(RoleName, Grant)> := [];
    var i := 0;
    while i < |candidates|
      invariant 0 <= i <= |candidates|
      invariant Scan(p, table, candidates, []) == Scan(p, table, candidates[i..], current)
    {
      assert candidates[i..][1..] == candidates[i + 1..];
      var role := candidates[i];
      if role != "guest" {
        if p.classify(role) !in p.roleClasses {
          return Err(NoMethodError);
        }
        var satisfied := TestCondition(p, p.roleClasses[p.classify(role)]);
        if satisfied.Err? {
          return Err(satisfied.error);
        }
        if satisfied.value {
          var g := RoleBase.Permitted(p.ctx, OptionsOf(table, role));
          if g.Err? {
            return Err(g.error);
          }
          current := Put(current, role, g.value);
        }
      }
      i := i + 1;
    }
    if |current| == 0 {
      return Ok(Deny);
    }
    if |current| == 1 {
      return Ok(Granted(Permissions(current[0].1.attributes, current[0].1.associations, One(current[0].0))));
    }
    var merged := UniqueMerge(current);
    return Ok(Granted(merged));
  }
}
