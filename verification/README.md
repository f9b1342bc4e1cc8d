# pundit_roles in Dafny

A model of the decision core of the Ruby gem pundit_roles. The gem adds
role-based, field-level authorization on top of Pundit. A policy declares roles.
Each role has a predicate that tells whether the current user holds it, and a
declaration of the attributes and associations it may show, create and update.
A controller asks the policy to resolve a query. The answer is a permission Hash:
for each option type, a map from action to field list. The controller can then
walk a tree of requested associations. For each association it resolves a child
policy, keeps the associations that each action permits, and builds the
`<assoc>_attributes` entries that nested writes need.

Each part of the core has its own module:

- `Types` and `RubyArray` hold the shared vocabulary.
  - Symbols are strings.
  - `Array#|` is an ordered union that removes duplicates (`Union`, built on `Dedup`).
  - `Array#-` is an order-keeping filter (`Minus`).
  - Ruby's falsy, `true` and other truthy answers are `Verdict` = `Deny | Allow | Granted(value)`.
  - The exceptions the core raises are the datatype `Error`.
- `PolicyDefaults` and `Defaults` hold the default-deny queries, `DEFAULT_ASSOCIATED_ROLES`, the eight `RESTRICTED_<ACTION>_<TYPE>` constants, and their method forms.
- `RoleRegistry` models the class-level `role` and `permitted_*_for` declarations. `Registry` is a class whose fields are the role constants and `@permissions_hash`.
- There are three generations of grant builders, each modelled as it stands:
  - `OptionBuilder` is the newest. It handles `:save`, `:all`, `|=` on literal lists, and `:show_all` and its siblings.
  - `RoleBase` is `Role::Base`. It adds `:all_minus` and restricts every key.
  - `LegacyRole` is the application-policy `Role`. It fills in default keys when the parsed map is empty.
- `PolicyBase` models `Policy::Base#resolve_query`: boolean pass-through, guest exclusivity, the ordered role scan, and `unique_merge`.
- `PermissionSets` is the permission Hash of the newest generation, `{attributes, associations, roles: {for_current_model, for_associated_models}}`.
- `PunditAssociations` models the association walk:
  - `format_association_list`;
  - `handle_associations` and `fetch_assoc_policy`, with the `AssociationWalker` class holding `@pundit_permission_table`;
  - `get_assoc_constant`;
  - `determine_permitted_associations` and `determine_save_permissions`;
  - `authorize_associations!`.
- `PunditSelectors` models the `permitted_*` and `association_*` selectors.
- `PunditOverwrite` models the decision logic of `authorize!`, `policy_scope!` and `get_assoc_policy`, on a `Controller` class. It also holds the Set version of `format_association_list`, `build_association_roles`, and the `show_*`/`associated_*` selectors.

Some things the gem gets from Rails or from code outside the core become parameters:

- the model's schema (`column_names`, `reflect_on_all_associations`): a `Schema` whose lists may be missing;
- `String#classify` and the constants `constantize` finds;
- the answers of the policy's own predicate methods;
- the child policy's `resolve_as_association`, which may answer falsy, `true` or a permission Hash.

Where a source method is a loop, the loop is modelled as a Dafny `method` with its
invariants. Each such method is proved equal to a specification function, and the
properties are proved about that function.

## Model

| member | source | states |
|---|---|---|
| Types.Restricted | lib/pundit_roles/policy/role/option_builder.rb:115-120 | a RESTRICTED_<ACTION>_<TYPE> list exists exactly for show, save, create and update |
| RubyArray.Union | lib/pundit_roles/policy/role/option_builder.rb:76 | `a \| b` holds exactly the elements of `a` and of `b` |
| RubyArray.Minus | lib/pundit_roles/policy/role/option_builder.rb:119 | `a - b` keeps exactly the elements of `a` not in `b`, and is never longer than `a` |
| PolicyDefaults.DefaultRestrictionLists | lib/pundit_roles/policy/policy_defaults.rb:31-54 | show and every association list restrict nothing; save, create and update attributes restrict exactly `[:id, :created_at, :updated_at]` |
| PolicyDefaults.Redefine | lib/pundit_roles/policy/policy_defaults.rb:31-54 | a subclass redefining one restriction gets that list; every other list is inherited unchanged |
| PolicyDefaults.OperationDefault | lib/pundit_roles/policy/policy_defaults.rb:3-26 | each default operation query (`index?` … `destroy?`) denies |
| Defaults.UserGuest | lib/pundit_roles/policy/policy_defaults/defaults.rb:34-36 | `user_guest?` holds iff the user is nil |
| Defaults.DefaultAuthorization | lib/pundit_roles/policy/policy_defaults/defaults.rb:28-31 | `default_authorization?` always denies |
| Defaults.MethodsMatchConstants | lib/pundit_roles/policy/policy_defaults/defaults.rb:39-76 | every `restricted_<action>_<type>` method answers the list its constant declares |
| RoleRegistry.Slice | lib/pundit_roles/policy/role.rb:19 | `slice` keeps exactly the listed keys that are present, with their values |
| RoleRegistry.Declaration | lib/pundit_roles/policy/role.rb:18-44 | succeeds iff `:authorize_with` is given, the role is a Symbol or String and its classified name is a constant name; otherwise ArgumentError; the class answers to `<authorize_with>?` and keeps `:disable_merge` |
| RoleRegistry.OnlyRoleKeysRetained | lib/pundit_roles/policy/role.rb:80-82 | options other than `:authorize_with` and `:disable_merge` do not change the declaration |
| RoleRegistry.GuestDeclaration | lib/pundit_roles/policy/base.rb:12 | the inherited guest role registers `Guest` answering to `user_guest?` |
| RoleRegistry.ForEntry | lib/pundit_roles/policy/role.rb:50-55 | `permitted_for` stores only the `:attributes` and `:associations` values |
| RoleRegistry.SliceActions | lib/pundit_roles/policy/role.rb:94-97 | exactly the show/create/update/save entries of the declaration are kept, each once |
| RoleRegistry.Registry.constructor | lib/pundit_roles/policy/role.rb:9-11 | a policy class starts with no role classes and a nil `permissions_hash` |
| RoleRegistry.Registry.Role | lib/pundit_roles/policy/role.rb:18-44 | fails with ArgumentError iff the declaration is refused, changing nothing; otherwise sets or replaces the role class constant |
| RoleRegistry.Registry.PermittedFor | lib/pundit_roles/policy/role.rb:50-55 | creates the table when nil and replaces only this role's entry |
| RoleRegistry.Registry.PermittedAttrFor | lib/pundit_roles/policy/role.rb:61-66 | replaces this role's whole entry with the attributes declaration |
| RoleRegistry.Registry.PermittedAssocFor | lib/pundit_roles/policy/role.rb:72-77 | replaces this role's whole entry with the associations declaration |
| RoleRegistry.AttrThenAssoc | lib/pundit_roles/application_policy/role/role.rb:39-51 | attributes then associations for one role keeps only the associations; other roles' entries are unchanged |
| LegacyRole.Declaration | lib/pundit_roles/application_policy/role/role.rb:6-30 | options with none of `:authorize_with`, `:extends`, `:disable_merge` are refused; every failure is ArgumentError |
| LegacyRole.DeclarationAgrees | lib/pundit_roles/application_policy/role/role.rb:6-19 | the legacy validation accepts and registers exactly what the newer `role` does |
| LegacyRole.Role | lib/pundit_roles/application_policy/role/role.rb:6-30 | registers the role class under the legacy validation, leaving `permissions_hash` alone |
| LegacyRole.RemoveRestricted | lib/pundit_roles/application_policy/role/role.rb:163-177 | an empty map yields the four default keys, each `[]`; any other map is restricted key by key |
| LegacyRole.HandleDefault | lib/pundit_roles/application_policy/role/role.rb:147-161 | an option other than the four implicit symbols raises ArgumentError; a success always grants `:show` |
| LegacyRole.HandleDefaultAgrees | lib/pundit_roles/application_policy/role/role.rb:147-161 | implicit declarations grant exactly what `Role::Base` grants |
| LegacyRole.InitSpec | lib/pundit_roles/application_policy/role/role.rb:112-145 | a blank declaration grants `{}`; a non-Hash, non-Symbol one raises ArgumentError |
| LegacyRole.Permitted | lib/pundit_roles/application_policy/role/role.rb:94-108 | nil options give the four default keys for both types; a Symbol and a Hash are built per type |
| LegacyRole.SymbolsWriteNothing | lib/pundit_roles/application_policy/role/role.rb:125-142 | entries whose values are Symbols other than `:all` parse to an empty map |
| LegacyRole.EmptyParseFills | lib/pundit_roles/application_policy/role/role.rb:163-177 | such a declaration yields the four default keys here and `{}` in `Role::Base` |
| LegacyRole.InitAgrees | lib/pundit_roles/application_policy/role/role.rb:112-145 | whenever the parse writes something, both generations grant the same |
| LegacyRole.RemoveRestrictedLoop | lib/pundit_roles/application_policy/role/role.rb:163-177 | the loop computes `RemoveRestricted` |
| LegacyRole.InitOptions | lib/pundit_roles/application_policy/role/role.rb:112-145 | the loop computes `InitSpec` |
| RoleBase.GetAll | lib/pundit_roles/policy/role/base.rb:132-156 | the schema's list, or NoMethodError when the policy has neither record nor scope |
| RoleBase.Step | lib/pundit_roles/policy/role/base.rb:74-90 | a non-Symbol, non-Array value raises ArgumentError; `:all` stores the full list; `[:all_minus, x…]` stores the full list minus `x…`; another Array is stored verbatim; another Symbol changes nothing |
| RoleBase.ParseFrom | lib/pundit_roles/policy/role/base.rb:73-91 | a successful parse only adds keys to the map it starts from, and saw no value that is neither Symbol nor Array |
| RoleBase.RemoveRestricted | lib/pundit_roles/policy/role/base.rb:121-130 | keeps exactly the input keys, each value minus its `restricted_<key>_<type>`; a key without such a method raises NoMethodError |
| RoleBase.DefaultParsed | lib/pundit_roles/policy/role/base.rb:100-111 | `:show_all` gives `{show}`, `:save_all` gives `{show, save}`, `:create_all`/`:update_all` give show plus that action, each holding the full list; other symbols raise ArgumentError |
| RoleBase.HandleDefault | lib/pundit_roles/policy/role/base.rb:100-114 | the implied keys, each the full list minus its restriction |
| RoleBase.InitSpec | lib/pundit_roles/policy/role/base.rb:61-72 | a blank declaration grants `{}`, a Symbol is implicit, any other non-Hash raises ArgumentError |
| RoleBase.Permitted | lib/pundit_roles/policy/role/base.rb:39-53 | nil options grant `{attributes: {}, associations: {}}`; a Symbol is expanded for both types; a Hash is built per type |
| RoleBase.RemoveRestrictedLoop | lib/pundit_roles/policy/role/base.rb:121-130 | the loop computes `RemoveRestricted` |
| RoleBase.ParseOptions | lib/pundit_roles/policy/role/base.rb:73-91 | the loop computes the parse |
| RoleBase.InitOptions | lib/pundit_roles/policy/role/base.rb:61-94 | the method computes `InitSpec` |
| RoleBase.ParseSnoc | lib/pundit_roles/policy/role/base.rb:74-91 | one more entry is one more step on the earlier result |
| RoleBase.LiteralRestricted | lib/pundit_roles/policy/role/base.rb:82-93 | a literal Array key ends with exactly its items minus the key's restriction |
| RoleBase.AllMinusRestricted | lib/pundit_roles/policy/role/base.rb:83-93 | `[:all_minus, x…]` ends with the full list minus `x…` and minus the restriction |
| RoleBase.ParseRejectsOther | lib/pundit_roles/policy/role/base.rb:75 | any value that is neither Symbol nor Array makes the parse fail |
| OptionBuilder.GetAll | lib/pundit_roles/policy/role/option_builder.rb:132-139 | the model's list, or ArgumentError when the policy has no model |
| OptionBuilder.RemoveRestricted | lib/pundit_roles/policy/role/option_builder.rb:115-120 | no model: ArgumentError; no restriction constant: NameError; otherwise the full list minus the restriction, in order |
| OptionBuilder.SetAll | lib/pundit_roles/policy/role/option_builder.rb:66-71 | each action gets its restricted full list; other keys are unchanged; fails iff some action's list fails |
| OptionBuilder.AddList | lib/pundit_roles/policy/role/option_builder.rb:73-78 | adds exactly the target keys and leaves the others unchanged |
| OptionBuilder.AddListValues | lib/pundit_roles/policy/role/option_builder.rb:73-78 | each target ends with its earlier list `\|` the items, even when targeted twice |
| OptionBuilder.Step | lib/pundit_roles/policy/role/option_builder.rb:57-80 | a non-Symbol, non-Array value raises ArgumentError; another Symbol changes nothing; an Array is unioned in; `:all` overwrites |
| OptionBuilder.ParseFrom | lib/pundit_roles/policy/role/option_builder.rb:56-84 | a successful parse only adds keys to the map it starts from, and saw no value that is neither Symbol nor Array |
| OptionBuilder.InitSpec | lib/pundit_roles/policy/role/option_builder.rb:52-54 | a non-Hash declaration raises ArgumentError; an empty Hash gives `{}` |
| OptionBuilder.ImplicitActions | lib/pundit_roles/policy/role/option_builder.rb:91-106 | defined exactly for the four allowed symbols; `:create_all` and `:update_all` name show and that action |
| OptionBuilder.HandleDefault | lib/pundit_roles/policy/role/option_builder.rb:90-109 | exact key sets per option, with `:save_all` giving show, create and update; each value the restricted full list; fails iff the model is missing |
| OptionBuilder.PermittedOptions | lib/pundit_roles/policy/role/option_builder.rb:35-46 | nil gives `{}`, a Symbol is implicit, anything else goes to `init_options` |
| OptionBuilder.Permitted | lib/pundit_roles/policy/role/option_builder.rb:22-27 | both types are built from their own declarations, and the call fails iff one of them fails |
| OptionBuilder.OverwriteAll | lib/pundit_roles/policy/role/option_builder.rb:67-69 | the loop computes `SetAll` |
| OptionBuilder.UnionInto | lib/pundit_roles/policy/role/option_builder.rb:74-77 | the loop computes `AddList` |
| OptionBuilder.InitOptions | lib/pundit_roles/policy/role/option_builder.rb:52-84 | the loop computes `InitSpec` |
| OptionBuilder.HandleDefaultOptions | lib/pundit_roles/policy/role/option_builder.rb:90-109 | the method computes `HandleDefault` |
| OptionBuilder.WrittenKeys | lib/pundit_roles/policy/role/option_builder.rb:60-64 | `:save` is never a written key; every writing entry's targets are |
| OptionBuilder.ParseSnoc | lib/pundit_roles/policy/role/option_builder.rb:57-81 | one more entry is one more step on the earlier result |
| OptionBuilder.ParseKeys | lib/pundit_roles/policy/role/option_builder.rb:56-84 | a successful parse has exactly the keys written by Array and `:all` entries, so never `:save` |
| OptionBuilder.ParseRejectsOther | lib/pundit_roles/policy/role/option_builder.rb:58 | any value that is neither Symbol nor Array makes the parse fail |
| OptionBuilder.LiteralUnion | lib/pundit_roles/policy/role/option_builder.rb:73-78 | an Array is unioned into each target; the result has no duplicates, keeps every item and is not restricted; `:save` adds exactly create and update |
| OptionBuilder.AllOverwrites | lib/pundit_roles/policy/role/option_builder.rb:66-71 | `:all` overwrites each target with the restricted full list; fails iff there is no model or no restriction constant |
| OptionBuilder.SymbolIgnored | lib/pundit_roles/policy/role/option_builder.rb:66-79 | a Symbol other than `:all` changes nothing |
| OptionBuilder.CreateAllExample | lib/pundit_roles/policy/role/option_builder.rb:115-120 | `[:attributes, :names, :id]` stays whole for show and loses `:id` for create |
| PolicyBase.AllowList | lib/pundit_roles/policy/base.rb:118-120 | `allow(*roles)` is the candidate list as given |
| PolicyBase.Call | lib/pundit_roles/policy/base.rb:122-128 | the policy's own predicate wins; `user_guest?` answers whether the user is nil; `default_authorization?` answers false; an unknown name raises NoMethodError |
| PolicyBase.TestCondition | lib/pundit_roles/policy/role/base.rb:29-36 | the answer of the predicate named by the role's `authorize_with` |
| PolicyBase.Put | lib/pundit_roles/policy/base.rb:73 | a new name is appended; an existing name keeps its position and takes the new grant |
| PolicyBase.Satisfied | lib/pundit_roles/policy/base.rb:64-74 | exactly the candidates other than `:guest` whose predicate holds |
| PolicyBase.Scan | lib/pundit_roles/policy/base.rb:64-78 | a successful scan keeps the names seen so far as a prefix of its result |
| PolicyBase.MergeActions | lib/pundit_roles/policy/base.rb:106-111 | the merged keys are the old keys plus the new ones |
| PolicyBase.MergeFold | lib/pundit_roles/policy/base.rb:93-116 | the merged `:roles` are the roles' names in order |
| PolicyBase.Resolve | lib/pundit_roles/policy/base.rb:45-89 | `true`/`false` pass through; without a Guest class NameError; without a `permissions_hash` NoMethodError; for a non-guest user whose first candidate has no role class NoMethodError, because the rescue reads `current_role[:role]` while `current_role` is still nil |
| PolicyBase.ScanNames | lib/pundit_roles/policy/base.rb:64-78 | the scan keeps each satisfied candidate once, in the order it is first satisfied |
| PolicyBase.ScanGrants | lib/pundit_roles/policy/base.rb:69-74 | every kept role holds the grant its own options build |
| PolicyBase.ScanAppend | lib/pundit_roles/policy/base.rb:64-78 | scanning two candidate lists in a row is scanning the first, then the second from where it stopped |
| PolicyBase.UndefinedRoleFails | lib/pundit_roles/policy/base.rb:69-76 | for a non-guest user, a candidate with no role class that the scan reaches makes `resolve_query` raise NoMethodError, whatever follows |
| PolicyBase.MergeFoldSpec | lib/pundit_roles/policy/base.rb:93-116 | merged roles are the names in order; each type has exactly the actions some grant names; each list is the ordered-unique union of the grants' lists |
| PolicyBase.MergedContents | lib/pundit_roles/policy/base.rb:106-111 | a merged list repeats nothing and holds exactly what some role grants for that action |
| PolicyBase.GuestExclusive | lib/pundit_roles/policy/base.rb:54-62 | for a guest user: the guest grant with no roles when `:guest` is a candidate, otherwise `false` |
| PolicyBase.ResolveRoles | lib/pundit_roles/policy/base.rb:64-88 | no satisfied role gives `false`, one gives its grant tagged with its name, several give the merge tagged with the satisfied roles in order; the scan holds exactly the satisfied roles, each with the grant its own options build, and several are answered with `MergeFold` of that scan |
| PolicyBase.SingleRoleVerbatim | lib/pundit_roles/policy/base.rb:83-86 | a single satisfied role's grant is returned exactly, with `:roles` set to its name |
| PolicyBase.MergeExample | lib/pundit_roles/policy/base.rb:93-116 | `show: [:basic, :attributes]` and `show/create: [:enhanced, :attributes]` merge to `show: [:basic, :attributes, :enhanced]`, `create: [:enhanced, :attributes]` |
| PolicyBase.MergeAt | lib/pundit_roles/policy/base.rb:106-111 | each incoming action's list is the earlier list `\|` the new one |
| PolicyBase.MergeActionsLoop | lib/pundit_roles/policy/base.rb:106-111 | the loop computes `MergeActions` |
| PolicyBase.UniqueMerge | lib/pundit_roles/policy/base.rb:93-116 | the loop computes the merge |
| PolicyBase.ResolveQuery | lib/pundit_roles/policy/base.rb:45-89 | the method computes `Resolve` |
| PermissionSets.Find | lib/pundit_roles/pundit_selectors.rb:20-22 | nil iff the action has no entry; otherwise the entry stored under it |
| PunditAssociations.AddActionKeys | lib/pundit_roles/pundit_associations.rb:110-113 | an association has an entry iff it had one or is in the list |
| PunditAssociations.AddAction | lib/pundit_roles/pundit_associations.rb:109-113 | every listed association gains `key`; no other association appears; an unlisted one keeps its actions |
| PunditAssociations.AddActionValues | lib/pundit_roles/pundit_associations.rb:110-113 | a listed association's actions become the earlier actions `\| [key]` |
| PunditAssociations.FormatAssociationListSpec | lib/pundit_roles/pundit_associations.rb:107-117 | each association maps to the actions whose list names it, in order and each once |
| PunditAssociations.FormatAssociationListKeys | lib/pundit_roles/pundit_associations.rb:107-117 | the keys are exactly the associations some action names |
| PunditAssociations.FormatAssociationListNoDup | lib/pundit_roles/pundit_associations.rb:111-112 | no action list repeats an action |
| PunditAssociations.FormatAssociationList | lib/pundit_roles/pundit_associations.rb:107-117 | every association in the inversion has at least one granting action |
| PunditAssociations.AssocConstant | lib/pundit_roles/pundit_associations.rb:167-179 | the classified name when it is a constant, else the record's alias for the association, else NameError |
| PunditAssociations.AssociatedRoles | lib/pundit_roles/pundit_associations.rb:61 | a permission without `:roles` raises NoMethodError; otherwise nil iff the association has no roles entry |
| PunditAssociations.Fetch | lib/pundit_roles/pundit_associations.rb:95-104 | succeeds iff the roles can be read and the child answer is truthy; a falsy answer raises not-authorized; a truthy one, `true` included, is stored under the association and nothing else changes |
| PunditAssociations.HandleNodes | lib/pundit_roles/pundit_associations.rb:48-92 | a successful walk only appends to the allowed list and only adds table entries |
| PunditAssociations.HandleNode | lib/pundit_roles/pundit_associations.rb:51-90 | an ungranted Symbol changes nothing; a granted one is appended and stored; a request that is neither Symbol nor Hash raises ArgumentError |
| PunditAssociations.HandleEntries | lib/pundit_roles/pundit_associations.rb:67-86 | a successful walk of a Hash only appends and only adds table entries |
| PunditAssociations.HandleEntry | lib/pundit_roles/pundit_associations.rb:67-85 | an ungranted key changes nothing and its nested requests are not walked; a falsy answer raises not-authorized; a `true` answer raises NoMethodError at the nested walk; a success stores the key and appends one `{key => [...]}` |
| PunditAssociations.HandleAssociations | lib/pundit_roles/pundit_associations.rb:48-92 | the allowed tree is the requested tree pruned to what each level grants; its top level is exactly the granted requests in order; the table gains exactly the allowed tree's names, each with a truthy answer, and keeps every other entry |
| PunditAssociations.WalkNodes | lib/pundit_roles/pundit_associations.rb:48-92 | for any nesting, the walk appends exactly the pruned requests and extends the table by exactly their names and keys |
| PunditAssociations.WalkNode | lib/pundit_roles/pundit_associations.rb:51-90 | one request appends exactly its pruned form and stores exactly its names and keys |
| PunditAssociations.WalkEntries | lib/pundit_roles/pundit_associations.rb:67-86 | the keys of a Hash append exactly their pruned forms |
| PunditAssociations.WalkEntry | lib/pundit_roles/pundit_associations.rb:67-85 | a granted key appends `{key => children}` whose children are its nested requests pruned against the child's stored permission; an ungranted key adds nothing |
| PunditAssociations.TableCompose | lib/pundit_roles/pundit_associations.rb:103 | two table extensions in a row are one extension by both sets of names |
| PunditAssociations.PruneTop | lib/pundit_roles/pundit_associations.rb:51-86 | the top level of the pruned tree is exactly the granted names and Hash keys, in request order |
| PunditAssociations.PruneEntriesTop | lib/pundit_roles/pundit_associations.rb:67-86 | the pruned keys of a Hash are exactly its granted keys, in order |
| PunditAssociations.TrueAnswerStops | lib/pundit_roles/pundit_associations.rb:80-85 | a granted Hash key whose policy answers `true` makes the walk raise NoMethodError |
| PunditAssociations.WalkNamesAllowed | lib/pundit_roles/pundit_associations.rb:51-64 | the allowed list gains exactly the granted requests, in order |
| PunditAssociations.WalkNamesKeys | lib/pundit_roles/pundit_associations.rb:52-55 | the table gains exactly the granted names; ungranted requests leave nothing |
| PunditAssociations.WalkNamesValues | lib/pundit_roles/pundit_associations.rb:57-63 | each granted name is stored with its policy's answer for its roles and granting actions |
| PunditAssociations.WalkNamesKeep | lib/pundit_roles/pundit_associations.rb:57-64 | a stored answer survives the rest of the walk |
| PunditAssociations.RejectsOther | lib/pundit_roles/pundit_associations.rb:87-90 | a request that is neither Symbol nor Hash fails the walk, with ArgumentError when it comes first |
| PunditAssociations.HandleEntriesAppend | lib/pundit_roles/pundit_associations.rb:67-86 | the keys of a Hash are walked one after another |
| PunditAssociations.SingleHash | lib/pundit_roles/pundit_associations.rb:66-67 | a single Hash request walks as its keys |
| PunditAssociations.HashSplit | lib/pundit_roles/pundit_associations.rb:66-86 | one Hash of two parts walks exactly as two Hashes |
| PunditAssociations.DeterminePermitted | lib/pundit_roles/pundit_associations.rb:120-143 | the only failure is NoMethodError |
| PunditAssociations.PermittedNode | lib/pundit_roles/pundit_associations.rb:123-141 | the only failure is NoMethodError |
| PunditAssociations.PermittedEntries | lib/pundit_roles/pundit_associations.rb:129-140 | the only failure is NoMethodError |
| PunditAssociations.PermittedEntry | lib/pundit_roles/pundit_associations.rb:130-139 | the only failure is NoMethodError, from a kept key with no stored permission Hash (none, or a stored `true`) |
| PunditAssociations.DeterminePermittedNames | lib/pundit_roles/pundit_associations.rb:120-127 | a flat list is filtered, in order, to the names the action's list includes |
| PunditAssociations.PermittedTop | lib/pundit_roles/pundit_associations.rb:120-143 | for any nesting, the top level of what an action permits is exactly the top-level requests its association list includes, in order |
| PunditAssociations.PermittedEntriesTop | lib/pundit_roles/pundit_associations.rb:129-140 | the kept keys of a Hash are exactly those the action's list includes, in order |
| PunditAssociations.NoListKeepsNothing | lib/pundit_roles/pundit_associations.rb:121-130 | without a list for the action nothing is kept, however deep the requests |
| PunditAssociations.PermittedExample | lib/pundit_roles/pundit_associations.rb:120-143 | `:assoc` granted for show only gives `{show: [:assoc], create: [], update: []}` |
| PunditAssociations.DetermineSave | lib/pundit_roles/pundit_associations.rb:146-164 | the only failure is NoMethodError |
| PunditAssociations.SaveNode | lib/pundit_roles/pundit_associations.rb:148-150 | the only failure is NoMethodError; a name fails iff it has no stored permission Hash |
| PunditAssociations.SaveEntries | lib/pundit_roles/pundit_associations.rb:151-162 | the only failure is NoMethodError |
| PunditAssociations.SaveEntry | lib/pundit_roles/pundit_associations.rb:152-160 | the only failure is NoMethodError |
| PunditAssociations.SaveNames | lib/pundit_roles/pundit_associations.rb:146-150 | one `<name>_attributes` entry per name, in order, holding that name's attributes for the action; a name with no stored permission Hash fails the call |
| PunditAssociations.SaveTop | lib/pundit_roles/pundit_associations.rb:146-164 | for any nesting, exactly one `<name>_attributes` entry per top-level association, in order |
| PunditAssociations.SaveEntriesTop | lib/pundit_roles/pundit_associations.rb:151-162 | one `<key>_attributes` entry per key of a Hash, in order |
| PunditAssociations.AuthorizeAssociations | lib/pundit_roles/pundit_associations.rb:10-32 | no primary permission: ArgumentError; a `true` one: NoMethodError; a failed walk fails the call; otherwise the walk, then the show, create and update filters of the allowed tree |
| PunditAssociations.FormatAssociationListLoop | lib/pundit_roles/pundit_associations.rb:107-117 | the loops compute `FormatAssociationList` |
| PunditAssociations.AddActionLoop | lib/pundit_roles/pundit_associations.rb:110-113 | the inner loop computes `AddAction` |
| PunditAssociations.AddOne | lib/pundit_roles/pundit_associations.rb:111-112 | the association's actions become the earlier ones `\| [key]` |
| PunditAssociations.DeterminePermittedLoop | lib/pundit_roles/pundit_associations.rb:120-143 | the method computes `DeterminePermitted` |
| PunditAssociations.PermittedEntriesLoop | lib/pundit_roles/pundit_associations.rb:129-140 | the inner loop computes `PermittedEntries` |
| PunditAssociations.DetermineSaveLoop | lib/pundit_roles/pundit_associations.rb:146-164 | the method computes `DetermineSave` |
| PunditAssociations.SaveEntriesLoop | lib/pundit_roles/pundit_associations.rb:151-162 | the inner loop computes `SaveEntries` |
| PunditAssociations.AssociationWalker.HandleAssociationsLoop | lib/pundit_roles/pundit_associations.rb:48-92 | the allowed list and the new permission table are those of `HandleAssociations` |
| PunditAssociations.AssociationWalker.HandleNodesLoop | lib/pundit_roles/pundit_associations.rb:51-91 | the allowed list and the new table are those of `HandleNodes` |
| PunditAssociations.AssociationWalker.HandleEntriesLoop | lib/pundit_roles/pundit_associations.rb:67-86 | the allowed list and the new table are those of `HandleEntries` |
| PunditAssociations.AssociationWalker.FetchAssocPolicy | lib/pundit_roles/pundit_associations.rb:95-104 | the new table is that of `Fetch`; a failure leaves the table unchanged |
| PunditSelectors.PermittedFields | lib/pundit_roles/pundit_selectors.rb:20-57 | `permissions[kind][a]`: nil iff the action has no entry; NoMethodError when no permission Hash is stored |
| PunditSelectors.AssociationFields | lib/pundit_roles/pundit_selectors.rb:59-137 | `{}` without a table; otherwise the table's keys, each mapped to that entry's `[kind][a]` or nil |
| PunditSelectors.AssociationFieldsAgree | lib/pundit_roles/pundit_selectors.rb:59-137 | each projection is what `permitted_<a>_<kind>` answers for that entry |
| PunditSelectors.AssociationFieldsLoop | lib/pundit_roles/pundit_selectors.rb:60-66 | the loop computes `AssociationFields` |
| PunditOverwrite.Controller.Authorize | lib/pundit_roles/pundit.rb:14-31 | sets the authorized flag and stores the answer; a falsy answer raises not-authorized; any other is returned unchanged |
| PunditOverwrite.Controller.PolicyScope | lib/pundit_roles/pundit.rb:42-59 | sets the scoped flag and answers `Scope` |
| PunditOverwrite.Controller.GetAssocPolicy | lib/pundit_roles/pundit.rb:126-142 | falsy: not-authorized and nothing stored; `true`: the empty permission stored; otherwise the answer stored under the association |
| PunditOverwrite.Controller.Fields | lib/pundit_roles/pundit.rb:186-224 | `@pundit_permissions[kind][a]`, failing iff no permission Hash is stored |
| PunditOverwrite.Controller.AssociatedAttributes | lib/pundit_roles/pundit.rb:226-264 | `{}` without a table; otherwise the table's keys, each mapped to its `attributes[a]` |
| PunditOverwrite.Scope | lib/pundit_roles/pundit.rb:50-58 | falsy: not-authorized; `true`: the resource; otherwise the scope |
| PunditOverwrite.Stored | lib/pundit_roles/pundit.rb:134-140 | a permission Hash is stored as it is; a `true` answer is stored as a permission in which every selector finds nothing |
| PunditOverwrite.AuthorizeThenSelect | lib/pundit_roles/pundit.rb:17-30 | after authorizing a permission Hash, the selectors answer from it |
| PunditOverwrite.AddActionSet | lib/pundit_roles/pundit.rb:148-151 | exactly the listed associations gain `key` in their set; every other entry is unchanged |
| PunditOverwrite.FormatAssociationSets | lib/pundit_roles/pundit.rb:145-155 | every association in the inversion has a nonempty set of actions |
| PunditOverwrite.AddActionSetAgrees | lib/pundit_roles/pundit.rb:147-151 | one step of the Set version agrees with one step of the ordered version |
| PunditOverwrite.FormatAssociationSetsAgree | lib/pundit_roles/pundit.rb:145-155 | the Set version has the same keys and the same actions as the ordered version |
| PunditOverwrite.FormatAssociationSetsSpec | lib/pundit_roles/pundit.rb:145-155 | an action is in an association's set iff its list names the association |
| PunditOverwrite.FormatAssociationSetsLoop | lib/pundit_roles/pundit.rb:145-155 | the loops compute `FormatAssociationSets` |
| PunditOverwrite.BuildAssociationRoles | lib/pundit_roles/pundit.rb:158-164 | the only failures are NoMethodError and TypeError; a success holds exactly the roles some current role declares for the association |
| PunditOverwrite.BuildAssociationRolesSpec | lib/pundit_roles/pundit.rb:158-164 | succeeds iff every role declares the association, giving the ordered-unique concatenation of their lists |
| PunditOverwrite.BuildAssociationRolesLoop | lib/pundit_roles/pundit.rb:158-164 | the loop computes `BuildAssociationRoles` |
| PunditOverwrite.BuildFailsOnward | lib/pundit_roles/pundit.rb:160-162 | once a prefix of the roles fails, the whole call fails with that error |
| PunditOverwrite.BuildFirstFailure | lib/pundit_roles/pundit.rb:160-162 | the first role that does not declare the association decides the error: NoMethodError when it has no entry (`nil[...]`), TypeError when its entry lacks the association (`[] \| nil`) |

## Left out

- `authorize_associations!`, `handl_associations` and `handle_associations` in lib/pundit_roles/pundit.rb:64-123 are not modelled. They use undefined names (`association`, `associated_roles`), call `@pundit_permissions[]` and recurse with the wrong number of arguments.
- The association call of `authorize!` (lib/pundit_roles/pundit.rb:26-28) runs whenever `opts[:associations]` is truthy. Its default `[]` is truthy in Ruby, so every `authorize!` call reaches that broken code. `Controller.Authorize` models the call up to that point: the flag, the stored answer and the not-authorized case.
- `get_assoc_constant` in lib/pundit_roles/pundit.rb:167-179 is broken: it calls `.keys` on an Array and `constantize` on a Symbol. The working version in lib/pundit_roles/pundit_associations.rb is the one modelled.
- Lines 34-42 of lib/pundit_roles/pundit_associations.rb are not modelled. They merge into `@pundit_attribute_lists` and read `@pundit_permitted_associations`, and that state is set by code that is not part of this model. `determine_save_permissions` is modelled on its own, as `DetermineSave`.
- `determine_save_permissions` appends nested entries into the very arrays held by the permission table. The model builds fresh lists, so this aliasing, and the changes it makes to the table, are not captured.
- On an exception the Ruby code keeps whatever was written to the table and the allowed list before the raise. The model returns only the error, except `AssociationWalker.FetchAssocPolicy`, which leaves the table unchanged.
- String association names are modelled like Symbols. The gem's mix of `to_sym` in one check and raw keys in the next is not modelled. Requests are Symbols, Hashes or other objects.
- A Hash request whose value is not an Array is modelled as a list of nested requests only.
- `permissions`, `permitted_associations` and `association_permissions` (lib/pundit_roles/pundit_selectors.rb:5-17) are plain reads of instance variables and have no member of their own.
- The newest `Policy::Base` is not part of this model. `resolve_scope` and `resolve_as_association` are parameters: the answer passed to `Controller.Authorize`, `Controller.PolicyScope` and `Controller.GetAssocPolicy`, and `Env.resolve`. `associated_as` and `DEFAULT_ASSOCIATED_ROLES` merging are not modelled.
- The default query built from `params[:action]`, `policy(...)`, `Pundit.authorize_scope!`, `Policy::Base::Scope` and the `prepend` into Pundit are framework glue and are left out. `opts[:query] ||=` does not affect the walk.
- `classify`, `constantize`, `column_names` and `reflect_on_all_associations` are parameters. The failures they raise are modelled only as a missing list or a missing constant.
- Error message texts are not modelled; only the exception class is.
- `unique_merge` raises ArgumentError for a type key other than `:attributes` or `:associations` (lib/pundit_roles/policy/base.rb:102). That branch cannot be reached here, because a grant has exactly those two types.
- `unique_merge` skips a role whose grant is blank. Every grant holds both type keys, so no grant is blank and the skip is not modelled.
- The `permitted_for`, `permitted_attr_for` and `permitted_assoc_for` of lib/pundit_roles/application_policy/role/role.rb:32-51 are line for line those of lib/pundit_roles/policy/role.rb. They are modelled once, by `RoleRegistry.Registry`.
- The `:extends` option of the legacy `role` is kept by the slice but has no effect, as in the source.
- The guest grant in `resolve_query` carries no `:roles` entry (lib/pundit_roles/policy/base.rb:56-58). The model follows the code and tags it `NoRoles`. The gem's own description says the guest grant is tagged with `[guest]`.
- The order of the action list handed to the child resolver is modelled as the order `format_association_list` produces. The Set version in lib/pundit_roles/pundit.rb is modelled with Dafny sets.
- PunditAssociations.DeterminePermitted: its own contract states only the error kind. What it keeps is stated by `DeterminePermittedNames` for flat lists, by `PermittedTop` for the top level of any nesting, and by `NoListKeepsNothing`; what it keeps below the top level is stated only by `DeterminePermittedLoop`'s equality with it.
- PunditAssociations.DetermineSave: its own contract states only the error kind. Its contents are stated by `SaveNames` for flat lists and its keys by `SaveTop` for any nesting; the nested entries appended under a Hash key are stated only by `DetermineSaveLoop`'s equality with it.
- PermittedNode: its own contract states only the error kind. What the filter keeps is stated at the top level by `PermittedTop`; below the top level only by `DeterminePermittedLoop`'s equality with `DeterminePermitted`.
- PermittedEntries: its own contract states only the error kind. Its kept keys are stated by `PermittedEntriesTop`; their nested contents are not stated separately.
- PermittedEntry: its own contract states only the error kind. Its kept key is stated through `PermittedEntriesTop`; the nested contents are not stated separately.
- SaveNode: its own contract states the error kind and when a name fails. Its entry's key is stated by `SaveTop`; the list under a Hash key is not stated separately.
- SaveEntries: its own contract states only the error kind. Its keys are stated by `SaveEntriesTop`; the nested lists are not stated separately.
- SaveEntry: its own contract states only the error kind. Its key is stated through `SaveEntriesTop`; the list, with nested entries appended, is not stated separately.
- Hash key order is ignored for action maps (Dafny `map`), as Ruby Hash equality does. The orders that matter are kept as sequences: field lists, the candidate scan, the merged roles, and the association walk.
