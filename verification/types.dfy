/**
 * Shared vocabulary of the pundit_roles model: the symbols the gem works on,
 * the action and type keys of a permission map, the Ruby exception classes it
 * raises, and the shapes of role declarations and grants.
 */
module Types {

  /** A Ruby symbol (or string) naming a field, an association or a role. */
  type Sym = string
  type RoleName = string
  /** The name of a model class, as produced by `classify.constantize`. */
  type ClassName = string

  datatype Option<+T> = None | Some(value: T)

  /** The two option types a grant is built for: 'attributes' and 'associations'. */
  datatype Kind = Attributes | Associations

  /**
   * A key of a permission map. `Other` stands for any key besides the four the
   * gem knows about; no `restricted_*` list exists for it.
   */
  datatype Action = Show | Create | Update | Save | Other(name: string)

  /** action -> ordered field list (a Ruby Hash of Arrays; key order is irrelevant). */
  type FieldMap = map<Action, seq<Sym>>

  /** The Ruby exception classes the core raises. */
  datatype Error = ArgumentError | NameError | NoMethodError | TypeError | NotAuthorized

  datatype Result<+T> = Ok(value: T) | Err(error: Error) {
    predicate IsFailure() { Err? }
    function PropagateFailure<U>(): Result<U> requires Err? { Err(error) }
    function Extract(): T requires Ok? { value }
  }

  datatype Outcome = Pass | Fail(error: Error)

  /**
   * A Ruby value that is either falsy (`false`/`nil`), the literal `true`, or
   * some other truthy value.
   */
  datatype Verdict<+T> = Deny | Allow | Granted(value: T)

  /** A value of an option hash: a Symbol, an Array of symbols, or anything else. */
  datatype Value = SymV(name: Sym) | ListV(items: seq<Sym>) | OtherV

  /**
   * A per-type declaration (`attributes:` or `associations:`): absent (nil,
   * false or blank), an implicit Symbol such as `:show_all`, an explicit Hash
   * (entries in insertion order), or some other present value.
   */
  datatype Spec = Absent | Implicit(option: Sym) | Explicit(entries: seq<(Action, Value)>) | Malformed(blank: bool)

  /** What the registry stores per role in `permissions_hash`. */
  datatype RoleOptions = NoOptions | SymbolOptions(option: Sym) | HashOptions(attributes: Spec, associations: Spec)

  /** An option of `role`: a symbol or string, true/false, or nil. */
  datatype OptVal = Text(s: string) | Flag(b: bool) | Nil

  /** The dynamically generated role class: its predicate name and disable_merge flag. */
  datatype RoleClass = RoleClass(authorizeWith: string, disableMerge: OptVal)

  /** The result of `permitted`: a map per option type. */
  datatype Grant = Grant(attributes: FieldMap, associations: FieldMap)

  /**
   * The schema provider: the model's column names and association names, or
   * None when the policy has no model (or the model cannot report them).
   */
  datatype Schema = Schema(columns: Option<seq<Sym>>, associations: Option<seq<Sym>>)

  /** The eight `restricted_<action>_<type>` lists of one policy. */
  datatype Restrictions = Restrictions(
    showAttributes: seq<Sym>, saveAttributes: seq<Sym>,
    createAttributes: seq<Sym>, updateAttributes: seq<Sym>,
    showAssociations: seq<Sym>, saveAssociations: seq<Sym>,
    createAssociations: seq<Sym>, updateAssociations: seq<Sym>)

  /** What a grant builder reads from its policy. */
  datatype Context = Context(schema: Schema, restrictions: Restrictions)

  function FullList(schema: Schema, kind: Kind): Option<seq<Sym>>
  {
    match kind
    case Attributes => schema.columns
    case Associations => schema.associations
  }

  /** The restricted list for an action and type; None when no such list exists. */
  function Restricted(r: Restrictions, action: Action, kind: Kind): (l: Option<seq<Sym>>)
    ensures l.None? <==> action.Other?
  {
    match (action, kind)
    case (Show, Attributes) => Some(r.showAttributes)
    case (Save, Attributes) => Some(r.saveAttributes)
    case (Create, Attributes) => Some(r.createAttributes)
    case (Update, Attributes) => Some(r.updateAttributes)
    case (Show, Associations) => Some(r.showAssociations)
    case (Save, Associations) => Some(r.saveAssociations)
    case (Create, Associations) => Some(r.createAssociations)
    case (Update, Associations) => Some(r.updateAssociations)
    case (Other(_), _) => None
  }

  /** `m[a]`, with a missing key read as the empty list. */
  function Get(m: FieldMap, a: Action): seq<Sym>
  {
    if a in m then m[a] else []
  }

  /** `m[a]`, with a missing key read as nil. */
  function Lookup(m: FieldMap, a: Action): Option<seq<Sym>>
  {
    if a in m then Some(m[a]) else None
  }

  function KindMap(g: Grant, kind: Kind): FieldMap
  {
    match kind
    case Attributes => g.attributes
    case Associations => g.associations
  }

  /** The action key a bare name stands for. */
  function ActionNamed(name: string): Action
  {
    if name == "show" then Show
    else if name == "create" then Create
    else if name == "update" then Update
    else if name == "save" then Save
    else Other(name)
  }
}
