/**
 * The values that flow through commands: untyped Python values, the `Result`
 * envelope, the controller configuration of a target and the argument mapping
 * a command is called with.
 */
module Types {
  import opened Wrappers

  /** A Python value as far as the commands look into it. `Controller` stands for
      a connected `juju.Controller` object, which is not JSON-serialisable. */
  datatype Value =
    | Null
    | Bool(b: bool)
    | Int(i: int)
    | Str(s: string)
    | List(items: seq<Value>)
    | Dict(entries: map<string, Value>)
    | Controller(controllerUuid: string, controllerName: string)

  /** Python truthiness: `None`, `False`, `0`, `""`, `[]` and `{}` are false. */
  predicate Truthy(v: Value)
  {
    match v
    case Null => false
    case Bool(b) => b
    case Int(i) => i != 0
    case Str(s) => s != ""
    case List(items) => items != []
    case Dict(entries) => entries != map[]
    case Controller(_, _) => true
  }

  /** Whether `json.dump` can write the value (only controller objects are refused). */
  predicate Serializable(v: Value)
  {
    match v
    case Controller(_, _) => false
    case List(items) => forall i :: 0 <= i < |items| ==> Serializable(items[i])
    case Dict(entries) => forall k :: k in entries ==> Serializable(entries[k])
    case _ => true
  }

  /** The `Result` envelope built by a command call. */
  datatype Result = Result(success: bool, output: Value, error: Option<Error>)

  /** The configuration of one target controller. */
  datatype ControllerConfig = ControllerConfig(uuid: string, name: string, customer: string)

  /** The `command_arguments` mapping: the bound controller (absent until a task binds it),
      the `refresh` flag, the filter expression and every other parsed option. */
  datatype Args = Args(
    controllerConfig: Option<ControllerConfig>,
    refresh: bool,
    filter: string,
    options: map<string, Value>)
}
