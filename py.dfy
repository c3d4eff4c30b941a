/**
 * The Python values that flow between the agents: JSON-like data, database
 * rows, and exceptions. `Result` records whether a step returned a value
 * or raised; `error` is the text `str(e)` of the exception.
 */
module Py {
  import opened Wrappers
  import Text

  datatype Value =
    | Null
    | Bool(b: bool)
    | Int(i: int)
    | Str(s: string)
    | List(items: seq<Value>)
    | Tuple(items: seq<Value>)
    | Dict(entries: seq<(string, Value)>)
      /** A value JSON cannot express (a Decimal or a date from the database): its type name and `str()`. */
    | Other(typeName: string, text: string)

  datatype Result<+T> = Ok(value: T) | Raised(error: string)

  /** `d.get(key)` on a dict given by its entries in insertion order. */
  function Get(entries: seq<(string, Value)>, key: string): (r: Option<Value>)
    ensures r.Some? <==> exists k :: 0 <= k < |entries| && entries[k].0 == key
  {
    if entries == [] then None
    else if entries[0].0 == key then Some(entries[0].1)
    else Get(entries[1..], key)
  }

  /** `key in d`. */
  predicate HasKey(entries: seq<(string, Value)>, key: string)
  {
    Get(entries, key).Some?
  }

  /** `d.get(key, default)`. */
  function GetOr(entries: seq<(string, Value)>, key: string, default: Value): Value
  {
    match Get(entries, key)
    case Some(v) => v
    case None => default
  }

  /** `d[key] = v`: an existing key keeps its place, a new key goes last. */
  function Put(entries: seq<(string, Value)>, key: string, v: Value): (r: seq<(string, Value)>)
    ensures Get(r, key) == Some(v)
    ensures forall other :: other != key ==> Get(r, other) == Get(entries, other)
    ensures HasKey(entries, key) ==> |r| == |entries|
    ensures !HasKey(entries, key) ==> r == entries + [(key, v)]
  {
    if entries == [] then [(key, v)]
    else if entries[0].0 == key then [(key, v)] + entries[1..]
    else [entries[0]] + Put(entries[1..], key, v)
  }

  /**
   * `bool(v)`; values of other types count as true. Python would find a
   * zero `Decimal` or an empty `bytes` falsy; `Other` is always truthy here.
   */
  predicate Truthy(v: Value)
  {
    match v
    case Null => false
    case Bool(b) => b
    case Int(i) => i != 0
    case Str(s) => s != ""
    case List(items) => items != []
    case Tuple(items) => items != []
    case Dict(entries) => entries != []
    case Other(_, _) => true
  }

  /** `type(v).__name__`. */
  function TypeName(v: Value): string
  {
    match v
    case Null => "NoneType"
    case Bool(_) => "bool"
    case Int(_) => "int"
    case Str(_) => "str"
    case List(_) => "list"
    case Tuple(_) => "tuple"
    case Dict(_) => "dict"
    case Other(t, _) => t
  }

  function FirstSome(xs: seq<Option<string>>): (r: Option<string>)
    ensures r.Some? <==> exists k :: 0 <= k < |xs| && xs[k].Some?
  {
    if xs == [] then None else if xs[0].Some? then xs[0] else FirstSome(xs[1..])
  }

  /**
   * The type name `hash(v)` complains about, if `v` cannot be hashed:
   * lists and dicts, and tuples holding one.
   */
  function Unhashable(v: Value): Option<string>
  {
    match v
    case List(_) => Some("list")
    case Dict(_) => Some("dict")
    case Tuple(items) => FirstSome(seq(|items|, k requires 0 <= k < |items| => Unhashable(items[k])))
    case _ => None
  }

  /**
   * `key in d` for a dict whose keys are the strings `keys`: an unhashable
   * key raises `TypeError`; otherwise only a string key can be present.
   */
  function KeyIn(v: Value, keys: set<string>): (r: Result<bool>)
    ensures r.Raised? <==> Unhashable(v).Some?
    ensures r == Ok(true) <==> v.Str? && v.s in keys
  {
    match Unhashable(v)
    case Some(t) => Raised("unhashable type: '" + t + "'")
    case None => Ok(v.Str? && v.s in keys)
  }

  /**
   * `str(v)`. Strings are themselves; scalars are rendered as Python
   * renders them; containers use Python's `repr`, given as `repr`.
   */
  function StrOf(repr: Value -> string, v: Value): string
  {
    match v
    case Null => "None"
    case Bool(b) => if b then "True" else "False"
    case Int(i) => Text.IntToString(i)
    case Str(s) => s
    case Other(_, text) => text
    case _ => repr(v)
  }
}
