/** The Python values that plugin metadata and exports are made of, with the
    built-in behaviour the registry code relies on: truthiness (`if x:`),
    `str(x)` inside f-strings, the `in` operator and iteration. */
module PyValues {

  import opened Wrappers
  import opened Text
  import Assoc

  /** One parameter of a function as `inspect.signature` reports it: its name
      and `str()` of its annotation, `None` when it has none. */
  datatype Param = Param(name: string, annotation: Option<string>)

  /** A plugin function, seen through what the registry and the tools read of
      it: `__name__`, `inspect.getdoc`, `str(inspect.signature(f))` (or the
      message of the exception it raises), whether `get_type_hints` raises
      and whether its result holds `'return'`, the parameters, and whether
      calling it with no arguments raises (for an init hook). */
  datatype Function = Function(
    name: string,
    doc: Option<string>,
    signature: string,
    signatureError: Option<string>,
    hintsError: Option<string>,
    returnHint: bool,
    params: seq<Param>,
    raises: bool)

  /** A Python value: the JSON-like values metadata is written with, plus
      functions.  A dict's entries keep insertion order. */
  datatype Value =
    | Str(s: string)
    | Int(i: int)
    | Bool(b: bool)
    | NoneValue
    | List(items: seq<Value>)
    | Dict(entries: seq<(string, Value)>)
    | Callable(f: Function)

  /** The entries of a dict with string keys. */
  type Entries = seq<(string, Value)>

  /** `bool(v)`: empty strings and containers, zero, `False` and `None` are false. */
  predicate Truthy(v: Value) {
    match v
    case Str(s) => |s| > 0
    case Int(i) => i != 0
    case Bool(b) => b
    case NoneValue => false
    case List(items) => |items| > 0
    case Dict(entries) => |entries| > 0
    case Callable(_) => true
  }

  /** `d.get(k, default)`. */
  function Get(d: Entries, k: string, default: Value): (r: Value)
    ensures k !in Assoc.Keys(d) ==> r == default
    ensures k in Assoc.Keys(d) ==> (k, r) in d
  {
    Assoc.Lookup(d, k).GetOr(default)
  }

  /** `str(v)`, as an f-string renders `v`. */
  function Show(v: Value): string
    decreases v, 1
  {
    match v
    case Str(s) => s
    case Int(i) => IntToString(i)
    case Bool(b) => if b then "True" else "False"
    case NoneValue => "None"
    case List(items) =>
      "[" + Join(seq(|items|, k requires 0 <= k < |items| => Repr(items[k])), ", ") + "]"
    case Dict(entries) =>
      "{" + Join(seq(|entries|, k requires 0 <= k < |entries| =>
                       "'" + entries[k].0 + "': " + Repr(entries[k].1)), ", ") + "}"
    case Callable(f) => "<function " + f.name + ">"
  }

  /** `repr(v)`, as `str` of a container renders its elements. */
  function Repr(v: Value): string
    decreases v, 2
  {
    if v.Str? then "'" + v.s + "'" else Show(v)
  }

  /** `s in container` for a string `s`: substring, list membership or dict
      key; `None` where Python raises `TypeError`. */
  function In(container: Value, s: string): (r: Option<bool>)
    ensures r.None? <==> !(container.Str? || container.List? || container.Dict?)
  {
    match container
    case Str(t) => Some(Contains(t, s))
    case List(items) => Some(Str(s) in items)
    case Dict(entries) => Some(s in Assoc.Keys(entries))
    case _ => None
  }

  /** The values `for x in v` visits: list items, the characters of a
      string, the keys of a dict; `None` where Python raises `TypeError`. */
  function Iterate(v: Value): (r: Option<seq<Value>>)
    ensures r.None? <==> !(v.List? || v.Str? || v.Dict?)
    ensures v.List? ==> r == Some(v.items)
    ensures v.Str? ==> r.value == seq(|v.s|, k requires 0 <= k < |v.s| => Str([v.s[k]]))
    ensures v.Dict? ==> r.value == seq(|v.entries|, k requires 0 <= k < |v.entries| => Str(v.entries[k].0))
    ensures r.Some? ==> forall x :: x in r.value && x.Callable? ==> v.List?
  {
    match v
    case List(items) => Some(items)
    case Str(s) => Some(seq(|s|, k requires 0 <= k < |s| => Str([s[k]])))
    case Dict(entries) => Some(seq(|entries|, k requires 0 <= k < |entries| => Str(entries[k].0)))
    case _ => None
  }
}
