/**
 * The dynamically typed values the agent passes around: what `json.loads`
 * produces, what the graph driver hands back, and everything in between.
 */
module PyValue {
  import opened Wrappers

  /** An IEEE-754 double, kept opaque as its bit pattern. */
  datatype Float64 = Float64(bits: bv64)
  {
    /** `+0.0` and `-0.0` are the only falsy floats. */
    predicate IsZero() { bits & 0x7FFF_FFFF_FFFF_FFFF == 0 }
  }

  /** The temporal classes of the graph driver (module `neo4j.time`). */
  datatype TemporalKind = Date | Time | DateTime | Duration

  datatype Value =
    | Null                                      // Python `None`
    | Bool(b: bool)
    | Int(i: int)
    | Float(f: Float64)
    | Str(s: string)
    | List(items: seq<Value>)
    | Tuple(items: seq<Value>)
    | Dict(entries: map<string, Value>)
    | Record(fields: seq<Field>)                // a driver result row
    | Temporal(kind: TemporalKind, text: string) // `text` is its `str()`
    | StdDateTime(typeName: string, iso: string) // `datetime.date`/`time`/`datetime`
      /** A driver graph entity: `labels` is `Some` exactly when it has the
          attribute `_labels` (a node), `relType` exactly when it has `_type`
          (a relationship). `props` is `dict(value)`, `text` its `str()`. */
    | GraphEntity(labels: Option<seq<string>>, relType: Option<string>,
                  props: map<string, Value>, text: string)
    | Opaque(typeName: string, text: string)    // any other object

  datatype Field = Field(key: string, value: Value)

  /** The values `json.dumps` renders and `json.loads` produces. */
  predicate IsJson(v: Value)
  {
    match v
    case Null => true
    case Bool(_) => true
    case Int(_) => true
    case Float(_) => true
    case Str(_) => true
    case List(xs) => forall i :: 0 <= i < |xs| ==> IsJson(xs[i])
    case Dict(m) => forall k :: k in m ==> IsJson(m[k])
    case _ => false
  }

  type Json = v: Value | IsJson(v) witness Null

  /** `type(v).__name__` of a JSON value. */
  function TypeName(v: Json): string
  {
    match v
    case Null => "NoneType"
    case Bool(_) => "bool"
    case Int(_) => "int"
    case Float(_) => "float"
    case Str(_) => "str"
    case List(_) => "list"
    case Dict(_) => "dict"
  }

  /** Python truthiness of a JSON value. */
  predicate Truthy(v: Json)
  {
    match v
    case Null => false
    case Bool(b) => b
    case Int(i) => i != 0
    case Float(f) => !f.IsZero()
    case Str(s) => s != ""
    case List(xs) => xs != []
    case Dict(m) => m != map[]
  }

  /** Lists and dicts cannot be dictionary keys. */
  predicate Hashable(v: Json)
  {
    !v.List? && !v.Dict?
  }

  /** `str(e)` of the AttributeError raised by `v.<attr>`. */
  function NoAttribute(typeName: string, attr: string): string
  {
    "'" + typeName + "' object has no attribute '" + attr + "'"
  }

  /** `str(e)` of the TypeError raised by `for x in v` on a non-iterable. */
  function NotIterable(v: Json): string
  {
    "'" + TypeName(v) + "' object is not iterable"
  }

  /** `str(e)` of the TypeError raised by using `v` as a dictionary key. */
  function Unhashable(v: Json): string
  {
    "unhashable type: '" + TypeName(v) + "'"
  }

  /** `d.get(key, default)`. */
  function Get(d: map<string, Value>, key: string, default: Value): (r: Value)
    ensures key in d ==> r == d[key]
    ensures key !in d ==> r == default
  {
    if key in d then d[key] else default
  }

  /**
   * `[f(item) for item in v]` where `f` begins with `item.get(...)`:
   * the items of the iterable `v` when every one is a dict, otherwise what
   * the first bad step raises. Iterating a dict or a string yields strings,
   * so a non-empty one fails on its first item whatever the order.
   */
  function DictItems(v: Json): (r: Result<seq<map<string, Json>>, string>)
    ensures v.List? && (forall i :: 0 <= i < |v.items| ==> v.items[i].Dict?) ==>
              r.Ok? && |r.value| == |v.items| &&
              forall i :: 0 <= i < |v.items| ==> r.value[i] == v.items[i].entries
    ensures !v.List? && !v.Dict? && !v.Str? ==> r == Err(NotIterable(v))
    ensures r.Ok? ==> v.List? || v == Dict(map[]) || v == Str("")
  {
    match v
    case List(xs) => ListDicts(xs)
    case Dict(m) => if m == map[] then Ok([]) else Err(NoAttribute("str", "get"))
    case Str(s) => if s == "" then Ok([]) else Err(NoAttribute("str", "get"))
    case _ => Err(NotIterable(v))
  }

  function ListDicts(xs: seq<Json>): (r: Result<seq<map<string, Json>>, string>)
    ensures r.Ok? <==> forall i :: 0 <= i < |xs| ==> xs[i].Dict?
    ensures r.Ok? ==> |r.value| == |xs| && forall i :: 0 <= i < |xs| ==> r.value[i] == xs[i].entries
    ensures r.Err? ==> exists j :: 0 <= j < |xs| && !xs[j].Dict? && r.error == NoAttribute(TypeName(xs[j]), "get")
  {
    if xs == [] then Ok([])
    else if !xs[0].Dict? then Err(NoAttribute(TypeName(xs[0]), "get"))
    else
      match ListDicts(xs[1..])
      case Err(e) => Err(e)
      case Ok(rest) => Ok([xs[0].entries] + rest)
  }

  /** The keys of a driver row. */
  function FieldKeys(fs: seq<Field>): (ks: set<string>)
    ensures forall i :: 0 <= i < |fs| ==> fs[i].key in ks
    ensures forall k :: k in ks ==> exists i :: 0 <= i < |fs| && fs[i].key == k
  {
    set i | 0 <= i < |fs| :: fs[i].key
  }

  /** Where a dict built from the row in order takes the value of `k` from:
      the last field with that key. */
  function LastIndex(fs: seq<Field>, k: string): (i: nat)
    requires k in FieldKeys(fs)
    ensures i < |fs| && fs[i].key == k
    ensures forall j :: i < j < |fs| ==> fs[j].key != k
  {
    if fs[|fs| - 1].key == k then |fs| - 1
    else
      assert k in FieldKeys(fs[..|fs| - 1]) by {
        var j :| 0 <= j < |fs| && fs[j].key == k;
        assert fs[..|fs| - 1][j].key == k;
      }
      LastIndex(fs[..|fs| - 1], k)
  }
}
