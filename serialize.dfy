/** `_json_serializable` of nakari/agent/loop.py: turns any value into one
    `json.dumps` can render. */
module Serialize {
  import opened PyValue

  function JsonSerializable(v: Value): (r: Value)
    ensures IsJson(r)
    decreases v
  {
    match v
    case Null => v
    case Bool(_) => v
    case Int(_) => v
    case Float(_) => v
    case Str(_) => v
    // the driver's `Record` class is recognised by name before its module
    case Record(fs) =>
      Dict(map k | k in FieldKeys(fs) :: JsonSerializable(fs[LastIndex(fs, k)].value))
    // every other class of module `neo4j...` is rendered by `str()`
    case GraphEntity(_, _, _, text) => Str(text)
    case Temporal(_, text) => Str(text)
    case StdDateTime(_, iso) => Str(iso)
    case Dict(m) => Dict(map k | k in m :: JsonSerializable(m[k]))
    case List(xs) => List(seq(|xs|, i requires 0 <= i < |xs| => JsonSerializable(xs[i])))
    case Tuple(xs) => List(seq(|xs|, i requires 0 <= i < |xs| => JsonSerializable(xs[i])))
    case Opaque(_, text) => Str(text)
  }

  /** JSON values are left exactly as they are. */
  lemma {:induction false} JsonIsFixedPoint(v: Value)
    requires IsJson(v)
    ensures JsonSerializable(v) == v
    decreases v
  {
    match v
    case List(xs) =>
      forall i | 0 <= i < |xs| ensures JsonSerializable(xs[i]) == xs[i] {
        JsonIsFixedPoint(xs[i]);
      }
    case Dict(m) =>
      forall k | k in m ensures JsonSerializable(m[k]) == m[k] {
        JsonIsFixedPoint(m[k]);
      }
    case _ =>
  }

  /** Serializing twice is serializing once. */
  lemma SerializableIdempotent(v: Value)
    ensures JsonSerializable(JsonSerializable(v)) == JsonSerializable(v)
  {
    JsonIsFixedPoint(JsonSerializable(v));
  }

  /** Scalars are unchanged; lists and tuples map element-wise, preserving
      length and order; dicts and rows keep their key sets. */
  lemma SerializableShape(v: Value)
    ensures (v.Null? || v.Bool? || v.Int? || v.Float? || v.Str?) ==> JsonSerializable(v) == v
    ensures (v.List? || v.Tuple?) ==>
              JsonSerializable(v).List? && |JsonSerializable(v).items| == |v.items| &&
              forall i :: 0 <= i < |v.items| ==> JsonSerializable(v).items[i] == JsonSerializable(v.items[i])
    ensures v.Dict? ==>
              JsonSerializable(v).Dict? && JsonSerializable(v).entries.Keys == v.entries.Keys &&
              forall k :: k in v.entries ==> JsonSerializable(v).entries[k] == JsonSerializable(v.entries[k])
    ensures v.Record? ==>
              JsonSerializable(v).Dict? && JsonSerializable(v).entries.Keys == FieldKeys(v.fields)
  {
  }
}
