/**
 * nakari/memory/__init__.py: the graph-store gateway. The driver is an
 * oracle (`Store`); what is modelled is how its answers are shaped into the
 * envelopes the agent sees, and which statements are issued in what order.
 */
module Memory {
  import opened Wrappers
  import opened PyValue

  type Row = seq<Field>

  /** `_convert_value`: node test first, then relationship, temporal, list,
      dict; everything else is returned as it is. Node and relationship
      properties are merged in verbatim, after the tags, so they may
      overwrite them. */
  function ConvertValue(v: Value): (r: Value)
    ensures IsJson(v) ==> r == v
    ensures v.GraphEntity? && v.labels.Some? ==> r.Dict? && r.entries.Keys == {"_type", "_labels"} + v.props.Keys
    ensures v.GraphEntity? && v.labels.None? && v.relType.Some? ==>
              r.Dict? && r.entries.Keys == {"_type", "_relationshipType"} + v.props.Keys
    ensures v.List? ==> r.List? && |r.items| == |v.items|
    ensures v.Dict? ==> r.Dict? && r.entries.Keys == v.entries.Keys
    decreases v
  {
    match v
    case GraphEntity(Some(labels), _, props, _) =>
      Dict(map["_type" := Str("node"), "_labels" := LabelList(labels)] + props)
    case GraphEntity(None, Some(t), props, _) =>
      Dict(map["_type" := Str("relationship"), "_relationshipType" := Str(t)] + props)
    case Temporal(_, text) => Str(text)
    case List(xs) => List(seq(|xs|, i requires 0 <= i < |xs| => ConvertValue(xs[i])))
    case Dict(m) => Dict(map k | k in m :: ConvertValue(m[k]))
    case _ => v
  }

  /** `list(value._labels)`, in the driver's iteration order. */
  function LabelList(labels: seq<string>): (r: Value)
    ensures r.List? && |r.items| == |labels|
    ensures forall i :: 0 <= i < |labels| ==> r.items[i] == Str(labels[i])
  {
    List(seq(|labels|, i requires 0 <= i < |labels| => Str(labels[i])))
  }

  /** The dict `_convert_record` builds: each key of the row, with the
      converted value of the last field carrying it. */
  function RecordDict(fs: Row): map<string, Value>
  {
    map k | k in FieldKeys(fs) :: ConvertValue(fs[LastIndex(fs, k)].value)
  }

  /** The keys of a row grown by one field. */
  lemma {:induction false} FieldKeysSnoc(fs: Row, f: Field)
    ensures FieldKeys(fs + [f]) == FieldKeys(fs) + {f.key}
  {
    var gs := fs + [f];
    forall k | k in FieldKeys(gs) ensures k in FieldKeys(fs) + {f.key} {
      var i :| 0 <= i < |gs| && gs[i].key == k;
      if i < |fs| { assert fs[i].key == k; }
    }
    forall k | k in FieldKeys(fs) ensures k in FieldKeys(gs) {
      var i :| 0 <= i < |fs| && fs[i].key == k;
      assert gs[i].key == k;
    }
    assert gs[|fs|] == f;
  }

  /** In a row grown by one field, the new field is the last one for its
      key and every other key still takes its old field. */
  lemma {:induction false} LastIndexSnoc(fs: Row, f: Field, k: string)
    requires k in FieldKeys(fs + [f])
    ensures k == f.key ==> LastIndex(fs + [f], k) == |fs|
    ensures k != f.key ==> k in FieldKeys(fs) && LastIndex(fs + [f], k) == LastIndex(fs, k)
  {
    var gs := fs + [f];
    assert gs[|fs|] == f;
    FieldKeysSnoc(fs, f);
    if k != f.key {
      var i, j := LastIndex(gs, k), LastIndex(fs, k);
      assert gs[j] == fs[j];
      assert i != |fs|;
      assert fs[i] == gs[i];
    }
  }

  /** Adding one more field to the row is one more dict assignment. */
  lemma RecordDictSnoc(fs: Row, f: Field)
    ensures RecordDict(fs + [f]) == RecordDict(fs)[f.key := ConvertValue(f.value)]
  {
    var grown, updated := RecordDict(fs + [f]), RecordDict(fs)[f.key := ConvertValue(f.value)];
    assert grown.Keys == FieldKeys(fs + [f]);
    assert updated.Keys == FieldKeys(fs) + {f.key};
    FieldKeysSnoc(fs, f);
    forall k | k in grown.Keys ensures grown[k] == updated[k] {
      RecordDictSnocAt(fs, f, k);
    }
  }

  lemma RecordDictSnocAt(fs: Row, f: Field, k: string)
    requires k in FieldKeys(fs + [f])
    ensures k == f.key ==> RecordDict(fs + [f])[k] == ConvertValue(f.value)
    ensures k != f.key ==> k in RecordDict(fs) && RecordDict(fs + [f])[k] == RecordDict(fs)[k]
  {
    LastIndexSnoc(fs, f, k);
    assert (fs + [f])[|fs|] == f;
  }

  /** `_convert_record`: fills the result dict field by field. */
  method ConvertRecord(record: Row) returns (result: map<string, Value>)
    ensures result == RecordDict(record)
  {
    result := map[];
    var i := 0;
    while i < |record|
      invariant 0 <= i <= |record|
      invariant result == RecordDict(record[..i])
    {
      RecordDictSnoc(record[..i], record[i]);
      assert record[..i + 1] == record[..i] + [record[i]];
      result := result[record[i].key := ConvertValue(record[i].value)];
      i := i + 1;
    }
    assert record[..i] == record;
  }

  /** The converted row has exactly the row's keys; when a key occurs once,
      its entry is that field's converted value. */
  lemma RecordDictFaithful(fs: Row)
    ensures RecordDict(fs).Keys == FieldKeys(fs)
    ensures forall i :: 0 <= i < |fs| && (forall j :: 0 <= j < |fs| && j != i ==> fs[j].key != fs[i].key) ==>
              RecordDict(fs)[fs[i].key] == ConvertValue(fs[i].value)
  {
    forall i | 0 <= i < |fs| && (forall j :: 0 <= j < |fs| && j != i ==> fs[j].key != fs[i].key)
      ensures RecordDict(fs)[fs[i].key] == ConvertValue(fs[i].value)
    {
      assert fs[i].key in FieldKeys(fs);
      assert LastIndex(fs, fs[i].key) == i;
    }
  }

  /** A value with `_labels` is a node even if it also has `_type`; the
      node dict holds the two tags and every property, the properties copied
      without conversion and winning over a tag of the same name. */
  lemma ConvertNode(labels: seq<string>, relType: Option<string>, props: map<string, Value>, text: string)
    ensures var r := ConvertValue(GraphEntity(Some(labels), relType, props, text));
      && r.Dict?
      && r.entries.Keys == {"_type", "_labels"} + props.Keys
      && (forall k :: k in props ==> r.entries[k] == props[k])
      && ("_type" !in props ==> r.entries["_type"] == Str("node"))
      && ("_labels" !in props ==> r.entries["_labels"] == LabelList(labels))
  {
  }

  /** A value with `_type` and no `_labels` is a relationship. */
  lemma ConvertRelationship(relType: string, props: map<string, Value>, text: string)
    ensures var r := ConvertValue(GraphEntity(None, Some(relType), props, text));
      && r.Dict?
      && r.entries.Keys == {"_type", "_relationshipType"} + props.Keys
      && (forall k :: k in props ==> r.entries[k] == props[k])
      && ("_type" !in props ==> r.entries["_type"] == Str("relationship"))
      && ("_relationshipType" !in props ==> r.entries["_relationshipType"] == Str(relType))
  {
  }

  /** Lists convert element-wise in order, dicts keep their keys, temporal
      values become their text, and everything that is neither node,
      relationship, temporal, list nor dict is returned unchanged. */
  lemma ConvertOthers(v: Value)
    ensures v.List? ==>
              && ConvertValue(v).List? && |ConvertValue(v).items| == |v.items|
              && forall i :: 0 <= i < |v.items| ==> ConvertValue(v).items[i] == ConvertValue(v.items[i])
    ensures v.Dict? ==>
              && ConvertValue(v).Dict? && ConvertValue(v).entries.Keys == v.entries.Keys
              && forall k :: k in v.entries ==> ConvertValue(v).entries[k] == ConvertValue(v.entries[k])
    ensures v.Temporal? ==> ConvertValue(v) == Str(v.text)
    ensures (!v.List? && !v.Dict? && !v.Temporal? &&
             !(v.GraphEntity? && (v.labels.Some? || v.relType.Some?))) ==> ConvertValue(v) == v
  {
  }

  /** A statement as handed to `session.run`: text and parameters, passed
      through untouched. */
  datatype Statement = Statement(text: Value, params: Value)

  /** The six mutation counters of a write summary. */
  datatype Counters = Counters(nodesCreated: nat, nodesDeleted: nat,
                               relationshipsCreated: nat, relationshipsDeleted: nat,
                               propertiesSet: nat, labelsAdded: nat)

  /** The graph store as an oracle: the rows a statement returns, its
      summary counters, and its `single()` record; `Err` is the message of
      whatever the driver raised. */
  datatype Store = Store(
    rows: Statement -> Result<seq<Row>, string>,
    summary: Statement -> Result<Counters, string>,
    single: Statement -> Result<Option<Row>, string>)

  const LABELS_QUERY: string := "CALL db.labels() YIELD label RETURN collect(label) AS labels"
  const TYPES_QUERY: string :=
    "CALL db.relationshipTypes() YIELD relationshipType RETURN collect(relationshipType) AS types"
  const KEYS_QUERY: string := "CALL db.propertyKeys() YIELD propertyKey RETURN collect(propertyKey) AS keys"

  /** A schema-introspection statement carries no parameters. */
  function Introspect(text: string): Statement
  {
    Statement(Str(text), Null)
  }

  /** `query`: one converted dict per row, in row order, under "records". */
  function QueryEnvelope(reply: Result<seq<Row>, string>): (r: Result<Value, string>)
    ensures reply.Err? ==> r == Err(reply.error)
    ensures reply.Ok? ==>
              && r.Ok? && r.value.Dict? && r.value.entries.Keys == {"records"}
              && r.value.entries["records"].List?
              && |r.value.entries["records"].items| == |reply.value|
              && forall i :: 0 <= i < |reply.value| ==>
                   r.value.entries["records"].items[i] == Dict(RecordDict(reply.value[i]))
  {
    match reply
    case Err(e) => Err(e)
    case Ok(rows) => Ok(Dict(map["records" := List(Records(rows))]))
  }

  function Records(rows: seq<Row>): seq<Value>
  {
    seq(|rows|, i requires 0 <= i < |rows| => Dict(RecordDict(rows[i])))
  }

  /** `write`: the six counters, by name, under "stats". */
  function WriteEnvelope(reply: Result<Counters, string>): (r: Result<Value, string>)
    ensures reply.Err? ==> r == Err(reply.error)
    ensures reply.Ok? ==>
              && r.Ok? && r.value.Dict? && r.value.entries.Keys == {"stats"}
              && r.value.entries["stats"] == Dict(StatsOf(reply.value))
  {
    match reply
    case Err(e) => Err(e)
    case Ok(c) => Ok(Dict(map["stats" := Dict(StatsOf(c))]))
  }

  function StatsOf(c: Counters): map<string, Value>
  {
    map["nodesCreated" := Int(c.nodesCreated),
        "nodesDeleted" := Int(c.nodesDeleted),
        "relationshipsCreated" := Int(c.relationshipsCreated),
        "relationshipsDeleted" := Int(c.relationshipsDeleted),
        "propertiesSet" := Int(c.propertiesSet),
        "labelsAdded" := Int(c.labelsAdded)]
  }

  /** Exactly six counters, each copied from the summary. */
  lemma StatsFaithful(c: Counters)
    ensures StatsOf(c).Keys == {"nodesCreated", "nodesDeleted", "relationshipsCreated",
                                "relationshipsDeleted", "propertiesSet", "labelsAdded"}
    ensures StatsOf(c)["nodesCreated"] == Int(c.nodesCreated)
    ensures StatsOf(c)["nodesDeleted"] == Int(c.nodesDeleted)
    ensures StatsOf(c)["relationshipsCreated"] == Int(c.relationshipsCreated)
    ensures StatsOf(c)["relationshipsDeleted"] == Int(c.relationshipsDeleted)
    ensures StatsOf(c)["propertiesSet"] == Int(c.propertiesSet)
    ensures StatsOf(c)["labelsAdded"] == Int(c.labelsAdded)
  {
  }

  /** `record[key]` on a driver row: the first field with that key; an
      unknown key raises `KeyError(key)`, whose text is the quoted key. */
  function Lookup(fs: Row, key: string): (r: Result<Value, string>)
    ensures r.Ok? <==> key in FieldKeys(fs)
    ensures r.Ok? ==> exists i :: 0 <= i < |fs| && fs[i].key == key && r.value == fs[i].value &&
                        forall j :: 0 <= j < i ==> fs[j].key != key
    ensures r.Err? ==> r.error == "'" + key + "'"
  {
    if fs == [] then Err("'" + key + "'")
    else if fs[0].key == key then Ok(fs[0].value)
    else
      var r := Lookup(fs[1..], key);
      assert r.Ok? ==> key in FieldKeys(fs) by {
        if r.Ok? { var i :| 0 <= i < |fs[1..]| && fs[1..][i].key == key; assert fs[i + 1].key == key; }
      }
      assert key in FieldKeys(fs) ==> r.Ok? by {
        if key in FieldKeys(fs) {
          var i :| 0 <= i < |fs| && fs[i].key == key;
          assert i > 0 && fs[1..][i - 1].key == key;
        }
      }
      if r.Ok? then
        assert exists i :: 0 <= i < |fs| && fs[i].key == key && r.value == fs[i].value &&
                 forall j :: 0 <= j < i ==> fs[j].key != key by {
          var i :| 0 <= i < |fs[1..]| && fs[1..][i].key == key && r.value == fs[1..][i].value &&
                   forall j :: 0 <= j < i ==> fs[1..][j].key != key;
          assert fs[i + 1] == fs[1..][i];
          forall j | 0 <= j < i + 1 ensures fs[j].key != key {
            if j > 0 { assert fs[j] == fs[1..][j - 1]; }
          }
        }
        r
      else r
  }

  /** `x["key"] if x else []`: the column of the single record, or the
      empty list when the statement returned no record or a falsy one. A
      driver record is a tuple, so it is falsy exactly when it has no
      fields. The value is taken as the driver gives it, without
      conversion. */
  function ColumnOr(reply: Option<Row>, key: string): Result<Value, string>
  {
    match reply
    case None => Ok(List([]))
    case Some(fs) => if fs == [] then Ok(List([])) else Lookup(fs, key)
  }

  /** One introspection step: run the statement, take one record, read the
      column. */
  function SchemaStep(store: Store, text: string, key: string): Result<Value, string>
  {
    match store.single(Introspect(text))
    case Err(e) => Err(e)
    case Ok(rec) => ColumnOr(rec, key)
  }

  /** `schema`: labels, then relationship types, then property keys; the
      first failure ends it. */
  function SchemaEnvelope(store: Store): (r: Result<Value, string>)
    ensures r.Ok? <==> SchemaStep(store, LABELS_QUERY, "labels").Ok? &&
                       SchemaStep(store, TYPES_QUERY, "types").Ok? &&
                       SchemaStep(store, KEYS_QUERY, "keys").Ok?
    ensures r.Ok? ==> r.value == Dict(map["labels" := SchemaStep(store, LABELS_QUERY, "labels").value,
                                          "relationshipTypes" := SchemaStep(store, TYPES_QUERY, "types").value,
                                          "propertyKeys" := SchemaStep(store, KEYS_QUERY, "keys").value])
    ensures SchemaStep(store, LABELS_QUERY, "labels").Err? ==> r == SchemaStep(store, LABELS_QUERY, "labels")
    ensures SchemaStep(store, LABELS_QUERY, "labels").Ok? && SchemaStep(store, TYPES_QUERY, "types").Err? ==>
              r == SchemaStep(store, TYPES_QUERY, "types")
    ensures SchemaStep(store, LABELS_QUERY, "labels").Ok? && SchemaStep(store, TYPES_QUERY, "types").Ok? &&
            SchemaStep(store, KEYS_QUERY, "keys").Err? ==>
              r == SchemaStep(store, KEYS_QUERY, "keys")
  {
    match SchemaStep(store, LABELS_QUERY, "labels")
    case Err(e) => Err(e)
    case Ok(labels) =>
      match SchemaStep(store, TYPES_QUERY, "types")
      case Err(e) => Err(e)
      case Ok(types) =>
        match SchemaStep(store, KEYS_QUERY, "keys")
        case Err(e) => Err(e)
        case Ok(keys) => Ok(Dict(map["labels" := labels, "relationshipTypes" := types, "propertyKeys" := keys]))
  }

  /** The statements `schema` puts to the store: in order, up to and
      including the first that fails. */
  function SchemaIssued(store: Store): (ss: seq<Statement>)
    ensures 1 <= |ss| <= 3
    ensures ss == [Introspect(LABELS_QUERY), Introspect(TYPES_QUERY), Introspect(KEYS_QUERY)][..|ss|]
    ensures SchemaEnvelope(store).Ok? ==> |ss| == 3
    ensures |ss| == 1 <==> SchemaStep(store, LABELS_QUERY, "labels").Err?
    ensures |ss| == 2 <==> SchemaStep(store, LABELS_QUERY, "labels").Ok? && SchemaStep(store, TYPES_QUERY, "types").Err?
  {
    if SchemaStep(store, LABELS_QUERY, "labels").Err? then [Introspect(LABELS_QUERY)]
    else if SchemaStep(store, TYPES_QUERY, "types").Err? then [Introspect(LABELS_QUERY), Introspect(TYPES_QUERY)]
    else [Introspect(LABELS_QUERY), Introspect(TYPES_QUERY), Introspect(KEYS_QUERY)]
  }

  /** A statement that returns no record, or an empty one, gives `[]` for
      its field; one whose record lacks the column fails with the
      `KeyError`. */
  lemma SchemaFallback(store: Store)
    requires store.single(Introspect(LABELS_QUERY)) in {Ok(None), Ok(Some([]))}
    requires store.single(Introspect(TYPES_QUERY)) in {Ok(None), Ok(Some([]))}
    requires store.single(Introspect(KEYS_QUERY)) in {Ok(None), Ok(Some([]))}
    ensures SchemaEnvelope(store) ==
            Ok(Dict(map["labels" := List([]), "relationshipTypes" := List([]), "propertyKeys" := List([])]))
  {
  }

  /** A non-empty labels record without a `labels` column ends `schema`
      with the `KeyError` for that column. */
  lemma SchemaMissingColumn(store: Store, fs: Row)
    requires store.single(Introspect(LABELS_QUERY)) == Ok(Some(fs))
    requires fs != [] && forall i :: 0 <= i < |fs| ==> fs[i].key != "labels"
    ensures SchemaEnvelope(store) == Err("'labels'")
  {
    assert "labels" !in FieldKeys(fs);
    assert Lookup(fs, "labels") == Err("'" + "labels" + "'");
    assert "'" + "labels" + "'" == "'labels'";
  }

  /**
   * The client over one driver. `issued` is the driver's view of the
   * client: the statements run so far, in order. Reads and writes use the
   * same kind of session.
   */
  class MemoryClient {
    const store: Store
    var issued: seq<Statement>

    constructor(store: Store)
      ensures this.store == store && issued == []
    {
      this.store := store;
      issued := [];
    }

    method Query(cypher: Value, params: Value) returns (r: Result<Value, string>)
      modifies this
      ensures issued == old(issued) + [Statement(cypher, params)]
      ensures r == QueryEnvelope(store.rows(Statement(cypher, params)))
    {
      var statement := Statement(cypher, params);
      issued := issued + [statement];
      var reply := store.rows(statement);
      if reply.Err? {
        return Err(reply.error);
      }
      var rows := reply.value;
      var records: seq<Value> := [];
      var i := 0;
      while i < |rows|
        invariant 0 <= i <= |rows|
        invariant records == Records(rows[..i])
        invariant issued == old(issued) + [statement]
      {
        var converted := ConvertRecord(rows[i]);
        records := records + [Dict(converted)];
        i := i + 1;
      }
      assert rows[..i] == rows;
      r := Ok(Dict(map["records" := List(records)]));
    }

    method Write(cypher: Value, params: Value) returns (r: Result<Value, string>)
      modifies this
      ensures issued == old(issued) + [Statement(cypher, params)]
      ensures r == WriteEnvelope(store.summary(Statement(cypher, params)))
    {
      var statement := Statement(cypher, params);
      issued := issued + [statement];
      var summary := store.summary(statement);
      if summary.Err? {
        return Err(summary.error);
      }
      var stats := StatsOf(summary.value);
      r := Ok(Dict(map["stats" := Dict(stats)]));
    }

    method Schema() returns (r: Result<Value, string>)
      modifies this
      ensures issued == old(issued) + SchemaIssued(store)
      ensures r == SchemaEnvelope(store)
    {
      issued := issued + [Introspect(LABELS_QUERY)];
      var labels := SchemaStep(store, LABELS_QUERY, "labels");
      if labels.Err? {
        return Err(labels.error);
      }
      issued := issued + [Introspect(TYPES_QUERY)];
      var types := SchemaStep(store, TYPES_QUERY, "types");
      if types.Err? {
        return Err(types.error);
      }
      issued := issued + [Introspect(KEYS_QUERY)];
      var keys := SchemaStep(store, KEYS_QUERY, "keys");
      if keys.Err? {
        return Err(keys.error);
      }
      r := Ok(Dict(map["labels" := labels.value, "relationshipTypes" := types.value,
                       "propertyKeys" := keys.value]));
    }
  }
}
